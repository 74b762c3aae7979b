/** The two deployments every record of the gateway belongs to. */
module Environments {

  datatype Environment = Sandbox | Live
}
