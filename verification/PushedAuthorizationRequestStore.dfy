/** Pushed authorization requests: a payload kept under a single-use `request_uri`. */
module PushedAuthorizationRequestStore {
  import opened Wrappers
  import opened Environments

  datatype Payload = Payload(
    clientId: string, redirectUri: string, scopes: seq<string>, state: string, codeChallenge: string)

  datatype Pushed = Pushed(
    serviceCode: string, environment: Environment, payload: Payload, expiresAt: int, consumed: bool)

  type Pushes = map<string, Pushed>

  function Create(
    pushes: Pushes, uriHash: string, serviceCode: string, environment: Environment, payload: Payload, ttlSeconds: int,
    now: int): Pushes
  {
    pushes[uriHash := Pushed(serviceCode, environment, payload, now + ttlSeconds * 1000, false)]
  }

  predicate Consumable(pushes: Pushes, uriHash: string, serviceCode: string, now: int) {
    && uriHash in pushes && !pushes[uriHash].consumed
    && pushes[uriHash].serviceCode == serviceCode && pushes[uriHash].expiresAt > now
  }

  /** None stands for the error `OAUTH_PAR_REQUEST_URI_INVALID`. */
  function Consume(pushes: Pushes, uriHash: string, serviceCode: string, now: int): (Pushes, Option<Pushed>) {
    if !Consumable(pushes, uriHash, serviceCode, now) then (pushes, None)
    else (pushes[uriHash := pushes[uriHash].(consumed := true)], Some(pushes[uriHash]))
  }

  class Store {
    const hash: string -> string
    var pushes: Pushes

    constructor (hash: string -> string)
      ensures this.hash == hash && pushes == map[]
    {
      this.hash, pushes := hash, map[];
    }

    method CreatePush(
      newUri: string, serviceCode: string, environment: Environment, payload: Payload, ttlSeconds: int, now: int)
      requires hash(newUri) !in pushes
      modifies this
      ensures pushes == Create(old(pushes), hash(newUri), serviceCode, environment, payload, ttlSeconds, now)
    {
      pushes := pushes[hash(newUri) := Pushed(serviceCode, environment, payload, now + ttlSeconds * 1000, false)];
    }

    method ConsumePush(requestUri: string, serviceCode: string, now: int) returns (r: Option<Pushed>)
      modifies this
      ensures (pushes, r) == Consume(old(pushes), hash(requestUri), serviceCode, now)
    {
      var key := hash(requestUri);
      if key !in pushes { return None; }
      var record := pushes[key];
      if record.consumed || record.serviceCode != serviceCode || record.expiresAt <= now { return None; }
      pushes := pushes[key := record.(consumed := true)];
      r := Some(record);
    }
  }
}
