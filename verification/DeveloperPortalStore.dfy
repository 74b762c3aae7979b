/** The developer portal: applications, the services made of them, their scopes and API keys.

    New records go to the front of their list. Fresh ids and secrets are parameters, a secret by its
    fingerprint; `now` is in milliseconds. */
module DeveloperPortalStore {
  import opened Wrappers
  import opened Environments
  import opened Lists
  import opened Slugs

  datatype ServiceStatus = Draft | Active | Suspended | Rejected | Archived
  datatype KeyStatus = KeyActive | PendingCutover | KeyRevoked
  datatype RequestStatus = PendingReview | Approved | Declined

  datatype ApiKey = ApiKey(
    keyId: string, environment: Environment, status: KeyStatus, fingerprint: string, expiresAt: Option<int>)

  datatype Service = Service(
    serviceCode: string, status: ServiceStatus, environments: seq<Environment>,
    scopesGranted: seq<string>, scopesPending: seq<string>, keys: seq<ApiKey>)

  datatype Application = Application(
    applicationId: string, displayName: string, requestedScopes: seq<string>, requestedEnvironments: seq<Environment>,
    status: RequestStatus, serviceCode: string)

  datatype ScopeRequest = ScopeRequest(
    requestId: string, serviceCode: string, environment: Environment, requestedScopes: seq<string>,
    status: RequestStatus)

  datatype RotationStatus = RotationRequested | RotationApproved | RotationCompleted | RotationRejected
  datatype Rotation = Rotation(
    rotationId: string, serviceCode: string, environment: Environment, status: RotationStatus)
  datatype RotationDecision = ApproveRotation | CompleteRotation | RejectRotation

  /** The error thrown, without its `DEVELOPER_` prefix. */
  datatype PortalError =
    | ApplicationNotFound | ServiceNotFound | ScopeEnvironmentNotEnabled | ServiceNotEligible | ScopeAlreadyGranted
    | ScopeAlreadyPending | ScopeRequestNotFound | ScopeRequestAlreadyDecided | LiveEnvironmentNotEnabled
    | LiveDomainVerificationRequired | ApiKeyNotFound | RotationNotFound

  datatype Outcome = Done | Failed(error: PortalError)

  // ----------------------------------------------------------------- service codes

  function Decimal(n: nat): string {
    if n < 10 then [('0' as int + n) as char] else Decimal(n / 10) + [('0' as int + n % 10) as char]
  }

  /** The first candidate is the slug itself, the next `-2`, `-3` and so on. */
  function Candidate(base: string, k: nat): string {
    if k <= 1 then base else base + "-" + Decimal(k)
  }

  predicate Taken(services: seq<Service>, code: string) {
    exists i :: 0 <= i < |services| && services[i].serviceCode == code
  }

  /** The first free candidate from the `k`-th on, of at most one more than there are services. */
  function FirstFree(services: seq<Service>, base: string, k: nat): string
    decreases |services| + 1 - k
  {
    if k > |services| || !Taken(services, Candidate(base, k)) then Candidate(base, k)
    else FirstFree(services, base, k + 1)
  }

  /** `nextServiceCode` */
  function NextCode(services: seq<Service>, seed: string): string {
    FirstFree(services, Slug(seed), 1)
  }

  function IndexOf(services: seq<Service>, code: string): (n: nat)
    ensures n <= |services|
    ensures n < |services| ==> services[n].serviceCode == code
  {
    if services == [] || services[0].serviceCode == code then 0 else 1 + IndexOf(services[1..], code)
  }

  /** `getMutableService`: every lookup slugs the code it is given. */
  function Lookup(services: seq<Service>, code: string): (n: nat)
    ensures n <= |services|
    ensures n < |services| ==> services[n].serviceCode == Slug(code)
  {
    IndexOf(services, Slug(code))
  }

  // ------------------------------------------------------------- one service's change

  predicate Eligible(s: Service) {
    s.status == Draft || s.status == Active
  }

  function NewService(code: string, a: Application, active: bool, grant: bool): Service {
    Service(code, if active then Active else Draft, Unique(a.requestedEnvironments),
            if grant then Unique(a.requestedScopes) else [], if grant then [] else Unique(a.requestedScopes), [])
  }

  /** Why a scope request is refused, if it is. */
  function RequestRefusal(s: Service, environment: Environment, scopes: seq<string>): Outcome {
    if environment !in s.environments then Failed(ScopeEnvironmentNotEnabled)
    else if !Eligible(s) then Failed(ServiceNotEligible)
    else if exists x <- scopes :: x in s.scopesGranted then Failed(ScopeAlreadyGranted)
    else if exists x <- scopes :: x in s.scopesPending then Failed(ScopeAlreadyPending)
    else Done
  }

  function WithPending(s: Service, scopes: seq<string>): Service {
    s.(scopesPending := Unique(s.scopesPending + scopes))
  }

  function WithDecision(s: Service, scopes: seq<string>, approve: bool): Service {
    s.(scopesGranted := if approve then Unique(s.scopesGranted + scopes) else s.scopesGranted,
       scopesPending := Without(s.scopesPending, scopes))
  }

  /** The keys of the environment that have one status get another. */
  function Restatus(keys: seq<ApiKey>, environment: Environment, from: KeyStatus, to: KeyStatus): (r: seq<ApiKey>)
    ensures |r| == |keys|
  {
    if keys == [] then []
    else
      var key := keys[0];
      var key' := if key.environment == environment && key.status == from then key.(status := to) else key;
      [key'] + Restatus(keys[1..], environment, from, to)
  }

  function WithKey(s: Service, key: ApiKey, previous: KeyStatus): Service {
    s.(keys := Restatus(s.keys, key.environment, KeyActive, previous) + [key])
  }

  /** Keys being replaced in the environment are revoked. */
  function WithCutover(s: Service, environment: Environment): Service {
    s.(keys := Restatus(s.keys, environment, PendingCutover, KeyRevoked))
  }

  function WithRevoked(s: Service, k: nat): Service
    requires k < |s.keys|
  {
    s.(keys := s.keys[k := s.keys[k].(status := KeyRevoked)])
  }

  function IndexOfKey(keys: seq<ApiKey>, keyId: string): (n: nat)
    ensures n <= |keys|
    ensures n < |keys| ==> keys[n].keyId == keyId
  {
    if keys == [] || keys[0].keyId == keyId then 0 else 1 + IndexOfKey(keys[1..], keyId)
  }

  // --------------------------------------------------------------------- the store

  datatype Portal = Portal(
    applications: seq<Application>, services: seq<Service>, scopeRequests: seq<ScopeRequest>, rotations: seq<Rotation>)

  function IndexOfApplication(applications: seq<Application>, id: string): (n: nat)
    ensures n <= |applications|
  {
    if applications == [] || applications[0].applicationId == id then 0
    else 1 + IndexOfApplication(applications[1..], id)
  }

  function IndexOfRequest(requests: seq<ScopeRequest>, id: string): (n: nat)
    ensures n <= |requests|
    ensures n < |requests| ==> requests[n].requestId == id
  {
    if requests == [] || requests[0].requestId == id then 0 else 1 + IndexOfRequest(requests[1..], id)
  }

  function IndexOfRotation(rotations: seq<Rotation>, id: string): (n: nat)
    ensures n <= |rotations|
  {
    if rotations == [] || rotations[0].rotationId == id then 0 else 1 + IndexOfRotation(rotations[1..], id)
  }

  function Submit(p: Portal, a: Application): Portal {
    p.(applications := [a.(status := PendingReview, serviceCode := "")] + p.applications)
  }

  /** The `n`-th application approved as a service with the code. */
  function ApprovedAs(p: Portal, n: nat, code: string, active: bool, grant: bool): Portal
    requires n < |p.applications|
  {
    var a := p.applications[n];
    p.(applications := p.applications[n := a.(status := Approved, serviceCode := code)],
       services := [NewService(code, a, active, grant)] + p.services)
  }

  function Approve(p: Portal, id: string, serviceCode: string, active: bool, grant: bool): (Portal, Outcome) {
    var n := IndexOfApplication(p.applications, id);
    if n == |p.applications| then (p, Failed(ApplicationNotFound))
    else
      var a := p.applications[n];
      if a.status == Approved && a.serviceCode != "" then
        (p, if Lookup(p.services, a.serviceCode) < |p.services| then Done else Failed(ServiceNotFound))
      else
        var seed := if serviceCode != "" then serviceCode else a.displayName;
        (ApprovedAs(p, n, NextCode(p.services, seed), active, grant), Done)
  }

  function SubmitRequest(
    p: Portal, code: string, environment: Environment, scopes: seq<string>, freshId: string): (Portal, Outcome)
  {
    var n := Lookup(p.services, code);
    if n == |p.services| then (p, Failed(ServiceNotFound))
    else
      var s := p.services[n];
      var refusal := RequestRefusal(s, environment, scopes);
      if refusal.Failed? then (p, refusal)
      else
        var r := ScopeRequest(freshId, s.serviceCode, environment, scopes, PendingReview);
        (p.(services := p.services[n := WithPending(s, scopes)],
            scopeRequests := [r] + p.scopeRequests), Done)
  }

  function DecideRequest(p: Portal, id: string, approve: bool): (Portal, Outcome) {
    var i := IndexOfRequest(p.scopeRequests, id);
    if i == |p.scopeRequests| then (p, Failed(ScopeRequestNotFound))
    else if p.scopeRequests[i].status != PendingReview then (p, Failed(ScopeRequestAlreadyDecided))
    else
      var r := p.scopeRequests[i];
      var n := Lookup(p.services, r.serviceCode);
      if n == |p.services| then (p, Failed(ServiceNotFound))
      else if r.environment !in p.services[n].environments then (p, Failed(ScopeEnvironmentNotEnabled))
      else if !Eligible(p.services[n]) then (p, Failed(ServiceNotEligible))
      else
        (p.(services := p.services[n := WithDecision(p.services[n], r.requestedScopes, approve)],
            scopeRequests := p.scopeRequests[i := r.(status := if approve then Approved else Declined)]), Done)
  }

  function ChangeStatus(p: Portal, code: string, status: ServiceStatus): (Portal, Outcome) {
    var n := Lookup(p.services, code);
    if n == |p.services| then (p, Failed(ServiceNotFound))
    else (p.(services := p.services[n := p.services[n].(status := status)]), Done)
  }

  /** `liveReady` holds if the live hostnames are verified. */
  function IssueKey(
    p: Portal, code: string, environment: Environment, liveReady: bool, keyId: string, fingerprint: string,
    expiresAt: Option<int>): (Portal, Outcome)
  {
    var n := Lookup(p.services, code);
    if n == |p.services| then (p, Failed(ServiceNotFound))
    else if environment == Live && Live !in p.services[n].environments then (p, Failed(LiveEnvironmentNotEnabled))
    else if environment == Live && !liveReady then (p, Failed(LiveDomainVerificationRequired))
    else
      var key := ApiKey(keyId, environment, KeyActive, fingerprint, expiresAt);
      (p.(services := p.services[n := WithKey(p.services[n], key, PendingCutover)]), Done)
  }

  function EmergencyRotate(
    p: Portal, code: string, environment: Environment, revokePrevious: bool, keyId: string, fingerprint: string)
    : (Portal, Outcome)
  {
    var n := Lookup(p.services, code);
    if n == |p.services| then (p, Failed(ServiceNotFound))
    else
      var key := ApiKey(keyId, environment, KeyActive, fingerprint, None);
      var previous := if revokePrevious then KeyRevoked else PendingCutover;
      (p.(services := p.services[n := WithKey(p.services[n], key, previous)]), Done)
  }

  function RequestRotation(p: Portal, code: string, environment: Environment, freshId: string): (Portal, Outcome) {
    var n := Lookup(p.services, code);
    if n == |p.services| then (p, Failed(ServiceNotFound))
    else
      var rotation := Rotation(freshId, p.services[n].serviceCode, environment, RotationRequested);
      (p.(rotations := [rotation] + p.rotations), Done)
  }

  function RotationOutcome(decision: RotationDecision): RotationStatus {
    match decision
    case ApproveRotation => RotationApproved
    case CompleteRotation => RotationCompleted
    case RejectRotation => RotationRejected
  }

  /** A decision may be made anew; completing one revokes the keys being replaced. */
  function DecideRotation(p: Portal, id: string, decision: RotationDecision): (Portal, Outcome) {
    var i := IndexOfRotation(p.rotations, id);
    if i == |p.rotations| then (p, Failed(RotationNotFound))
    else
      var n := Lookup(p.services, p.rotations[i].serviceCode);
      if n == |p.services| then (p, Failed(ServiceNotFound))
      else
        var rotations := p.rotations[i := p.rotations[i].(status := RotationOutcome(decision))];
        if decision != CompleteRotation then (p.(rotations := rotations), Done)
        else
          var s := WithCutover(p.services[n], p.rotations[i].environment);
          (p.(services := p.services[n := s], rotations := rotations), Done)
  }

  function RevokeKey(p: Portal, code: string, keyId: string): (Portal, Outcome) {
    var n := Lookup(p.services, code);
    if n == |p.services| then (p, Failed(ServiceNotFound))
    else
      var k := IndexOfKey(p.services[n].keys, keyId);
      if k == |p.services[n].keys| then (p, Failed(ApiKeyNotFound))
      else (p.(services := p.services[n := WithRevoked(p.services[n], k)]), Done)
  }

  predicate Usable(key: ApiKey, fingerprint: string, now: int) {
    && key.status != KeyRevoked && key.fingerprint == fingerprint
    && (key.expiresAt.None? || key.expiresAt.value > now)
  }

  /** The first usable key of the list. */
  function UsableKey(keys: seq<ApiKey>, fingerprint: string, now: int): Option<ApiKey> {
    if keys == [] then None
    else if Usable(keys[0], fingerprint, now) then Some(keys[0])
    else UsableKey(keys[1..], fingerprint, now)
  }

  /** The first active service with a usable key, and the key. */
  function Resolve(services: seq<Service>, fingerprint: string, now: int): Option<(Service, ApiKey)> {
    if services == [] then None
    else
      var key := UsableKey(services[0].keys, fingerprint, now);
      if services[0].status == Active && key.Some? then Some((services[0], key.value))
      else Resolve(services[1..], fingerprint, now)
  }
}
