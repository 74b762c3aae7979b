/** The authorization-code flow as a state machine: every store call of every handler is one
    step, and steps of different handlers interleave freely. A handler may stop anywhere. */
module AuthorizationFlow {
  import opened Wrappers
  import opened Environments
  import opened Lists
  import Requests = OAuthAuthorizationStore
  import Pushing = PushedAuthorizationRequestStore
  import Consents = ConsentReceiptStore
  import Portal = DeveloperPortalStore
  import Refreshing = RefreshTokenStore
  import RefreshTokenRuns
  import Slugs

  /** What the flow reads of a service of the developer portal. */
  datatype Service = Service(
    active: bool, environments: set<Environment>, redirectUrls: seq<string>, scopesGranted: seq<string>,
    keys: seq<Portal.ApiKey>)

  function Fingerprints(s: Service): set<string> {
    set key | key in s.keys :: key.fingerprint
  }

  /** The key an access token was issued under. */
  datatype KeyRef = KeyRef(keyId: string, fingerprint: string)

  /** How far the decision handler of an approved request has come. */
  datatype Approval =
    | Approved(record: Requests.Authorization)
    | Consented(record: Requests.Authorization, consentId: string)

  /** The claims of a financial access token, and the refresh-token family it belongs to, if any. Clients that
      exchange tokens under a signed assertion have no key; no service has the literal in its place. */
  datatype AccessToken = AccessToken(
    serviceCode: string, environment: Environment, subjectId: string, scopes: seq<string>, consentId: string,
    exp: int, key: Option<KeyRef>, family: Option<Refreshing.Context>)

  /** What happened, for the statements below: the identity whose consent page was shown for a
      request, the request a code was issued for, the code a refresh-token family came from. */
  datatype History = History(
    shown: map<string, string>, issuedFor: map<string, string>, familyCode: map<string, string>)

  /** The stores, and what the handlers under way have in hand: callbacks that claimed a request,
      approvals, redeemed codes, rotations. */
  datatype Gateway = Gateway(
    services: map<string, Service>, rows: Requests.Rows, pushes: Pushing.Pushes,
    receipts: seq<Consents.Receipt>, refresh: Refreshing.Memory,
    callbacks: set<string>, approvals: map<string, Approval>, redeemed: map<string, Requests.Code>,
    rotations: map<string, Refreshing.Context>, tokens: map<string, AccessToken>, history: History)

  /** Up to the consent page: pushed requests, the authorize endpoint, the identity callback. Hashed
      random values stand for the values themselves; `now` is in milliseconds, `exp` in seconds. A client
      is looked up by the slug of the id it gives. */
  datatype AuthorizeOp =
    | Push(uriHash: string, service: string, environment: Environment, payload: Pushing.Payload, ttl: int, now: int)
    | UseUri(uriHash: string, clientId: string, now: int)
    | Create(clientId: string, request: Requests.Authorization, stateHash: string)
    | Claim(stateHash: string, placeholder: string, now: int)
    | Verify(id: string, subject: string, now: int)

  /** The decision route. */
  datatype DecisionOp =
    | Decide(id: string, tokenHash: string, approve: bool, now: int)
    | RecordConsent(id: string, freshId: string, evidence: string, expiresAt: int, now: int)
    | IssueCode(id: string, codeHash: string, ttl: int, now: int)

  /** The token endpoint; `key` is the active key the handler finds in the service's record. */
  datatype TokenOp =
    | Redeem(codeHash: string, clientId: string, redirectUri: string, verifier: string, now: int)
    | Grant(codeHash: string, requested: seq<string>, key: Option<Portal.ApiKey>, jti: string, exp: int,
            family: string, refreshHash: string, issuer: string, now: int)
    | Rotate(h: string, clientId: string, next: string, nextToken: string, now: int)
    | FinishRefresh(next: string, requested: seq<string>, key: Option<Portal.ApiKey>, jti: string, exp: int, now: int)
    | Exchange(requested: seq<string>, consentId: string, service: string, ref: Option<KeyRef>,
               environment: Environment, subject: string, jti: string, exp: int, now: int)

  /** Use of tokens, and what others do to the same stores. */
  datatype OtherOp =
    | Admit(jti: string, usable: bool, requestSubject: string, now: int)
    | OtherConsent(input: Consents.ReceiptInput, freshId: string, now: int)
    | RevokeConsent(id: string, now: int)
    | RefreshCall(call: RefreshTokenRuns.Op)
    | ChangeService(service: string, record: Service)

  datatype Op = Authorizing(a: AuthorizeOp) | Deciding(d: DecisionOp) | Tokens(t: TokenOp) | Other(o: OtherOp)

  datatype Verdict =
    | Admitted | AuthFailed | ServiceNotFound | ScopeNotGranted
    | ReceiptNotFound | ConsentRequired | ConsentScopeMismatch | SubjectMismatch

  /** What an access token was issued for. */
  datatype Source = ByCode | ByRefresh | ByExchange

  datatype Event =
    | Quiet | Refused
    | UriUsed(uriHash: string)
    | PageShown(id: string, subject: string)
    | Decided(id: string, approved: bool)
    | CodeIssued(id: string, codeHash: string)
    | CodeRedeemed(codeHash: string, code: Requests.Code)
    | Minted(token: AccessToken, source: Source)
    | Judged(token: AccessToken, verdict: Verdict)

  /** The consent is active and belongs to the service, the environment and the subject. */
  predicate Stands(consent: Consents.Receipt, service: string, environment: Environment, subject: string) {
    && consent.status == Consents.Active && consent.serviceCode == service && consent.environment == environment
    && (consent.subjectId == subject || consent.externalSubjectId == Some(subject))
  }

  // -------------------------------------------------------- authorize and decide

  /** `createOAuthAuthorizationRedirect` */
  function CreateStep(g: Gateway, clientId: string, r: Requests.Authorization, stateHash: string): (Gateway, Event) {
    var code := Slugs.Slug(clientId);
    if code !in g.services then (g, Refused)
    else
      var service, scopes := g.services[code], Unique(r.requestedScopes);
      if !service.active || r.environment !in service.environments || r.redirectUri !in service.redirectUrls
         || scopes == [] || !Within(scopes, service.scopesGranted)
      then (g, Refused)
      else (g.(rows := g.rows.Create(r.(serviceCode := code, requestedScopes := scopes), stateHash)), Quiet)
  }

  /** The identity callback claims the request with a placeholder subject. */
  function ClaimStep(g: Gateway, stateHash: string, placeholder: string, now: int): (Gateway, Event) {
    var (rows, r) := g.rows.CompleteIdentity(stateHash, placeholder, now);
    if r.Failed? then (g, Refused)
    else (g.(rows := rows, callbacks := g.callbacks + {g.rows.byState[stateHash]}), Quiet)
  }

  /** The callback that claimed the request stores the verified subject and shows the consent page, which
      needs the service that the request's code finds. */
  function VerifyStep(g: Gateway, id: string, subject: string, now: int): (Gateway, Event) {
    if id !in g.callbacks then (g, Refused)
    else
      var (rows, r) := g.rows.ReplacePendingSubject(id, subject, now);
      var g' := g.(rows := rows, callbacks := g.callbacks - {id});
      if r.Failed? || Slugs.Slug(r.value.serviceCode) !in g.services then (g', Refused)
      else (g'.(history := g.history.(shown := g.history.shown[id := subject])), PageShown(id, subject))
  }

  function DecideStep(g: Gateway, id: string, tokenHash: string, approve: bool, now: int): (Gateway, Event) {
    var (rows, r) := g.rows.Decide(id, tokenHash, approve, now);
    if r.Failed? then (g, Refused)
    else if approve then (g.(rows := rows, approvals := g.approvals[id := Approved(r.value)]), Decided(id, true))
    else (g.(rows := rows), Decided(id, false))
  }

  function ConsentInput(r: Requests.Authorization, evidence: string, expiresAt: int): Consents.ReceiptInput {
    Consents.ReceiptInput(r.serviceCode, r.environment, r.subjectId, None, r.requestedScopes, evidence, expiresAt)
  }

  function RecordConsentStep(
    g: Gateway, id: string, freshId: string, evidence: string, expiresAt: int, now: int): (Gateway, Event)
  {
    if id !in g.approvals || !g.approvals[id].Approved? then (g, Refused)
    else
      var record := g.approvals[id].record;
      var (receipts, receipt) := Consents.Create(g.receipts, ConsentInput(record, evidence, expiresAt), freshId, now);
      (g.(receipts := receipts, approvals := g.approvals[id := Consented(record, receipt.consentId)]), Quiet)
  }

  function IssueCodeStep(g: Gateway, id: string, codeHash: string, ttl: int, now: int): (Gateway, Event) {
    if id !in g.approvals || !g.approvals[id].Consented? then (g, Refused)
    else
      var (rows, r) := g.rows.IssueCode(g.approvals[id].record, g.approvals[id].consentId, codeHash, ttl, now);
      var g' := g.(approvals := g.approvals - {id});
      if r.Failed? then (g', Refused)
      else
        (g'.(rows := rows, history := g.history.(issuedFor := g.history.issuedFor[codeHash := id])),
         CodeIssued(id, codeHash))
  }

  // --------------------------------------------------------------- token endpoint

  function RedeemStep(
    g: Gateway, codeHash: string, clientId: string, redirectUri: string, challenge: string, now: int): (Gateway, Event)
  {
    var service := Slugs.Slug(clientId);
    if service !in g.services || !g.services[service].active then (g, Refused)
    else
      var (rows, r) := g.rows.ConsumeCode(codeHash, service, redirectUri, challenge, now);
      if r.Failed? then (g, Refused)
      else (g.(rows := rows, redeemed := g.redeemed[codeHash := r.value]), CodeRedeemed(codeHash, r.value))
  }

  /** The requested scopes, or the ones held if none is requested. */
  function Narrowed(requested: seq<string>, held: seq<string>): seq<string> {
    if Unique(requested) != [] then Unique(requested) else held
  }

  function RefOf(key: Portal.ApiKey): KeyRef {
    KeyRef(key.keyId, key.fingerprint)
  }

  function GrantStep(g: Gateway, op: TokenOp, life: Refreshing.Lifetimes): (Gateway, Event)
    requires op.Grant?
  {
    if op.codeHash !in g.redeemed then (g, Refused)
    else
      var code := g.redeemed[op.codeHash];
      var scopes := Narrowed(op.requested, code.scopes);
      var g' := g.(redeemed := g.redeemed - {op.codeHash});
      if op.key.None? || !Within(scopes, code.scopes) then (g', Refused)
      else
        var context := Refreshing.Context(
          op.family, code.serviceCode, code.environment, code.subjectId, code.consentId, scopes, op.issuer);
        var token := AccessToken(code.serviceCode, code.environment, code.subjectId, Unique(scopes),
                                 code.consentId, op.exp, Some(RefOf(op.key.value)), Some(context));
        (g'.(tokens := g.tokens[op.jti := token], refresh := g.refresh.Issue(context, op.refreshHash, op.now, life),
             history := g.history.(familyCode := g.history.familyCode[op.family := op.codeHash])),
         Minted(token, ByCode))
  }

  function RotateStep(g: Gateway, op: TokenOp): (Gateway, Event)
    requires op.Rotate?
  {
    var service := Slugs.Slug(op.clientId);
    if service !in g.services || !g.services[service].active then (g, Refused)
    else
      var (refresh, r) := g.refresh.Rotate(op.h, service, op.next, op.nextToken, op.now);
      if r.Rotated? then (g.(refresh := refresh, rotations := g.rotations[op.next := r.context]), Quiet)
      else (g.(refresh := refresh), Refused)
  }

  function FinishRefreshStep(g: Gateway, op: TokenOp): (Gateway, Event)
    requires op.FinishRefresh?
  {
    if op.next !in g.rotations then (g, Refused)
    else
      var context, g' := g.rotations[op.next], g.(rotations := g.rotations - {op.next});
      var consent := Consents.Get(g.receipts, context.consentId, op.now);
      if consent.Err? || context.serviceCode !in g.services
         || context.environment !in g.services[context.serviceCode].environments
         || !Stands(consent.value, context.serviceCode, context.environment, context.subjectId)
      then (g', Refused)
      else
        var scopes := Narrowed(op.requested, context.scopes);
        if !Within(scopes, context.scopes) || !Within(scopes, consent.value.scopes) || op.key.None? then (g', Refused)
        else
          var token := AccessToken(context.serviceCode, context.environment, context.subjectId, Unique(scopes),
                                   context.consentId, op.exp, Some(RefOf(op.key.value)), Some(context));
          (g'.(tokens := g.tokens[op.jti := token]), Minted(token, ByRefresh))
  }

  /** `FinancialTokenExchangeService.exchange`, once the identity token is verified. */
  function ExchangeStep(g: Gateway, op: TokenOp): (Gateway, Event)
    requires op.Exchange?
  {
    var scopes, consent := Unique(op.requested), Consents.Get(g.receipts, op.consentId, op.now);
    if op.service !in g.services || !g.services[op.service].active || scopes == []
       || !Within(scopes, g.services[op.service].scopesGranted) || consent.Err?
       || !Stands(consent.value, op.service, op.environment, op.subject) || !Within(scopes, consent.value.scopes)
    then (g, Refused)
    else
      var token := AccessToken(op.service, op.environment, op.subject, scopes, op.consentId, op.exp, op.ref, None);
      (g.(tokens := g.tokens[op.jti := token]), Minted(token, ByExchange))
  }

  // ------------------------------------------------------------------------ use

  /** The key is the one the token was issued under, and may still be used. */
  predicate Opens(key: Portal.ApiKey, token: AccessToken, now: int) {
    && token.key == Some(RefOf(key)) && key.environment == token.environment
    && Portal.Usable(key, key.fingerprint, now)
  }

  /** `authenticatePayServiceCredential` and `requirePayServiceAccess` for a financial access token.
      `usable` holds if its signature and the DPoP proof pass, and its id is not revoked. */
  function Admission(g: Gateway, token: AccessToken, usable: bool, requestSubject: string, now: int): Verdict {
    var code := Slugs.Slug(token.serviceCode);
    if !usable || token.exp <= now / 1000 then AuthFailed
    else if code !in g.services then ServiceNotFound
    else if !g.services[code].active || !exists key :: key in g.services[code].keys && Opens(key, token, now)
    then AuthFailed
    else if token.scopes == [] || !Within(token.scopes, g.services[code].scopesGranted) then ScopeNotGranted
    else
      var consent := Consents.Get(g.receipts, token.consentId, now);
      if consent.Err? then ReceiptNotFound
      else if !Stands(consent.value, code, token.environment, token.subjectId) then ConsentRequired
      else if !Within(token.scopes, consent.value.scopes) then ConsentScopeMismatch
      else if requestSubject != "" && requestSubject != token.subjectId then SubjectMismatch
      else Admitted
  }

  // ----------------------------------------------------------------------- runs

  function AuthorizeStep(g: Gateway, op: AuthorizeOp): (Gateway, Event) {
    match op
    case Push(uri, service, environment, payload, ttl, now) =>
      (g.(pushes := Pushing.Create(g.pushes, uri, service, environment, payload, ttl, now)), Quiet)
    case UseUri(uri, clientId, now) =>
      if Slugs.Slug(clientId) !in g.services then (g, Refused)
      else
        var (pushes, r) := Pushing.Consume(g.pushes, uri, Slugs.Slug(clientId), now);
        (g.(pushes := pushes), if r.Some? then UriUsed(uri) else Refused)
    case Create(clientId, request, stateHash) => CreateStep(g, clientId, request, stateHash)
    case Claim(stateHash, placeholder, now) => ClaimStep(g, stateHash, placeholder, now)
    case Verify(id, subject, now) => VerifyStep(g, id, subject, now)
  }

  function DecisionStep(g: Gateway, op: DecisionOp): (Gateway, Event) {
    match op
    case Decide(id, tokenHash, approve, now) => DecideStep(g, id, tokenHash, approve, now)
    case RecordConsent(id, freshId, evidence, expiresAt, now) =>
      RecordConsentStep(g, id, freshId, evidence, expiresAt, now)
    case IssueCode(id, codeHash, ttl, now) => IssueCodeStep(g, id, codeHash, ttl, now)
  }

  /** `s256` is the challenge of a verifier. */
  function TokenStep(g: Gateway, op: TokenOp, s256: string -> string, life: Refreshing.Lifetimes): (Gateway, Event) {
    match op
    case Redeem(codeHash, clientId, redirectUri, verifier, now) =>
      RedeemStep(g, codeHash, clientId, redirectUri, s256(verifier), now)
    case Grant(_, _, _, _, _, _, _, _, _) => GrantStep(g, op, life)
    case Rotate(_, _, _, _, _) => RotateStep(g, op)
    case FinishRefresh(_, _, _, _, _, _) => FinishRefreshStep(g, op)
    case Exchange(_, _, _, _, _, _, _, _, _) => ExchangeStep(g, op)
  }

  function OtherStep(g: Gateway, op: OtherOp, life: Refreshing.Lifetimes): (Gateway, Event) {
    match op
    case Admit(jti, usable, requestSubject, now) =>
      if jti !in g.tokens then (g, Refused)
      else (g, Judged(g.tokens[jti], Admission(g, g.tokens[jti], usable, requestSubject, now)))
    case OtherConsent(input, freshId, now) =>
      (g.(receipts := Consents.Create(g.receipts, input, freshId, now).0), Quiet)
    case RevokeConsent(id, now) => (g.(receipts := Consents.Revoke(g.receipts, id, now).0), Quiet)
    case RefreshCall(call) => (g.(refresh := RefreshTokenRuns.MemoryStep(g.refresh, call, life).0), Quiet)
    case ChangeService(service, record) => (g.(services := g.services[service := record]), Quiet)
  }

  function Step(g: Gateway, op: Op, s256: string -> string, life: Refreshing.Lifetimes): (Gateway, Event) {
    match op
    case Authorizing(a) => AuthorizeStep(g, a)
    case Deciding(d) => DecisionStep(g, d)
    case Tokens(t) => TokenStep(g, t, s256, life)
    case Other(o) => OtherStep(g, o, life)
  }

  // What may happen next: random values and ids are new, the evidence of an approval is new, an approval
  // token is used only after its page was shown, granted scopes and keys of a service only grow, and no two
  // services have a key with the same fingerprint.

  predicate PossibleAuthorize(g: Gateway, op: AuthorizeOp) {
    match op
    case Push(uri, _, _, _, _, _) => uri !in g.pushes
    case Create(_, request, stateHash) => request.requestId !in g.rows.requests && stateHash !in g.rows.byState
    case _ => true
  }

  predicate PossibleDecision(g: Gateway, op: DecisionOp) {
    match op
    case Decide(id, tokenHash, _, _) =>
      id in g.rows.requests && g.rows.requests[id].approvalTokenHash == tokenHash ==> id in g.history.shown
    case RecordConsent(id, freshId, evidence, _, _) =>
      && Consents.IndexOf(g.receipts, freshId) == |g.receipts|
      && (id in g.approvals ==>
            var code := Slugs.Normalize(g.approvals[id].record.serviceCode);
            Consents.IndexOfEvidence(g.receipts, code, evidence) == |g.receipts|)
    case IssueCode(_, codeHash, _, _) => codeHash !in g.rows.codes
  }

  /** The key was read from the service's record, which may have changed since. */
  predicate ActiveKeyOf(g: Gateway, service: string, environment: Environment, key: Portal.ApiKey) {
    && key.environment == environment && key.status == Portal.KeyActive
    && service in g.services && key.fingerprint in Fingerprints(g.services[service])
  }

  predicate PossibleToken(g: Gateway, op: TokenOp) {
    match op
    case Redeem(_, _, _, _, _) => true
    case Grant(codeHash, _, key, jti, _, family, refreshHash, _, _) =>
      && jti !in g.tokens && family !in g.history.familyCode && refreshHash !in g.refresh.tokens
      && (codeHash in g.redeemed && key.Some? ==>
            ActiveKeyOf(g, g.redeemed[codeHash].serviceCode, g.redeemed[codeHash].environment, key.value))
    case Rotate(_, _, next, _, _) => next !in g.refresh.tokens && next !in g.rotations
    case FinishRefresh(next, _, key, jti, _, _) =>
      && jti !in g.tokens
      && (next in g.rotations && key.Some? ==>
            ActiveKeyOf(g, g.rotations[next].serviceCode, g.rotations[next].environment, key.value))
    case Exchange(_, _, service, ref, _, _, jti, _, _) =>
      jti !in g.tokens && (ref.Some? && service in g.services ==>
        ref.value.fingerprint in Fingerprints(g.services[service]))
  }

  predicate ServiceLater(s: Service, s': Service) {
    Within(s.scopesGranted, s'.scopesGranted) && Fingerprints(s) <= Fingerprints(s')
  }

  predicate PossibleOther(g: Gateway, op: OtherOp) {
    match op
    case OtherConsent(_, freshId, _) => Consents.IndexOf(g.receipts, freshId) == |g.receipts|
    case RefreshCall(call) => !call.Issue? && !call.Rotate?
    case ChangeService(service, record) =>
      && (service in g.services ==> ServiceLater(g.services[service], record))
      && forall other <- g.services :: other != service ==> Fingerprints(g.services[other]) !! Fingerprints(record)
    case _ => true
  }

  predicate Possible(g: Gateway, op: Op) {
    match op
    case Authorizing(a) => PossibleAuthorize(g, a)
    case Deciding(d) => PossibleDecision(g, d)
    case Tokens(t) => PossibleToken(g, t)
    case Other(o) => PossibleOther(g, o)
  }

  ghost predicate PossibleRun(g: Gateway, ops: seq<Op>, s256: string -> string, life: Refreshing.Lifetimes)
    decreases ops
  {
    ops == [] || (Possible(g, ops[0]) && PossibleRun(Step(g, ops[0], s256, life).0, ops[1..], s256, life))
  }

  function Run(g: Gateway, ops: seq<Op>, s256: string -> string, life: Refreshing.Lifetimes): (Gateway, seq<Event>)
    decreases ops
  {
    if ops == [] then (g, [])
    else
      var (g1, event) := Step(g, ops[0], s256, life);
      var (g2, events) := Run(g1, ops[1..], s256, life);
      (g2, [event] + events)
  }

  /** Nothing stored, nothing under way. */
  function Initial(services: map<string, Service>): Gateway {
    Gateway(
      services, Requests.Rows(map[], map[], map[]), map[], [], Refreshing.Memory(map[], map[], {}),
      {}, map[], map[], map[], map[], History(map[], map[], map[]))
  }
}
