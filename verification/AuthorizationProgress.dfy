/** How the stores of the authorization flow may change from one step to the next: rows keep what
    they were created with, settled requests and spent codes stay as they are, receipts and
    histories only grow. */
module AuthorizationProgress {
  import opened AuthorizationFlow
  import ConsentLaws
  import Requests = OAuthAuthorizationStore
  import Pushing = PushedAuthorizationRequestStore
  import Refreshing = RefreshTokenStore

  type RequestTable = map<string, Requests.Authorization>
  type CodeTable = map<string, Requests.Code>

  predicate IsSettled(r: Requests.Authorization) {
    r.status == Requests.Approved || r.status == Requests.Denied
  }

  /** Only the subject and the status change, and not after the decision. */
  predicate RequestLater(r: Requests.Authorization, r': Requests.Authorization) {
    && r' == r.(status := r'.status, subjectId := r'.subjectId)
    && (IsSettled(r) ==> r' == r)
  }

  ghost predicate RequestsLater(requests: RequestTable, requests': RequestTable) {
    forall id <- requests :: id in requests' && RequestLater(requests[id], requests'[id])
  }

  /** A code is only ever marked as consumed. */
  predicate CodeLater(c: Requests.Code, c': Requests.Code) {
    c' == c || c' == c.(consumed := true)
  }

  ghost predicate CodesLater(codes: CodeTable, codes': CodeTable) {
    forall h <- codes :: h in codes' && CodeLater(codes[h], codes'[h])
  }

  ghost predicate PushesLater(pushes: Pushing.Pushes, pushes': Pushing.Pushes) {
    forall u <- pushes :: u in pushes' && (pushes'[u] == pushes[u] || pushes'[u] == pushes[u].(consumed := true))
  }

  // ------------------------------------------------------------ one store call

  lemma PutRequest(requests: RequestTable, id: string, r: Requests.Authorization)
    requires id in requests ==> RequestLater(requests[id], r)
    ensures RequestsLater(requests, requests[id := r])
  {
    forall k | k in requests ensures k in requests[id := r] && RequestLater(requests[k], requests[id := r][k]) {
      if k != id { assert RequestLater(requests[k], requests[k]); }
    }
  }

  lemma SameRequests(requests: RequestTable)
    ensures RequestsLater(requests, requests)
  {
    forall k | k in requests ensures RequestLater(requests[k], requests[k]) { }
  }

  lemma CreateProgress(g: Gateway, clientId: string, r: Requests.Authorization, stateHash: string)
    requires r.requestId !in g.rows.requests
    ensures RequestsLater(g.rows.requests, CreateStep(g, clientId, r, stateHash).0.rows.requests)
  {
    SameRequests(g.rows.requests);
    var requests' := CreateStep(g, clientId, r, stateHash).0.rows.requests;
    if requests' != g.rows.requests { PutRequest(g.rows.requests, r.requestId, requests'[r.requestId]); }
  }

  lemma ClaimProgress(g: Gateway, stateHash: string, placeholder: string, now: int)
    ensures RequestsLater(g.rows.requests, ClaimStep(g, stateHash, placeholder, now).0.rows.requests)
  {
    SameRequests(g.rows.requests);
    var r := g.rows.CompleteIdentity(stateHash, placeholder, now).1;
    if r.Done? { PutRequest(g.rows.requests, g.rows.byState[stateHash], r.value); }
  }

  lemma VerifyProgress(g: Gateway, id: string, subject: string, now: int)
    ensures RequestsLater(g.rows.requests, VerifyStep(g, id, subject, now).0.rows.requests)
  {
    SameRequests(g.rows.requests);
    var r := g.rows.ReplacePendingSubject(id, subject, now).1;
    if r.Done? { PutRequest(g.rows.requests, id, r.value); }
  }

  lemma DecideProgress(g: Gateway, id: string, tokenHash: string, approve: bool, now: int)
    ensures RequestsLater(g.rows.requests, DecideStep(g, id, tokenHash, approve, now).0.rows.requests)
  {
    SameRequests(g.rows.requests);
    var r := g.rows.Decide(id, tokenHash, approve, now).1;
    if r.Done? { PutRequest(g.rows.requests, id, r.value); }
  }

  lemma ChangedCode(codes: CodeTable, h: string, c: Requests.Code)
    requires h in codes ==> CodeLater(codes[h], c)
    ensures CodesLater(codes, codes[h := c])
  {
  }

  lemma SameCodes(codes: CodeTable)
    ensures CodesLater(codes, codes)
  {
  }

  // ------------------------------------------------------------------ one step

  /** The parts that only the steps up to the consent page and the decision route change. */
  predicate SameFront(g: Gateway, g': Gateway) {
    && g'.pushes == g.pushes && g'.rows.requests == g.rows.requests && g'.rows.byState == g.rows.byState
    && g'.callbacks == g.callbacks && g'.approvals == g.approvals
    && g'.history.shown == g.history.shown && g'.history.issuedFor == g.history.issuedFor
  }

  /** The parts that only the token endpoint changes. */
  predicate SameBack(g: Gateway, g': Gateway) {
    && g'.redeemed == g.redeemed && g'.rotations == g.rotations && g'.tokens == g.tokens
    && g'.history.familyCode == g.history.familyCode
  }

  lemma AuthorizeFrame(g: Gateway, op: AuthorizeOp)
    ensures var g' := AuthorizeStep(g, op).0;
      && SameBack(g, g') && g'.refresh == g.refresh && g'.receipts == g.receipts && g'.services == g.services
      && g'.rows.codes == g.rows.codes && g'.approvals == g.approvals && g'.history.issuedFor == g.history.issuedFor
  {
    match op
    case Create(clientId, request, stateHash) => CreateFrame(g, clientId, request, stateHash);
    case Claim(stateHash, placeholder, now) => ClaimFrame(g, stateHash, placeholder, now);
    case Verify(id, subject, now) => VerifyFrame(g, id, subject, now);
    case _ =>
  }

  lemma CreateFrame(g: Gateway, clientId: string, r: Requests.Authorization, stateHash: string)
    ensures var g' := CreateStep(g, clientId, r, stateHash).0;
      g' == g.(rows := g'.rows) && g'.rows.codes == g.rows.codes
  {
  }

  lemma ClaimFrame(g: Gateway, stateHash: string, placeholder: string, now: int)
    ensures var g' := ClaimStep(g, stateHash, placeholder, now).0;
      g' == g.(rows := g'.rows, callbacks := g'.callbacks) && g'.rows.codes == g.rows.codes
          && g'.rows.requests.Keys == g.rows.requests.Keys
  {
  }

  lemma VerifyFrame(g: Gateway, id: string, subject: string, now: int)
    ensures var g' := VerifyStep(g, id, subject, now).0;
      g' == g.(rows := g'.rows, callbacks := g'.callbacks, history := g.history.(shown := g'.history.shown))
      && g'.rows.codes == g.rows.codes && g'.rows.requests.Keys == g.rows.requests.Keys
  {
    var (rows, r) := g.rows.ReplacePendingSubject(id, subject, now);
    assert rows.codes == g.rows.codes && rows.requests.Keys == g.rows.requests.Keys;
  }

  lemma DecisionFrame(g: Gateway, op: DecisionOp)
    ensures var g' := DecisionStep(g, op).0;
      && SameBack(g, g') && g'.refresh == g.refresh && g'.services == g.services && g'.pushes == g.pushes
      && g'.callbacks == g.callbacks && g'.history.shown == g.history.shown
  {
    match op
    case Decide(id, tokenHash, approve, now) => DecideFrame(g, id, tokenHash, approve, now);
    case RecordConsent(id, freshId, evidence, expiresAt, now) =>
      RecordConsentFrame(g, id, freshId, evidence, expiresAt, now);
    case IssueCode(id, codeHash, ttl, now) => IssueCodeFrame(g, id, codeHash, ttl, now);
  }

  lemma DecideFrame(g: Gateway, id: string, tokenHash: string, approve: bool, now: int)
    ensures var g' := DecideStep(g, id, tokenHash, approve, now).0;
      g' == g.(rows := g'.rows, approvals := g'.approvals) && g'.rows.codes == g.rows.codes
          && g'.rows.requests.Keys == g.rows.requests.Keys
  {
  }

  lemma RecordConsentFrame(g: Gateway, id: string, freshId: string, evidence: string, expiresAt: int, now: int)
    ensures var g' := RecordConsentStep(g, id, freshId, evidence, expiresAt, now).0;
      g' == g.(receipts := g'.receipts, approvals := g'.approvals)
  {
  }

  lemma IssueCodeFrame(g: Gateway, id: string, codeHash: string, ttl: int, now: int)
    ensures var g' := IssueCodeStep(g, id, codeHash, ttl, now).0;
      g' == g.(rows := g'.rows, approvals := g'.approvals, history := g.history.(issuedFor := g'.history.issuedFor))
  {
  }

  lemma TokenFrame(g: Gateway, op: TokenOp, s256: string -> string, life: Refreshing.Lifetimes)
    ensures var g' := TokenStep(g, op, s256, life).0;
      SameFront(g, g') && g'.receipts == g.receipts && g'.services == g.services
  {
    match op
    case Redeem(codeHash, clientId, redirectUri, verifier, now) =>
      RedeemFrame(g, codeHash, clientId, redirectUri, s256(verifier), now);
    case Grant(_, _, _, _, _, _, _, _, _) => GrantFrame(g, op, life);
    case Rotate(_, _, _, _, _) => RotateFrame(g, op);
    case FinishRefresh(_, _, _, _, _, _) => FinishRefreshFrame(g, op);
    case Exchange(_, _, _, _, _, _, _, _, _) => ExchangeFrame(g, op);
  }

  lemma RedeemFrame(g: Gateway, codeHash: string, clientId: string, redirectUri: string, challenge: string, now: int)
    ensures var g' := RedeemStep(g, codeHash, clientId, redirectUri, challenge, now).0;
      g' == g.(rows := g.rows.(codes := g'.rows.codes), redeemed := g'.redeemed)
  {
  }

  lemma GrantFrame(g: Gateway, op: TokenOp, life: Refreshing.Lifetimes)
    requires op.Grant?
    ensures var g' := GrantStep(g, op, life).0;
      g' == g.(redeemed := g'.redeemed, tokens := g'.tokens, refresh := g'.refresh,
          history := g.history.(familyCode := g'.history.familyCode))
  {
  }

  lemma RotateFrame(g: Gateway, op: TokenOp)
    requires op.Rotate?
    ensures var g' := RotateStep(g, op).0; g' == g.(refresh := g'.refresh, rotations := g'.rotations)
  {
  }

  lemma FinishRefreshFrame(g: Gateway, op: TokenOp)
    requires op.FinishRefresh?
    ensures var g' := FinishRefreshStep(g, op).0; g' == g.(rotations := g'.rotations, tokens := g'.tokens)
  {
  }

  lemma ExchangeFrame(g: Gateway, op: TokenOp)
    requires op.Exchange?
    ensures var g' := ExchangeStep(g, op).0; g' == g.(tokens := g'.tokens)
  {
  }

  lemma OtherFrame(g: Gateway, op: OtherOp, life: Refreshing.Lifetimes)
    ensures var g' := OtherStep(g, op, life).0; SameFront(g, g') && SameBack(g, g') && g'.rows == g.rows
  {
  }

  lemma RequestsProgress(g: Gateway, op: Op, s256: string -> string, life: Refreshing.Lifetimes)
    requires Possible(g, op)
    ensures RequestsLater(g.rows.requests, Step(g, op, s256, life).0.rows.requests)
  {
    SameRequests(g.rows.requests);
    match op
    case Authorizing(a) => AuthorizeRequestsProgress(g, a);
    case Deciding(d) => DecisionRequestsProgress(g, d);
    case Tokens(t) => TokenFrame(g, t, s256, life);
    case Other(o) => OtherFrame(g, o, life);
  }

  lemma AuthorizeRequestsProgress(g: Gateway, op: AuthorizeOp)
    requires PossibleAuthorize(g, op)
    ensures RequestsLater(g.rows.requests, AuthorizeStep(g, op).0.rows.requests)
  {
    SameRequests(g.rows.requests);
    match op
    case Create(clientId, request, stateHash) => CreateProgress(g, clientId, request, stateHash);
    case Claim(stateHash, placeholder, now) => ClaimProgress(g, stateHash, placeholder, now);
    case Verify(id, subject, now) => VerifyProgress(g, id, subject, now);
    case _ =>
  }

  lemma DecisionRequestsProgress(g: Gateway, op: DecisionOp)
    ensures RequestsLater(g.rows.requests, DecisionStep(g, op).0.rows.requests)
  {
    SameRequests(g.rows.requests);
    if op.Decide? { DecideProgress(g, op.id, op.tokenHash, op.approve, op.now); }
  }

  lemma CodesProgress(g: Gateway, op: Op, s256: string -> string, life: Refreshing.Lifetimes)
    requires Possible(g, op)
    ensures CodesLater(g.rows.codes, Step(g, op, s256, life).0.rows.codes)
  {
    match op
    case Authorizing(a) => AuthorizeFrame(g, a);
    case Deciding(d) => DecisionCodesProgress(g, d);
    case Tokens(t) => TokenCodesProgress(g, t, s256, life);
    case Other(o) => OtherFrame(g, o, life);
  }

  lemma IssueCodeProgress(g: Gateway, id: string, codeHash: string, ttl: int, now: int)
    requires codeHash !in g.rows.codes
    ensures CodesLater(g.rows.codes, IssueCodeStep(g, id, codeHash, ttl, now).0.rows.codes)
  {
    SameCodes(g.rows.codes);
  }

  lemma DecisionCodesProgress(g: Gateway, op: DecisionOp)
    requires PossibleDecision(g, op)
    ensures CodesLater(g.rows.codes, DecisionStep(g, op).0.rows.codes)
  {
    SameCodes(g.rows.codes);
    match op
    case Decide(id, tokenHash, approve, now) => DecideFrame(g, id, tokenHash, approve, now);
    case RecordConsent(id, freshId, evidence, expiresAt, now) =>
      RecordConsentFrame(g, id, freshId, evidence, expiresAt, now);
    case IssueCode(id, codeHash, ttl, now) => IssueCodeProgress(g, id, codeHash, ttl, now);
  }

  lemma TokenCodesProgress(g: Gateway, op: TokenOp, s256: string -> string, life: Refreshing.Lifetimes)
    ensures CodesLater(g.rows.codes, TokenStep(g, op, s256, life).0.rows.codes)
  {
  }

  lemma PushesProgress(g: Gateway, op: Op, s256: string -> string, life: Refreshing.Lifetimes)
    requires Possible(g, op)
    ensures PushesLater(g.pushes, Step(g, op, s256, life).0.pushes)
  {
    match op
    case Authorizing(a) => AuthorizePushesProgress(g, a);
    case Deciding(d) => DecisionFrame(g, d);
    case Tokens(t) => TokenFrame(g, t, s256, life);
    case Other(o) => OtherFrame(g, o, life);
  }

  lemma AuthorizePushesProgress(g: Gateway, op: AuthorizeOp)
    requires PossibleAuthorize(g, op)
    ensures PushesLater(g.pushes, AuthorizeStep(g, op).0.pushes)
  {
  }

  lemma ReceiptsProgress(g: Gateway, op: Op, s256: string -> string, life: Refreshing.Lifetimes)
    ensures ConsentLaws.Grown(g.receipts, Step(g, op, s256, life).0.receipts)
  {
    ConsentLaws.RunGrows(g.receipts, []);
    match op
    case Authorizing(a) => AuthorizeFrame(g, a);
    case Deciding(d) => DecisionReceiptsProgress(g, d);
    case Tokens(t) => TokenFrame(g, t, s256, life);
    case Other(o) => OtherReceiptsProgress(g, o, life);
  }

  lemma RecordConsentProgress(g: Gateway, id: string, freshId: string, evidence: string, expiresAt: int, now: int)
    ensures ConsentLaws.Grown(g.receipts, RecordConsentStep(g, id, freshId, evidence, expiresAt, now).0.receipts)
  {
    ConsentLaws.RunGrows(g.receipts, []);
    if id in g.approvals {
      ConsentLaws.StepGrows(
        g.receipts, ConsentLaws.Creating(ConsentInput(g.approvals[id].record, evidence, expiresAt), freshId, now));
    }
  }

  lemma DecisionReceiptsProgress(g: Gateway, op: DecisionOp)
    ensures ConsentLaws.Grown(g.receipts, DecisionStep(g, op).0.receipts)
  {
    ConsentLaws.RunGrows(g.receipts, []);
    match op
    case Decide(id, tokenHash, approve, now) => DecideFrame(g, id, tokenHash, approve, now);
    case RecordConsent(id, freshId, evidence, expiresAt, now) =>
      RecordConsentProgress(g, id, freshId, evidence, expiresAt, now);
    case IssueCode(id, codeHash, ttl, now) => IssueCodeFrame(g, id, codeHash, ttl, now);
  }

  lemma OtherReceiptsProgress(g: Gateway, op: OtherOp, life: Refreshing.Lifetimes)
    ensures ConsentLaws.Grown(g.receipts, OtherStep(g, op, life).0.receipts)
  {
    ConsentLaws.RunGrows(g.receipts, []);
    match op
    case OtherConsent(input, freshId, now) =>
      ConsentLaws.StepGrows(g.receipts, ConsentLaws.Creating(input, freshId, now));
    case RevokeConsent(id, now) => ConsentLaws.StepGrows(g.receipts, ConsentLaws.Revoking(id, now));
    case _ =>
  }
}
