/** Whether the authorization flow gets through: the steps of an allowed request end in a token that is
    admitted if and only if slugging leaves the service's code alone. */
module AuthorizationPath {
  import opened Wrappers
  import opened Lists
  import opened AuthorizationFlow
  import opened AuthorizationOrigin
  import opened ScopeAttenuation
  import AuthorizationProgress
  import Slugs
  import Portal = DeveloperPortalStore
  import Requests = OAuthAuthorizationStore
  import Consents = ConsentReceiptStore
  import Refreshing = RefreshTokenStore

  // ------------------------------------------------------------ up to the decision

  /** The portal allows the request to the service that the client's id finds. */
  predicate Allowed(g: Gateway, clientId: string, r: Requests.Authorization) {
    var code := Slugs.Slug(clientId);
    && code in g.services && g.services[code].active && r.environment in g.services[code].environments
    && r.redirectUri in g.services[code].redirectUrls
    && Unique(r.requestedScopes) != [] && Within(Unique(r.requestedScopes), g.services[code].scopesGranted)
  }

  /** The row of a request that was just created. */
  function Created(clientId: string, r: Requests.Authorization): Requests.Authorization {
    r.(serviceCode := Slugs.Slug(clientId), requestedScopes := Unique(r.requestedScopes),
       status := Requests.PendingIdentity, subjectId := "")
  }

  lemma {:induction false} CreateWorks(
    g: Gateway, clientId: string, r: Requests.Authorization, stateHash: string, s256: string -> string,
    life: Refreshing.Lifetimes) returns (g': Gateway)
    requires Allowed(g, clientId, r)
    ensures Step(g, Authorizing(Create(clientId, r, stateHash)), s256, life) == (g', Quiet)
    ensures g' == g.(rows := g'.rows) && g'.rows.codes == g.rows.codes
    ensures stateHash in g'.rows.byState && g'.rows.byState[stateHash] == r.requestId
    ensures r.requestId in g'.rows.requests && g'.rows.requests[r.requestId] == Created(clientId, r)
  {
    g' := CreateStep(g, clientId, r, stateHash).0;
  }

  lemma {:induction false} ClaimWorks(
    g: Gateway, stateHash: string, id: string, placeholder: string, now: int, s256: string -> string,
    life: Refreshing.Lifetimes) returns (g': Gateway)
    requires stateHash in g.rows.byState && g.rows.byState[stateHash] == id
    requires g.rows.Waiting(id, Requests.PendingIdentity, now)
    ensures Step(g, Authorizing(Claim(stateHash, placeholder, now)), s256, life) == (g', Quiet)
    ensures g' == g.(rows := g'.rows, callbacks := g.callbacks + {id}) && g'.rows.codes == g.rows.codes
    ensures id in g'.rows.requests
    ensures g'.rows.requests[id] == g.rows.requests[id].(subjectId := placeholder, status := Requests.PendingConsent)
  {
    g' := ClaimStep(g, stateHash, placeholder, now).0;
  }

  /** The callback stores the subject; it shows the page if the request's code finds a service. */
  lemma {:induction false} VerifyWorks(
    g: Gateway, id: string, subject: string, now: int, s256: string -> string, life: Refreshing.Lifetimes)
    returns (g': Gateway)
    requires id in g.callbacks && g.rows.Waiting(id, Requests.PendingConsent, now)
    ensures
      var shown := Slugs.Slug(g.rows.requests[id].serviceCode) in g.services;
      && Step(g, Authorizing(Verify(id, subject, now)), s256, life) ==
           (g', if shown then PageShown(id, subject) else Refused)
      && g' == g.(rows := g'.rows, callbacks := g.callbacks - {id},
                  history := if shown then g.history.(shown := g.history.shown[id := subject]) else g.history)
    ensures g'.rows.codes == g.rows.codes
    ensures id in g'.rows.requests && g'.rows.requests[id] == g.rows.requests[id].(subjectId := subject)
  {
    g' := VerifyStep(g, id, subject, now).0;
  }

  lemma {:induction false} DecideWorks(
    g: Gateway, id: string, tokenHash: string, now: int, s256: string -> string, life: Refreshing.Lifetimes)
    returns (g': Gateway)
    requires g.rows.Waiting(id, Requests.PendingConsent, now) && g.rows.requests[id].approvalTokenHash == tokenHash
    ensures Step(g, Deciding(Decide(id, tokenHash, true, now)), s256, life) == (g', Decided(id, true))
    ensures g' == g.(rows := g'.rows, approvals := g'.approvals) && g'.rows.codes == g.rows.codes
    ensures id in g'.approvals && g'.approvals[id] == Approved(g.rows.requests[id].(status := Requests.Approved))
  {
    g' := DecideStep(g, id, tokenHash, true, now).0;
  }

  // -------------------------------------------------------------- from then on

  lemma {:induction false} AppendedRecorded(
    receipts: seq<Consents.Receipt>, receipt: Consents.Receipt, r: Requests.Authorization)
    requires Consents.IndexOf(receipts, receipt.consentId) == |receipts| && Records(receipt, r) && !receipt.Gone()
    ensures Recorded(receipts + [receipt], receipt.consentId, r, receipt.expiresAt)
  {
    AppendedIndex(receipts, receipt);
    assert (receipts + [receipt])[|receipts|] == receipt;
  }

  lemma {:induction false} NewReceiptRecords(
    r: Requests.Authorization, freshId: string, evidence: string, expiresAt: int, now: int)
    requires NoRepeats(r.requestedScopes)
    ensures Records(Consents.NewReceipt(ConsentInput(r, evidence, expiresAt), freshId, now), r)
    ensures !Consents.NewReceipt(ConsentInput(r, evidence, expiresAt), freshId, now).Gone()
    ensures Consents.NewReceipt(ConsentInput(r, evidence, expiresAt), freshId, now).expiresAt == expiresAt
  {
    UniqueFixed(r.requestedScopes);
  }

  /** New evidence makes a receipt that records the request. */
  lemma {:induction false} NewEvidenceRecorded(
    receipts: seq<Consents.Receipt>, r: Requests.Authorization, freshId: string, evidence: string, expiresAt: int,
    now: int)
    requires NoRepeats(r.requestedScopes) && Consents.IndexOf(receipts, freshId) == |receipts|
    requires Consents.IndexOfEvidence(receipts, Slugs.Normalize(r.serviceCode), evidence) == |receipts|
    ensures var (receipts', receipt) := Consents.Create(receipts, ConsentInput(r, evidence, expiresAt), freshId, now);
      receipt.consentId == freshId && Recorded(receipts', freshId, r, expiresAt)
  {
    NewReceiptRecords(r, freshId, evidence, expiresAt, now);
    AppendedRecorded(receipts, Consents.NewReceipt(ConsentInput(r, evidence, expiresAt), freshId, now), r);
  }

  lemma {:induction false} ConsentIsRecorded(
    g: Gateway, id: string, freshId: string, evidence: string, expiresAt: int, now: int) returns (g': Gateway)
    requires id in g.approvals && g.approvals[id].Approved? && NoRepeats(g.approvals[id].record.requestedScopes)
    requires Consents.IndexOf(g.receipts, freshId) == |g.receipts|
    requires
      var code := Slugs.Normalize(g.approvals[id].record.serviceCode);
      Consents.IndexOfEvidence(g.receipts, code, evidence) == |g.receipts|
    ensures RecordConsentStep(g, id, freshId, evidence, expiresAt, now) == (g', Quiet)
    ensures g' == g.(receipts := g'.receipts, approvals := g'.approvals) && id in g'.approvals
    ensures g'.approvals[id] == Consented(g.approvals[id].record, freshId)
    ensures Recorded(g'.receipts, freshId, g.approvals[id].record, expiresAt)
  {
    NewEvidenceRecorded(g.receipts, g.approvals[id].record, freshId, evidence, expiresAt, now);
    g' := RecordConsentStep(g, id, freshId, evidence, expiresAt, now).0;
  }

  lemma {:induction false} RecordConsentWorks(
      g: Gateway, id: string, freshId: string, evidence: string, expiresAt: int, now: int, s256: string -> string,
      life: Refreshing.Lifetimes)
    returns (g': Gateway)
    requires id in g.approvals && g.approvals[id].Approved? && NoRepeats(g.approvals[id].record.requestedScopes)
    requires Consents.IndexOf(g.receipts, freshId) == |g.receipts|
    requires
      var code := Slugs.Normalize(g.approvals[id].record.serviceCode);
      Consents.IndexOfEvidence(g.receipts, code, evidence) == |g.receipts|
    ensures Step(g, Deciding(RecordConsent(id, freshId, evidence, expiresAt, now)), s256, life) == (g', Quiet)
    ensures g' == g.(receipts := g'.receipts, approvals := g'.approvals) && id in g'.approvals
    ensures g'.approvals[id] == Consented(g.approvals[id].record, freshId)
    ensures Recorded(g'.receipts, freshId, g.approvals[id].record, expiresAt)
  {
    g' := ConsentIsRecorded(g, id, freshId, evidence, expiresAt, now);
  }

  /** The receipt is on record for the request, with its expiry, and is not revoked. */
  ghost predicate Recorded(
    receipts: seq<Consents.Receipt>, consentId: string, r: Requests.Authorization, expiresAt: int)
  {
    var n := Consents.IndexOf(receipts, consentId);
    n < |receipts| && Records(receipts[n], r) && receipts[n].expiresAt == expiresAt && !receipts[n].Gone()
  }

  lemma {:induction false} IssueCodeWorks(
    g: Gateway, id: string, codeHash: string, ttl: int, now: int, s256: string -> string, life: Refreshing.Lifetimes)
    returns (g': Gateway)
    requires id in g.approvals && g.approvals[id].Consented? && g.approvals[id].record.subjectId != ""
    ensures Step(g, Deciding(IssueCode(id, codeHash, ttl, now)), s256, life) == (g', CodeIssued(id, codeHash))
    ensures g' == g.(rows := g'.rows, approvals := g'.approvals, history := g'.history) && codeHash in g'.rows.codes
    ensures var code, r := g'.rows.codes[codeHash], g.approvals[id].record;
      Carries(code, r) && code.consentId == g.approvals[id].consentId && code.expiresAt == now + ttl * 1000
          && !code.consumed
  {
    g' := IssueCodeStep(g, id, codeHash, ttl, now).0;
  }

  lemma {:induction false} RedeemWorks(
    g: Gateway, codeHash: string, clientId: string, verifier: string, now: int, s256: string -> string,
    life: Refreshing.Lifetimes) returns (g': Gateway)
    requires codeHash in g.rows.codes && !g.rows.codes[codeHash].consumed && g.rows.codes[codeHash].expiresAt > now
    requires g.rows.codes[codeHash].serviceCode == Slugs.Slug(clientId)
    requires Slugs.Slug(clientId) in g.services && g.services[Slugs.Slug(clientId)].active
    requires g.rows.codes[codeHash].codeChallenge == s256(verifier)
    ensures var code := g.rows.codes[codeHash];
      Step(g, Tokens(Redeem(codeHash, clientId, code.redirectUri, verifier, now)), s256, life)
        == (g', CodeRedeemed(codeHash, code.(consumed := true)))
    ensures g' == g.(rows := g'.rows, redeemed := g.redeemed[codeHash := g.rows.codes[codeHash].(consumed := true)])
  {
    g' := RedeemStep(g, codeHash, clientId, g.rows.codes[codeHash].redirectUri, s256(verifier), now).0;
  }

  lemma {:induction false} GrantWorks(g: Gateway, op: TokenOp, s256: string -> string, life: Refreshing.Lifetimes)
    returns (g': Gateway, token: AccessToken)
    requires op.Grant? && op.codeHash in g.redeemed && op.key.Some? && op.requested == []
    ensures Step(g, Tokens(op), s256, life) == (g', Minted(token, ByCode))
    ensures g' == g.(redeemed := g'.redeemed, tokens := g'.tokens, refresh := g'.refresh, history := g'.history)
    ensures op.jti in g'.tokens && g'.tokens[op.jti] == token && token.key == Some(RefOf(op.key.value))
    ensures var code := g.redeemed[op.codeHash];
      && token.serviceCode == code.serviceCode && token.environment == code.environment
      && token.subjectId == code.subjectId && token.scopes == Unique(code.scopes)
      && token.consentId == code.consentId && token.exp == op.exp
  {
    g' := GrantStep(g, op, life).0;
    assert Unique<string>([]) == [];
    token := g'.tokens[op.jti];
  }

  // ------------------------------------------------------------------ admission

  /** The service with the token's code has the token's key, and it may be used. */
  ghost predicate KeyHeld(g: Gateway, token: AccessToken, now: int) {
    && token.serviceCode in g.services
    && exists key :: key in g.services[token.serviceCode].keys && Opens(key, token, now)
  }

  lemma {:induction false} RecordedStands(
    receipts: seq<Consents.Receipt>, consentId: string, r: Requests.Authorization, expiresAt: int, now: int)
    requires Recorded(receipts, consentId, r, expiresAt) && expiresAt > now
    requires Slugs.Slug(r.serviceCode) == r.serviceCode
    ensures var consent := Consents.Get(receipts, consentId, now);
      && consent.Ok? && consent.value.scopes == r.requestedScopes
      && Stands(consent.value, r.serviceCode, r.environment, r.subjectId)
  {
    Slugs.SlugFixedIff(r.serviceCode);
    Slugs.NormalizeFixedIff(r.serviceCode);
  }

  /** What the slug of a code finds, if it is another code, does not have the token's key. */
  lemma {:induction false} KeyNotElsewhere(g: Gateway, token: AccessToken, now: int)
    requires KeysApart(g.services) && KeyHeld(g, token, now)
    requires Slugs.Slug(token.serviceCode) != token.serviceCode && Slugs.Slug(token.serviceCode) in g.services
    ensures !exists key :: key in g.services[Slugs.Slug(token.serviceCode)].keys && Opens(key, token, now)
  {
    var own :| own in g.services[token.serviceCode].keys && Opens(own, token, now);
    assert own.fingerprint in Fingerprints(g.services[token.serviceCode]);
    if key :| key in g.services[Slugs.Slug(token.serviceCode)].keys && Opens(key, token, now) {
      KeyTellsService(g, token, key, now);
    }
  }

  /** What becomes of a live token, backed by its recorded consent, its grants and its key. */
  lemma {:induction false} AdmissionOf(
    g: Gateway, token: AccessToken, r: Requests.Authorization, expiresAt: int, now: int)
    requires token.exp * 1000 > now && expiresAt > now && Recorded(g.receipts, token.consentId, r, expiresAt)
    requires token.serviceCode == r.serviceCode && token.environment == r.environment && token.subjectId == r.subjectId
    requires token.scopes == r.requestedScopes && token.scopes != []
    requires KeysApart(g.services) && KeyHeld(g, token, now) && g.services[r.serviceCode].active
    requires Within(token.scopes, g.services[r.serviceCode].scopesGranted)
    ensures var found := Slugs.Slug(r.serviceCode);
      Admission(g, token, true, "", now) ==
        if found == r.serviceCode then Admitted else if found in g.services then AuthFailed else ServiceNotFound
  {
    var found := Slugs.Slug(r.serviceCode);
    if found == r.serviceCode {
      RecordedStands(g.receipts, token.consentId, r, expiresAt, now);
    } else if found in g.services {
      KeyNotElsewhere(g, token, now);
    }
  }

  // -------------------------------------------------------------------- journeys

  /** What one authorization needs: its random values, times and the presented verifier. */
  datatype Journey = Journey(
    clientId: string, r: Requests.Authorization, stateHash: string, placeholder: string, subject: string,
    freshId: string, evidence: string, expiresAt: int, codeHash: string, ttl: int, verifier: string, grant: TokenOp,
    claimedAt: int, verifiedAt: int, decidedAt: int, recordedAt: int, issuedAt: int, redeemedAt: int, usedAt: int)

  /** In order, each before the deadline of what it uses: the request's, the code's, the consent's and the token's. */
  ghost predicate InTime(j: Journey) {
    && j.claimedAt <= j.verifiedAt <= j.decidedAt < j.r.expiresAt
    && j.decidedAt <= j.recordedAt <= j.issuedAt <= j.redeemedAt < j.issuedAt + j.ttl * 1000
    && j.grant.Grant? && j.redeemedAt <= j.grant.now <= j.usedAt < j.expiresAt && j.usedAt < j.grant.exp * 1000
  }

  /** The random values and ids are new. */
  ghost predicate Fresh(g: Gateway, j: Journey) {
    && j.r.requestId !in g.rows.requests && j.stateHash !in g.rows.byState && j.codeHash !in g.rows.codes
    && Consents.IndexOf(g.receipts, j.freshId) == |g.receipts|
    && Consents.IndexOfEvidence(g.receipts, Slugs.Normalize(Slugs.Slug(j.clientId)), j.evidence) == |g.receipts|
    && j.grant.Grant? && j.grant.jti !in g.tokens && j.grant.family !in g.history.familyCode
    && j.grant.refreshHash !in g.refresh.tokens
  }

  /** The service has the key that the token is issued under, active and for long enough. */
  ghost predicate KeyReady(g: Gateway, j: Journey) {
    && Slugs.Slug(j.clientId) in g.services && j.grant.Grant? && j.grant.key.Some?
    && var key := j.grant.key.value;
    && key in g.services[Slugs.Slug(j.clientId)].keys && key.environment == j.r.environment
    && key.status == Portal.KeyActive && (key.expiresAt.Some? ==> key.expiresAt.value > j.usedAt)
  }

  ghost predicate Ready(g: Gateway, j: Journey, s256: string -> string) {
    && Allowed(g, j.clientId, j.r) && InTime(j) && Fresh(g, j) && KeyReady(g, j) && KeysApart(g.services)
    && j.subject != "" && j.r.codeChallenge == s256(j.verifier)
    && j.grant.codeHash == j.codeHash && j.grant.requested == []
  }

  /** The journey's steps in their order. */
  function Steps(j: Journey): seq<Op> {
    [Authorizing(Create(j.clientId, j.r, j.stateHash))] +
    ([Authorizing(Claim(j.stateHash, j.placeholder, j.claimedAt))] +
    ([Authorizing(Verify(j.r.requestId, j.subject, j.verifiedAt))] +
    ([Deciding(Decide(j.r.requestId, j.r.approvalTokenHash, true, j.decidedAt))] +
    LastSteps(j))))
  }

  /** The steps up to the identity callback. */
  function FirstSteps(j: Journey): seq<Op> {
    [Authorizing(Create(j.clientId, j.r, j.stateHash))] +
    ([Authorizing(Claim(j.stateHash, j.placeholder, j.claimedAt))] +
    ([Authorizing(Verify(j.r.requestId, j.subject, j.verifiedAt))] + []))
  }

  function LastSteps(j: Journey): seq<Op> {
    [Deciding(RecordConsent(j.r.requestId, j.freshId, j.evidence, j.expiresAt, j.recordedAt))] +
    ([Deciding(IssueCode(j.r.requestId, j.codeHash, j.ttl, j.issuedAt))] +
    ([Tokens(Redeem(j.codeHash, j.clientId, j.r.redirectUri, j.verifier, j.redeemedAt))] + ([Tokens(j.grant)] + [])))
  }

  lemma {:induction false} RunStep(
    g: Gateway, op: Op, g': Gateway, rest: seq<Op>, s256: string -> string, life: Refreshing.Lifetimes)
    requires Step(g, op, s256, life).0 == g'
    ensures Run(g, [op] + rest, s256, life).0 == Run(g', rest, s256, life).0
    ensures PossibleRun(g, [op] + rest, s256, life) <==> Possible(g, op) && PossibleRun(g', rest, s256, life)
  {
    assert ([op] + rest)[1..] == rest;
  }

  lemma {:induction false} RunFour(
    g: Gateway, a: Op, g1: Gateway, b: Op, g2: Gateway, c: Op, g3: Gateway, d: Op, g4: Gateway, rest: seq<Op>,
    s256: string -> string, life: Refreshing.Lifetimes)
    requires Step(g, a, s256, life).0 == g1 && Step(g1, b, s256, life).0 == g2
    requires Step(g2, c, s256, life).0 == g3 && Step(g3, d, s256, life).0 == g4
    ensures Run(g, [a] + ([b] + ([c] + ([d] + rest))), s256, life).0 == Run(g4, rest, s256, life).0
    ensures PossibleRun(g, [a] + ([b] + ([c] + ([d] + rest))), s256, life) <==>
      Possible(g, a) && Possible(g1, b) && Possible(g2, c) && Possible(g3, d) && PossibleRun(g4, rest, s256, life)
  {
    RunStep(g3, d, g4, rest, s256, life);
    RunStep(g2, c, g3, [d] + rest, s256, life);
    RunStep(g1, b, g2, [c] + ([d] + rest), s256, life);
    RunStep(g, a, g1, [b] + ([c] + ([d] + rest)), s256, life);
  }

  /** The request's row before its decision, for the verified subject. */
  function Shown(j: Journey): Requests.Authorization {
    Created(j.clientId, j.r).(status := Requests.PendingConsent, subjectId := j.subject)
  }

  /** Up to the decision. It is possible if the request's own code finds a service, and so the page was shown. */
  lemma {:induction false} ToDecision(g: Gateway, j: Journey, s256: string -> string, life: Refreshing.Lifetimes)
    returns (g4: Gateway)
    requires Ready(g, j, s256)
    ensures Run(g, Steps(j), s256, life).0 == Run(g4, LastSteps(j), s256, life).0
    ensures g4 == g.(rows := g4.rows, callbacks := g4.callbacks, approvals := g4.approvals, history := g4.history)
    ensures g4.rows.codes == g.rows.codes && g4.history.familyCode == g.history.familyCode
    ensures j.r.requestId in g4.approvals
    ensures g4.approvals[j.r.requestId] == Approved(Shown(j).(status := Requests.Approved))
    ensures Slugs.Slug(Slugs.Slug(j.clientId)) in g.services ==>
      (PossibleRun(g, Steps(j), s256, life) <==> PossibleRun(g4, LastSteps(j), s256, life))
  {
    var id := j.r.requestId;
    var g1 := CreateWorks(g, j.clientId, j.r, j.stateHash, s256, life);
    var g2 := ClaimWorks(g1, j.stateHash, id, j.placeholder, j.claimedAt, s256, life);
    var g3 := VerifyWorks(g2, id, j.subject, j.verifiedAt, s256, life);
    g4 := DecideWorks(g3, id, j.r.approvalTokenHash, j.decidedAt, s256, life);
    RunFour(
      g, Authorizing(Create(j.clientId, j.r, j.stateHash)), g1,
      Authorizing(Claim(j.stateHash, j.placeholder, j.claimedAt)), g2,
      Authorizing(Verify(id, j.subject, j.verifiedAt)), g3,
      Deciding(Decide(id, j.r.approvalTokenHash, true, j.decidedAt)), g4, LastSteps(j), s256, life);
  }

  /** What the last steps need of the state after the decision. */
  ghost predicate AtDecision(g: Gateway, j: Journey, s256: string -> string) {
    && Allowed(g, j.clientId, j.r) && InTime(j) && KeyReady(g, j) && j.subject != ""
    && j.r.codeChallenge == s256(j.verifier) && j.grant.codeHash == j.codeHash && j.grant.requested == []
    && j.codeHash !in g.rows.codes && Consents.IndexOf(g.receipts, j.freshId) == |g.receipts|
    && Consents.IndexOfEvidence(g.receipts, Slugs.Normalize(Slugs.Slug(j.clientId)), j.evidence) == |g.receipts|
    && j.grant.jti !in g.tokens && j.grant.family !in g.history.familyCode
    && j.grant.refreshHash !in g.refresh.tokens
    && j.r.requestId in g.approvals
    && g.approvals[j.r.requestId] == Approved(Shown(j).(status := Requests.Approved))
  }

  /** From the decision to the code. */
  lemma {:induction false} ToCode(g4: Gateway, j: Journey, s256: string -> string, life: Refreshing.Lifetimes)
    returns (g5: Gateway, g6: Gateway)
    requires AtDecision(g4, j, s256)
    ensures
      var r, c := Deciding(RecordConsent(j.r.requestId, j.freshId, j.evidence, j.expiresAt, j.recordedAt)),
                  Deciding(IssueCode(j.r.requestId, j.codeHash, j.ttl, j.issuedAt));
      && Step(g4, r, s256, life).0 == g5 && Step(g5, c, s256, life).0 == g6
      && Possible(g4, r) && Possible(g5, c)
    ensures g6 == g4.(rows := g6.rows, receipts := g6.receipts, approvals := g6.approvals, history := g6.history)
    ensures g6.history.familyCode == g4.history.familyCode && j.codeHash in g6.rows.codes
    ensures var code := g6.rows.codes[j.codeHash];
      && Carries(code, Shown(j).(status := Requests.Approved)) && !code.consumed
      && code.expiresAt == j.issuedAt + j.ttl * 1000 && Recorded(g6.receipts, code.consentId, Shown(j), j.expiresAt)
  {
    UniqueLaws(j.r.requestedScopes);
    g5 := RecordConsentWorks(g4, j.r.requestId, j.freshId, j.evidence, j.expiresAt, j.recordedAt, s256, life);
    g6 := IssueCodeWorks(g5, j.r.requestId, j.codeHash, j.ttl, j.issuedAt, s256, life);
  }

  /** From the code to the token. */
  lemma {:induction false} CodeToToken(g6: Gateway, j: Journey, s256: string -> string, life: Refreshing.Lifetimes)
    returns (g7: Gateway, g8: Gateway, token: AccessToken)
    requires Allowed(g6, j.clientId, j.r) && InTime(j) && KeyReady(g6, j) && j.r.codeChallenge == s256(j.verifier)
    requires j.grant.codeHash == j.codeHash && j.grant.requested == [] && j.codeHash in g6.rows.codes
    requires var code := g6.rows.codes[j.codeHash];
      Carries(code, Shown(j).(status := Requests.Approved)) && !code.consumed
          && code.expiresAt == j.issuedAt + j.ttl * 1000
    requires j.grant.jti !in g6.tokens && j.grant.family !in g6.history.familyCode
    requires j.grant.refreshHash !in g6.refresh.tokens
    ensures
      var d := Tokens(Redeem(j.codeHash, j.clientId, j.r.redirectUri, j.verifier, j.redeemedAt));
      && Step(g6, d, s256, life).0 == g7 && Step(g7, Tokens(j.grant), s256, life).0 == g8
      && Possible(g6, d) && Possible(g7, Tokens(j.grant))
    ensures j.grant.jti in g8.tokens && g8.tokens[j.grant.jti] == token
    ensures g8.services == g6.services && g8.receipts == g6.receipts
    ensures token.serviceCode == Slugs.Slug(j.clientId) && token.environment == j.r.environment
    ensures token.subjectId == j.subject && token.scopes == Unique(j.r.requestedScopes)
    ensures token.consentId == g6.rows.codes[j.codeHash].consentId
    ensures token.exp == j.grant.exp && token.key == Some(RefOf(j.grant.key.value))
  {
    UniqueLaws(j.r.requestedScopes);
    UniqueFixed(Unique(j.r.requestedScopes));
    g7 := RedeemWorks(g6, j.codeHash, j.clientId, j.verifier, j.redeemedAt, s256, life);
    g8, token := GrantWorks(g7, j.grant, s256, life);
    assert j.grant.key.value.fingerprint in Fingerprints(g7.services[Slugs.Slug(j.clientId)]);
  }

  lemma {:induction false} ToToken(g4: Gateway, j: Journey, s256: string -> string, life: Refreshing.Lifetimes)
    returns (g8: Gateway, token: AccessToken)
    requires AtDecision(g4, j, s256)
    ensures PossibleRun(g4, LastSteps(j), s256, life)
    ensures Run(g4, LastSteps(j), s256, life).0 == g8 && j.grant.jti in g8.tokens && g8.tokens[j.grant.jti] == token
    ensures g8.services == g4.services && Recorded(g8.receipts, token.consentId, Shown(j), j.expiresAt)
    ensures token.serviceCode == Slugs.Slug(j.clientId) && token.environment == j.r.environment
    ensures token.subjectId == j.subject && token.scopes == Unique(j.r.requestedScopes)
    ensures token.exp == j.grant.exp && token.key == Some(RefOf(j.grant.key.value))
  {
    var g5, g6 := ToCode(g4, j, s256, life);
    var g7, last, minted := CodeToToken(g6, j, s256, life);
    g8, token := last, minted;
    RunFour(
      g4, Deciding(RecordConsent(j.r.requestId, j.freshId, j.evidence, j.expiresAt, j.recordedAt)), g5,
      Deciding(IssueCode(j.r.requestId, j.codeHash, j.ttl, j.issuedAt)), g6,
      Tokens(Redeem(j.codeHash, j.clientId, j.r.redirectUri, j.verifier, j.redeemedAt)), g7,
      Tokens(j.grant), g8, [], s256, life);
  }

  /** Where the request's own code finds a service, the steps are possible and end in a token for the verified
      subject with the requested scopes. If what it finds is another service, the token is not admitted there. */
  lemma {:induction false} FlowMints(g: Gateway, j: Journey, s256: string -> string, life: Refreshing.Lifetimes)
    returns (token: AccessToken)
    requires Ready(g, j, s256) && Slugs.Slug(Slugs.Slug(j.clientId)) in g.services
    ensures PossibleRun(g, Steps(j), s256, life)
    ensures var g' := Run(g, Steps(j), s256, life).0;
      && j.grant.jti in g'.tokens && g'.tokens[j.grant.jti] == token
      && token.subjectId == j.subject && token.scopes == Unique(j.r.requestedScopes)
      && Admission(g', token, true, "", j.usedAt) ==
           if Slugs.Slug(Slugs.Slug(j.clientId)) == Slugs.Slug(j.clientId) then Admitted else AuthFailed
  {
    var g4 := ToDecision(g, j, s256, life);
    var g8, minted := ToToken(g4, j, s256, life);
    token := minted;
    assert Opens(j.grant.key.value, token, j.usedAt);
    AdmissionOf(g8, token, Shown(j), j.expiresAt, j.usedAt);
  }

  /** Up to the callback, where the request's code finds no service. */
  lemma {:induction false} ToCallback(g: Gateway, j: Journey, s256: string -> string, life: Refreshing.Lifetimes)
    returns (g1: Gateway, g2: Gateway, g3: Gateway)
    requires Ready(g, j, s256) && Origins(g) && Slugs.Slug(Slugs.Slug(j.clientId)) !in g.services
    ensures
      && Step(g, Authorizing(Create(j.clientId, j.r, j.stateHash)), s256, life).0 == g1
      && Step(g1, Authorizing(Claim(j.stateHash, j.placeholder, j.claimedAt)), s256, life).0 == g2
      && Step(g2, Authorizing(Verify(j.r.requestId, j.subject, j.verifiedAt)), s256, life).0 == g3
    ensures Unreachable(g3, j.r.requestId) && g3.rows.requests[j.r.requestId] == Shown(j)
  {
    g1 := CreateWorks(g, j.clientId, j.r, j.stateHash, s256, life);
    g2 := ClaimWorks(g1, j.stateHash, j.r.requestId, j.placeholder, j.claimedAt, s256, life);
    g3 := VerifyWorks(g2, j.r.requestId, j.subject, j.verifiedAt, s256, life);
  }

  /** Where it finds none, the consent page is not shown, and the decision is not possible. */
  lemma {:induction false} FlowStops(g: Gateway, j: Journey, s256: string -> string, life: Refreshing.Lifetimes)
    returns (g3: Gateway)
    requires Ready(g, j, s256) && Origins(g) && Slugs.Slug(Slugs.Slug(j.clientId)) !in g.services
    ensures g3 == Run(g, FirstSteps(j), s256, life).0 && Unreachable(g3, j.r.requestId)
    ensures !PossibleRun(g, Steps(j), s256, life)
  {
    var g1, g2, third := ToCallback(g, j, s256, life);
    g3 := third;
    var a := Authorizing(Create(j.clientId, j.r, j.stateHash));
    var b := Authorizing(Claim(j.stateHash, j.placeholder, j.claimedAt));
    var c := Authorizing(Verify(j.r.requestId, j.subject, j.verifiedAt));
    var d := Deciding(Decide(j.r.requestId, j.r.approvalTokenHash, true, j.decidedAt));
    RunFour(g, a, g1, b, g2, c, g3, d, Step(g3, d, s256, life).0, LastSteps(j), s256, life);
    RunStep(g2, c, g3, [], s256, life);
    RunStep(g1, b, g2, [c] + [], s256, life);
    RunStep(g, a, g1, [b] + ([c] + []), s256, life);
  }

  /** The flow gets through: its steps are possible, and end in a token that is admitted. */
  ghost predicate Completes(g: Gateway, j: Journey, s256: string -> string, life: Refreshing.Lifetimes) {
    && PossibleRun(g, Steps(j), s256, life)
    && var g' := Run(g, Steps(j), s256, life).0;
    && j.grant.Grant? && j.grant.jti in g'.tokens
    && Admission(g', g'.tokens[j.grant.jti], true, "", j.usedAt) == Admitted
  }

  /** From any sound state, for any id of a client, the flow the portal allows gets through if and only if
      slugging leaves the service's code alone. */
  lemma {:induction false} FlowCompletes(g: Gateway, j: Journey, s256: string -> string, life: Refreshing.Lifetimes)
    requires Ready(g, j, s256) && Origins(g)
    ensures Completes(g, j, s256, life) <==> Slugs.Slug(Slugs.Slug(j.clientId)) == Slugs.Slug(j.clientId)
  {
    if Slugs.Slug(Slugs.Slug(j.clientId)) in g.services {
      var token := FlowMints(g, j, s256, life);
    } else {
      var g3 := FlowStops(g, j, s256, life);
    }
  }

  /** A client whose name is cut behind a hyphen never gets through. */
  lemma {:induction false} CutNameNeverCompletes(
    g: Gateway, j: Journey, s256: string -> string, life: Refreshing.Lifetimes)
    requires Ready(g, j, s256) && Origins(g) && j.clientId == Slugs.CUT_SEED
    ensures !Completes(g, j, s256, life)
  {
    Slugs.CutSeedIsCut();
    FlowCompletes(g, j, s256, life);
  }

  // ------------------------------------------------------- requests that stay behind

  /** The request awaits a decision, but its page was not shown and no callback is under way for it. */
  ghost predicate Unreachable(g: Gateway, id: string) {
    && id in g.rows.requests && g.rows.requests[id].status == Requests.PendingConsent
    && id !in g.callbacks && id !in g.history.shown && id !in g.approvals
  }

  lemma {:induction false} StaysUnreachable(
    g: Gateway, op: Op, s256: string -> string, life: Refreshing.Lifetimes, id: string)
    requires Unreachable(g, id) && Possible(g, op)
    ensures Unreachable(Step(g, op, s256, life).0, id) && !About(Step(g, op, s256, life).1, id)
  {
    match op
    case Authorizing(a) => AuthorizeUnreachable(g, a, id);
    case Deciding(d) => DecideUnreachable(g, d, id);
    case Tokens(t) => AuthorizationProgress.TokenFrame(g, t, s256, life);
    case Other(o) => AuthorizationProgress.OtherFrame(g, o, life);
  }

  lemma {:induction false} AuthorizeUnreachable(g: Gateway, a: AuthorizeOp, id: string)
    requires Unreachable(g, id) && PossibleAuthorize(g, a)
    ensures Unreachable(AuthorizeStep(g, a).0, id) && !About(AuthorizeStep(g, a).1, id)
  {
    match a
    case Create(clientId, request, stateHash) => CreateUnreachable(g, clientId, request, stateHash, id);
    case Claim(stateHash, placeholder, now) => ClaimUnreachable(g, stateHash, placeholder, now, id);
    case Verify(verified, subject, now) => VerifyUnreachable(g, verified, subject, now, id);
    case _ =>
  }

  lemma {:induction false} CreateUnreachable(
    g: Gateway, clientId: string, r: Requests.Authorization, stateHash: string, id: string)
    requires Unreachable(g, id) && r.requestId !in g.rows.requests
    ensures var (g', event) := CreateStep(g, clientId, r, stateHash); Unreachable(g', id) && !About(event, id)
  {
  }

  lemma {:induction false} ClaimUnreachable(g: Gateway, stateHash: string, placeholder: string, now: int, id: string)
    requires Unreachable(g, id)
    ensures var (g', event) := ClaimStep(g, stateHash, placeholder, now); Unreachable(g', id) && !About(event, id)
  {
  }

  lemma {:induction false} VerifyUnreachable(g: Gateway, verified: string, subject: string, now: int, id: string)
    requires Unreachable(g, id)
    ensures var (g', event) := VerifyStep(g, verified, subject, now); Unreachable(g', id) && !About(event, id)
  {
  }

  lemma {:induction false} DecideUnreachable(g: Gateway, d: DecisionOp, id: string)
    requires Unreachable(g, id) && PossibleDecision(g, d)
    ensures Unreachable(DecisionStep(g, d).0, id) && !About(DecisionStep(g, d).1, id)
  {
    match d
    case Decide(decided, tokenHash, approve, now) => DecidedElsewhere(g, decided, tokenHash, approve, now, id);
    case RecordConsent(recorded, freshId, evidence, expiresAt, now) =>
      AuthorizationProgress.RecordConsentFrame(g, recorded, freshId, evidence, expiresAt, now);
    case IssueCode(issued, codeHash, ttl, now) =>
      AuthorizationProgress.IssueCodeFrame(g, issued, codeHash, ttl, now);
  }

  lemma {:induction false} DecidedElsewhere(
    g: Gateway, decided: string, tokenHash: string, approve: bool, now: int, id: string)
    requires Unreachable(g, id) && PossibleDecision(g, Decide(decided, tokenHash, approve, now))
    ensures var (g', event) := DecideStep(g, decided, tokenHash, approve, now); Unreachable(g', id) && !About(event, id)
  {
  }

  /** The event shows the request's page, decides it or issues its code. */
  predicate About(e: Event, id: string) {
    match e
    case PageShown(shown, _) => shown == id
    case Decided(decided, _) => decided == id
    case CodeIssued(issued, _) => issued == id
    case _ => false
  }

  /** Such a request gets no page, no decision and no code in any later run. */
  lemma {:induction false} NothingComesOfIt(
    g: Gateway, ops: seq<Op>, s256: string -> string, life: Refreshing.Lifetimes, id: string, k: nat)
    requires Unreachable(g, id) && PossibleRun(g, ops, s256, life) && k < |Run(g, ops, s256, life).1|
    ensures !About(Run(g, ops, s256, life).1[k], id)
    decreases ops
  {
    StaysUnreachable(g, ops[0], s256, life, id);
    if k > 0 { NothingComesOfIt(Step(g, ops[0], s256, life).0, ops[1..], s256, life, id, k - 1); }
  }
}
