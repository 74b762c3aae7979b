/** Where codes come from: in every reachable state each code carries exactly what its request
    asked for, for the identity whose consent page was shown, backed by the consent recorded for it. */
module AuthorizationOrigin {
  import opened Lists
  import opened AuthorizationFlow
  import opened AuthorizationProgress
  import ConsentLaws
  import Slugs
  import Requests = OAuthAuthorizationStore
  import Consents = ConsentReceiptStore
  import Refreshing = RefreshTokenStore

  // --------------------------------------------------------------- requests

  ghost predicate Granted(services: map<string, Service>, service: string, scopes: seq<string>) {
    service in services && Within(scopes, services[service].scopesGranted)
  }

  /** A request asks for granted scopes; once its page is shown its subject is the identity shown,
      and it is decided only after that. */
  ghost predicate RequestSound(
    r: Requests.Authorization, id: string, shown: map<string, string>, callbacks: set<string>)
  {
    && r.requestId == id
    && (id in callbacks ==> r.status != Requests.PendingIdentity && id !in shown)
    && (id in shown ==> r.status != Requests.PendingIdentity && r.subjectId == shown[id])
    && (IsSettled(r) ==> id in shown)
  }

  ghost predicate RequestsSound(requests: RequestTable, shown: map<string, string>, callbacks: set<string>) {
    && (forall id <- requests :: RequestSound(requests[id], id, shown, callbacks))
    && (forall id <- shown :: id in requests)
    && (forall id <- callbacks :: id in requests)
  }

  ghost predicate RequestsGranted(requests: RequestTable, services: map<string, Service>) {
    forall id <- requests :: requests[id].requestedScopes != [] && NoRepeats(requests[id].requestedScopes)
      && Granted(services, requests[id].serviceCode, requests[id].requestedScopes)
  }

  lemma CreateSound(g: Gateway, clientId: string, r: Requests.Authorization, stateHash: string)
    requires RequestsSound(g.rows.requests, g.history.shown, g.callbacks)
    requires RequestsGranted(g.rows.requests, g.services)
    requires r.requestId !in g.rows.requests
    ensures var g' := CreateStep(g, clientId, r, stateHash).0;
      RequestsSound(g'.rows.requests, g'.history.shown, g'.callbacks) && RequestsGranted(g'.rows.requests, g'.services)
  {
    UniqueLaws(r.requestedScopes);
  }

  lemma ClaimSound(g: Gateway, stateHash: string, placeholder: string, now: int)
    requires RequestsSound(g.rows.requests, g.history.shown, g.callbacks)
    ensures var g' := ClaimStep(g, stateHash, placeholder, now).0;
      RequestsSound(g'.rows.requests, g'.history.shown, g'.callbacks)
  {
  }

  lemma ShowSound(
    requests: RequestTable, shown: map<string, string>, callbacks: set<string>, id: string, subject: string)
    requires RequestsSound(requests, shown, callbacks) && id in callbacks
    requires requests[id].status == Requests.PendingConsent
    ensures RequestsSound(requests[id := requests[id].(subjectId := subject)], shown[id := subject], callbacks - {id})
  {
    var requests' := requests[id := requests[id].(subjectId := subject)];
    forall k | k in requests' ensures RequestSound(requests'[k], k, shown[id := subject], callbacks - {id}) {
      assert RequestSound(requests[k], k, shown, callbacks);
    }
  }

  lemma DropSound(requests: RequestTable, shown: map<string, string>, callbacks: set<string>, id: string)
    requires RequestsSound(requests, shown, callbacks)
    ensures RequestsSound(requests, shown, callbacks - {id})
  {
    forall k | k in requests ensures RequestSound(requests[k], k, shown, callbacks - {id}) {
      assert RequestSound(requests[k], k, shown, callbacks);
    }
  }

  lemma UnshownSound(
    requests: RequestTable, shown: map<string, string>, callbacks: set<string>, id: string, subject: string)
    requires RequestsSound(requests, shown, callbacks) && id in callbacks
    requires requests[id].status == Requests.PendingConsent
    ensures RequestsSound(requests[id := requests[id].(subjectId := subject)], shown, callbacks - {id})
  {
    var requests' := requests[id := requests[id].(subjectId := subject)];
    forall k | k in requests' ensures RequestSound(requests'[k], k, shown, callbacks - {id}) {
      assert RequestSound(requests[k], k, shown, callbacks);
    }
  }

  lemma VerifySound(g: Gateway, id: string, subject: string, now: int)
    requires RequestsSound(g.rows.requests, g.history.shown, g.callbacks)
    ensures var g' := VerifyStep(g, id, subject, now).0; RequestsSound(g'.rows.requests, g'.history.shown, g'.callbacks)
  {
    var waiting := g.rows.Waiting(id, Requests.PendingConsent, now);
    if id in g.callbacks && !waiting {
      DropSound(g.rows.requests, g.history.shown, g.callbacks, id);
    } else if id in g.callbacks && Slugs.Slug(g.rows.requests[id].serviceCode) in g.services {
      ShowSound(g.rows.requests, g.history.shown, g.callbacks, id, subject);
    } else if id in g.callbacks {
      UnshownSound(g.rows.requests, g.history.shown, g.callbacks, id, subject);
    }
  }

  lemma DecideSound(g: Gateway, id: string, tokenHash: string, approve: bool, now: int)
    requires RequestsSound(g.rows.requests, g.history.shown, g.callbacks)
    requires PossibleDecision(g, Decide(id, tokenHash, approve, now))
    ensures var g' := DecideStep(g, id, tokenHash, approve, now).0;
      RequestsSound(g'.rows.requests, g'.history.shown, g'.callbacks)
  {
  }

  lemma StillGranted(requests: RequestTable, requests': RequestTable, services: map<string, Service>)
    requires RequestsGranted(requests, services) && RequestsLater(requests, requests')
    requires requests'.Keys == requests.Keys
    ensures RequestsGranted(requests', services)
  {
    forall id | id in requests'
      ensures requests'[id].requestedScopes == requests[id].requestedScopes
        && requests'[id].serviceCode == requests[id].serviceCode
    {
      assert RequestLater(requests[id], requests'[id]);
    }
  }

  ghost predicate Extends<K(!new), V>(m: map<K, V>, m': map<K, V>) {
    forall k <- m :: k in m' && m'[k] == m[k]
  }

  lemma ShownGrows(g: Gateway, op: AuthorizeOp)
    requires RequestsSound(g.rows.requests, g.history.shown, g.callbacks)
    ensures Extends(g.history.shown, AuthorizeStep(g, op).0.history.shown)
  {
    assert op.Verify? && op.id in g.callbacks ==>
      RequestSound(g.rows.requests[op.id], op.id, g.history.shown, g.callbacks);
  }

  // ------------------------------------------------- approvals, consents, codes

  /** The receipt is the one the decision route records for the request. */
  predicate Records(receipt: Consents.Receipt, r: Requests.Authorization) {
    && receipt.serviceCode == Slugs.Normalize(r.serviceCode) && receipt.environment == r.environment
    && receipt.subjectId == r.subjectId && receipt.scopes == r.requestedScopes
  }

  ghost predicate ConsentFor(receipts: seq<Consents.Receipt>, consentId: string, r: Requests.Authorization) {
    var n := Consents.IndexOf(receipts, consentId);
    n < |receipts| && Records(receipts[n], r)
  }

  ghost predicate ApprovalSound(
    a: Approval, id: string, requests: RequestTable, shown: map<string, string>, receipts: seq<Consents.Receipt>)
  {
    && id in requests && id in shown && requests[id].status == Requests.Approved && a.record == requests[id]
    && a.record.subjectId == shown[id]
    && (a.Consented? ==> ConsentFor(receipts, a.consentId, a.record))
  }

  ghost predicate ApprovalsSound(
    approvals: map<string, Approval>, requests: RequestTable, shown: map<string, string>,
    receipts: seq<Consents.Receipt>)
  {
    forall id <- approvals :: ApprovalSound(approvals[id], id, requests, shown, receipts)
  }

  predicate Carries(c: Requests.Code, r: Requests.Authorization) {
    && c.serviceCode == r.serviceCode && c.environment == r.environment && c.redirectUri == r.redirectUri
    && c.scopes == r.requestedScopes && c.codeChallenge == r.codeChallenge && c.subjectId == r.subjectId
  }

  /** The code carries what the approved request `id` asked for, and the identity shown for it. */
  ghost predicate CodeFor(
    c: Requests.Code, id: string, requests: RequestTable, shown: map<string, string>, receipts: seq<Consents.Receipt>)
  {
    && id in requests && id in shown && requests[id].status == Requests.Approved
    && Carries(c, requests[id]) && c.subjectId == shown[id] && c.subjectId != ""
    && ConsentFor(receipts, c.consentId, requests[id])
  }

  ghost predicate CodesSound(
    codes: CodeTable, issuedFor: map<string, string>, requests: RequestTable, shown: map<string, string>,
    receipts: seq<Consents.Receipt>)
  {
    forall h <- codes :: h in issuedFor && CodeFor(codes[h], issuedFor[h], requests, shown, receipts)
  }

  lemma {:induction false} IndexOfGrown(receipts: seq<Consents.Receipt>, later: seq<Consents.Receipt>, id: string)
    requires ConsentLaws.Grown(receipts, later) && Consents.IndexOf(receipts, id) < |receipts|
    ensures Consents.IndexOf(later, id) == Consents.IndexOf(receipts, id)
  {
    assert ConsentLaws.Becomes(receipts[0], later[0]);
    if receipts[0].consentId != id {
      assert forall i :: 0 <= i < |receipts| - 1 ==>
        receipts[1..][i] == receipts[i + 1] && later[1..][i] == later[i + 1];
      IndexOfGrown(receipts[1..], later[1..], id);
    }
  }

  lemma ConsentForLater(
    receipts: seq<Consents.Receipt>, later: seq<Consents.Receipt>, consentId: string, r: Requests.Authorization)
    requires ConsentLaws.Grown(receipts, later) && ConsentFor(receipts, consentId, r)
    ensures ConsentFor(later, consentId, r)
  {
    IndexOfGrown(receipts, later, consentId);
    var n := Consents.IndexOf(receipts, consentId);
    assert ConsentLaws.Becomes(receipts[n], later[n]);
  }

  lemma ApprovalsLater(
      approvals: map<string, Approval>, requests: RequestTable, requests': RequestTable,
      shown: map<string, string>, shown': map<string, string>, receipts: seq<Consents.Receipt>,
      receipts': seq<Consents.Receipt>)
    requires ApprovalsSound(approvals, requests, shown, receipts)
    requires RequestsLater(requests, requests') && Extends(shown, shown') && ConsentLaws.Grown(receipts, receipts')
    ensures ApprovalsSound(approvals, requests', shown', receipts')
  {
    forall id | id in approvals ensures ApprovalSound(approvals[id], id, requests', shown', receipts') {
      assert ApprovalSound(approvals[id], id, requests, shown, receipts) && RequestLater(requests[id], requests'[id]);
      if approvals[id].Consented? {
        ConsentForLater(receipts, receipts', approvals[id].consentId, approvals[id].record);
      }
    }
  }

  lemma CodeForLater(
      c: Requests.Code, c': Requests.Code, id: string, requests: RequestTable, requests': RequestTable,
      shown: map<string, string>, shown': map<string, string>, receipts: seq<Consents.Receipt>,
      receipts': seq<Consents.Receipt>)
    requires CodeFor(c, id, requests, shown, receipts) && CodeLater(c, c')
    requires RequestsLater(requests, requests') && Extends(shown, shown') && ConsentLaws.Grown(receipts, receipts')
    ensures CodeFor(c', id, requests', shown', receipts')
  {
    assert RequestLater(requests[id], requests'[id]);
    ConsentForLater(receipts, receipts', c.consentId, requests[id]);
  }

  lemma CodesSoundLater(
      codes: CodeTable, codes': CodeTable, issuedFor: map<string, string>, requests: RequestTable,
      requests': RequestTable,
      shown: map<string, string>, shown': map<string, string>, receipts: seq<Consents.Receipt>,
      receipts': seq<Consents.Receipt>)
    requires CodesSound(codes, issuedFor, requests, shown, receipts) && CodesLater(codes, codes')
    requires codes'.Keys == codes.Keys
    requires RequestsLater(requests, requests') && Extends(shown, shown') && ConsentLaws.Grown(receipts, receipts')
    ensures CodesSound(codes', issuedFor, requests', shown', receipts')
  {
    forall h | h in codes' ensures h in issuedFor && CodeFor(codes'[h], issuedFor[h], requests', shown', receipts') {
      CodeForLater(codes[h], codes'[h], issuedFor[h], requests, requests', shown, shown', receipts, receipts');
    }
  }

  // ------------------------------------------------------------ the decision route

  lemma DecideApproves(g: Gateway, id: string, tokenHash: string, approve: bool, now: int)
    requires RequestsSound(g.rows.requests, g.history.shown, g.callbacks)
    requires ApprovalsSound(g.approvals, g.rows.requests, g.history.shown, g.receipts)
    requires PossibleDecision(g, Decide(id, tokenHash, approve, now))
    ensures var g' := DecideStep(g, id, tokenHash, approve, now).0;
      ApprovalsSound(g'.approvals, g'.rows.requests, g'.history.shown, g'.receipts)
  {
    var g' := DecideStep(g, id, tokenHash, approve, now).0;
    DecideProgress(g, id, tokenHash, approve, now);
    ConsentLaws.RunGrows(g.receipts, []);
    ApprovalsLater(
      g.approvals, g.rows.requests, g'.rows.requests, g.history.shown, g.history.shown, g.receipts, g.receipts);
    var r := g.rows.Decide(id, tokenHash, approve, now).1;
    if r.Done? && approve {
      assert RequestSound(g.rows.requests[id], id, g.history.shown, g.callbacks);
      PutApproval(g.approvals, id, Approved(r.value), g'.rows.requests, g.history.shown, g.receipts);
    }
  }

  lemma RecordConsentRecords(g: Gateway, id: string, freshId: string, evidence: string, expiresAt: int, now: int)
    requires RequestsGranted(g.rows.requests, g.services) && id in g.approvals
    requires ApprovalSound(g.approvals[id], id, g.rows.requests, g.history.shown, g.receipts)
    requires PossibleDecision(g, RecordConsent(id, freshId, evidence, expiresAt, now))
    ensures
      var input := ConsentInput(g.approvals[id].record, evidence, expiresAt);
      var (receipts, receipt) := Consents.Create(g.receipts, input, freshId, now);
      ConsentFor(receipts, receipt.consentId, g.rows.requests[id])
  {
    var record := g.approvals[id].record;
    var receipt := Consents.NewReceipt(ConsentInput(record, evidence, expiresAt), freshId, now);
    UniqueFixed(record.requestedScopes);
    AppendedIndex(g.receipts, receipt);
  }

  lemma {:induction false} AppendedIndex(receipts: seq<Consents.Receipt>, r: Consents.Receipt)
    requires Consents.IndexOf(receipts, r.consentId) == |receipts|
    ensures Consents.IndexOf(receipts + [r], r.consentId) == |receipts|
  {
    if receipts != [] {
      assert (receipts + [r])[1..] == receipts[1..] + [r];
      AppendedIndex(receipts[1..], r);
    }
  }

  lemma PutApproval(
      approvals: map<string, Approval>, id: string, a: Approval, requests: RequestTable, shown: map<string, string>,
      receipts: seq<Consents.Receipt>)
    requires ApprovalsSound(approvals, requests, shown, receipts) && ApprovalSound(a, id, requests, shown, receipts)
    ensures ApprovalsSound(approvals[id := a], requests, shown, receipts)
  {
  }

  lemma RecordConsentSound(g: Gateway, id: string, freshId: string, evidence: string, expiresAt: int, now: int)
    requires RequestsGranted(g.rows.requests, g.services)
    requires ApprovalsSound(g.approvals, g.rows.requests, g.history.shown, g.receipts)
    requires PossibleDecision(g, RecordConsent(id, freshId, evidence, expiresAt, now))
    ensures var g' := RecordConsentStep(g, id, freshId, evidence, expiresAt, now).0;
      ApprovalsSound(g'.approvals, g.rows.requests, g.history.shown, g'.receipts)
  {
    if id in g.approvals && g.approvals[id].Approved? {
      var record := g.approvals[id].record;
      var input := ConsentInput(record, evidence, expiresAt);
      var (receipts, receipt) := Consents.Create(g.receipts, input, freshId, now);
      ConsentLaws.StepGrows(g.receipts, ConsentLaws.Creating(input, freshId, now));
      SameRequests(g.rows.requests);
      ApprovalsLater(
        g.approvals, g.rows.requests, g.rows.requests, g.history.shown, g.history.shown, g.receipts, receipts);
      RecordConsentRecords(g, id, freshId, evidence, expiresAt, now);
      PutApproval(g.approvals, id, Consented(record, receipt.consentId), g.rows.requests, g.history.shown, receipts);
    }
  }

  lemma DropApproval(
    approvals: map<string, Approval>, id: string, requests: RequestTable, shown: map<string, string>,
    receipts: seq<Consents.Receipt>)
    requires ApprovalsSound(approvals, requests, shown, receipts)
    ensures ApprovalsSound(approvals - {id}, requests, shown, receipts)
  {
  }

  lemma PutCode(
      codes: CodeTable, issuedFor: map<string, string>, h: string, c: Requests.Code, id: string,
      requests: RequestTable, shown: map<string, string>, receipts: seq<Consents.Receipt>)
    requires CodesSound(codes, issuedFor, requests, shown, receipts) && CodeFor(c, id, requests, shown, receipts)
    requires h !in codes
    ensures CodesSound(codes[h := c], issuedFor[h := id], requests, shown, receipts)
  {
  }

  lemma ConsentedMakesCode(g: Gateway, id: string, codeHash: string, ttl: int, now: int)
    requires id in g.approvals && g.approvals[id].Consented? && g.approvals[id].record.subjectId != ""
    requires ApprovalSound(g.approvals[id], id, g.rows.requests, g.history.shown, g.receipts)
    ensures
      var rows := g.rows.IssueCode(g.approvals[id].record, g.approvals[id].consentId, codeHash, ttl, now).0;
      && codeHash in rows.codes && rows == g.rows.(codes := g.rows.codes[codeHash := rows.codes[codeHash]])
      && CodeFor(rows.codes[codeHash], id, g.rows.requests, g.history.shown, g.receipts)
  {
  }

  lemma IssueCodeSound(g: Gateway, id: string, codeHash: string, ttl: int, now: int)
    requires ApprovalsSound(g.approvals, g.rows.requests, g.history.shown, g.receipts)
    requires CodesSound(g.rows.codes, g.history.issuedFor, g.rows.requests, g.history.shown, g.receipts)
    requires codeHash !in g.rows.codes
    ensures var g' := IssueCodeStep(g, id, codeHash, ttl, now).0;
      && g'.rows.requests == g.rows.requests
      && ApprovalsSound(g'.approvals, g.rows.requests, g.history.shown, g.receipts)
      && CodesSound(g'.rows.codes, g'.history.issuedFor, g.rows.requests, g.history.shown, g.receipts)
  {
    if id in g.approvals && g.approvals[id].Consented? {
      DropApproval(g.approvals, id, g.rows.requests, g.history.shown, g.receipts);
      if g.approvals[id].record.subjectId != "" {
        ConsentedMakesCode(g, id, codeHash, ttl, now);
        var rows := g.rows.IssueCode(g.approvals[id].record, g.approvals[id].consentId, codeHash, ttl, now).0;
        PutCode(
          g.rows.codes, g.history.issuedFor, codeHash, rows.codes[codeHash], id, g.rows.requests, g.history.shown,
          g.receipts);
      }
    }
  }

  // ----------------------------------------------------------------- every run

  ghost predicate Origins(g: Gateway) {
    && RequestsSound(g.rows.requests, g.history.shown, g.callbacks)
    && RequestsGranted(g.rows.requests, g.services)
    && ApprovalsSound(g.approvals, g.rows.requests, g.history.shown, g.receipts)
    && CodesSound(g.rows.codes, g.history.issuedFor, g.rows.requests, g.history.shown, g.receipts)
  }

  lemma ClaimGranted(g: Gateway, stateHash: string, placeholder: string, now: int)
    requires RequestsGranted(g.rows.requests, g.services)
    ensures RequestsGranted(ClaimStep(g, stateHash, placeholder, now).0.rows.requests, g.services)
  {
    ClaimFrame(g, stateHash, placeholder, now);
    ClaimProgress(g, stateHash, placeholder, now);
    StillGranted(g.rows.requests, ClaimStep(g, stateHash, placeholder, now).0.rows.requests, g.services);
  }

  lemma VerifyGranted(g: Gateway, id: string, subject: string, now: int)
    requires RequestsGranted(g.rows.requests, g.services)
    ensures RequestsGranted(VerifyStep(g, id, subject, now).0.rows.requests, g.services)
  {
    VerifyFrame(g, id, subject, now);
    VerifyProgress(g, id, subject, now);
    StillGranted(g.rows.requests, VerifyStep(g, id, subject, now).0.rows.requests, g.services);
  }

  lemma DecideGranted(g: Gateway, id: string, tokenHash: string, approve: bool, now: int)
    requires RequestsGranted(g.rows.requests, g.services)
    ensures RequestsGranted(DecideStep(g, id, tokenHash, approve, now).0.rows.requests, g.services)
  {
    DecideFrame(g, id, tokenHash, approve, now);
    DecideProgress(g, id, tokenHash, approve, now);
    StillGranted(g.rows.requests, DecideStep(g, id, tokenHash, approve, now).0.rows.requests, g.services);
  }

  lemma AuthorizeRequestsSound(g: Gateway, op: AuthorizeOp)
    requires Origins(g) && PossibleAuthorize(g, op)
    ensures var g' := AuthorizeStep(g, op).0;
      RequestsSound(g'.rows.requests, g'.history.shown, g'.callbacks) && RequestsGranted(g'.rows.requests, g.services)
  {
    match op
    case Create(clientId, request, stateHash) =>
      CreateFrame(g, clientId, request, stateHash); CreateSound(g, clientId, request, stateHash);
    case Claim(stateHash, placeholder, now) =>
      ClaimSound(g, stateHash, placeholder, now); ClaimGranted(g, stateHash, placeholder, now);
    case Verify(id, subject, now) => VerifySound(g, id, subject, now); VerifyGranted(g, id, subject, now);
    case _ =>
  }

  lemma AuthorizeKeepsOrigins(g: Gateway, op: AuthorizeOp)
    requires Origins(g) && PossibleAuthorize(g, op)
    ensures Origins(AuthorizeStep(g, op).0)
  {
    var g' := AuthorizeStep(g, op).0;
    AuthorizeRequestsSound(g, op);
    AuthorizeFrame(g, op);
    AuthorizeRequestsProgress(g, op);
    ShownGrows(g, op);
    ConsentLaws.RunGrows(g.receipts, []);
    ApprovalsLater(
      g.approvals, g.rows.requests, g'.rows.requests, g.history.shown, g'.history.shown, g.receipts, g.receipts);
    CodesSoundLater(
      g.rows.codes, g.rows.codes, g.history.issuedFor, g.rows.requests, g'.rows.requests, g.history.shown,
      g'.history.shown, g.receipts, g.receipts);
  }

  lemma DecideKeepsCodes(g: Gateway, id: string, tokenHash: string, approve: bool, now: int)
    requires CodesSound(g.rows.codes, g.history.issuedFor, g.rows.requests, g.history.shown, g.receipts)
    ensures var rows := DecideStep(g, id, tokenHash, approve, now).0.rows;
      CodesSound(rows.codes, g.history.issuedFor, rows.requests, g.history.shown, g.receipts)
  {
    var rows := DecideStep(g, id, tokenHash, approve, now).0.rows;
    DecideFrame(g, id, tokenHash, approve, now);
    DecideProgress(g, id, tokenHash, approve, now);
    ConsentLaws.RunGrows(g.receipts, []);
    SameCodes(g.rows.codes);
    CodesSoundLater(
      g.rows.codes, g.rows.codes, g.history.issuedFor, g.rows.requests, rows.requests, g.history.shown, g.history.shown,
      g.receipts, g.receipts);
  }

  lemma DecideKeepsOrigins(g: Gateway, id: string, tokenHash: string, approve: bool, now: int)
    requires Origins(g) && PossibleDecision(g, Decide(id, tokenHash, approve, now))
    ensures Origins(DecideStep(g, id, tokenHash, approve, now).0)
  {
    DecideFrame(g, id, tokenHash, approve, now);
    DecideSound(g, id, tokenHash, approve, now);
    DecideGranted(g, id, tokenHash, approve, now);
    DecideApproves(g, id, tokenHash, approve, now);
    DecideKeepsCodes(g, id, tokenHash, approve, now);
  }

  lemma RecordConsentKeepsOrigins(g: Gateway, id: string, freshId: string, evidence: string, expiresAt: int, now: int)
    requires Origins(g) && PossibleDecision(g, RecordConsent(id, freshId, evidence, expiresAt, now))
    ensures Origins(RecordConsentStep(g, id, freshId, evidence, expiresAt, now).0)
  {
    var g' := RecordConsentStep(g, id, freshId, evidence, expiresAt, now).0;
    RecordConsentFrame(g, id, freshId, evidence, expiresAt, now);
    RecordConsentSound(g, id, freshId, evidence, expiresAt, now);
    DecisionReceiptsProgress(g, RecordConsent(id, freshId, evidence, expiresAt, now));
    SameRequests(g.rows.requests);
    CodesSoundLater(
      g.rows.codes, g.rows.codes, g.history.issuedFor, g.rows.requests, g.rows.requests, g.history.shown,
      g.history.shown, g.receipts, g'.receipts);
  }

  lemma DecisionKeepsOrigins(g: Gateway, op: DecisionOp)
    requires Origins(g) && PossibleDecision(g, op)
    ensures Origins(DecisionStep(g, op).0)
  {
    match op
    case Decide(id, tokenHash, approve, now) => DecideKeepsOrigins(g, id, tokenHash, approve, now);
    case RecordConsent(id, freshId, evidence, expiresAt, now) =>
      RecordConsentKeepsOrigins(g, id, freshId, evidence, expiresAt, now);
    case IssueCode(id, codeHash, ttl, now) =>
      IssueCodeFrame(g, id, codeHash, ttl, now);
      IssueCodeSound(g, id, codeHash, ttl, now);
  }

  lemma TokenKeepsOrigins(g: Gateway, op: TokenOp, s256: string -> string, life: Refreshing.Lifetimes)
    requires Origins(g)
    ensures Origins(TokenStep(g, op, s256, life).0)
  {
    var g' := TokenStep(g, op, s256, life).0;
    TokenFrame(g, op, s256, life);
    TokenCodesProgress(g, op, s256, life);
    TokenCodeKeys(g, op, s256, life);
    SameRequests(g.rows.requests);
    ConsentLaws.RunGrows(g.receipts, []);
    CodesSoundLater(
      g.rows.codes, g'.rows.codes, g.history.issuedFor, g.rows.requests, g.rows.requests, g.history.shown,
      g.history.shown, g.receipts, g.receipts);
  }

  lemma TokenCodeKeys(g: Gateway, op: TokenOp, s256: string -> string, life: Refreshing.Lifetimes)
    ensures TokenStep(g, op, s256, life).0.rows.codes.Keys == g.rows.codes.Keys
  {
    match op
    case Redeem(_, _, _, _, _) =>
    case Grant(_, _, _, _, _, _, _, _, _) => GrantFrame(g, op, life);
    case Rotate(_, _, _, _, _) => RotateFrame(g, op);
    case FinishRefresh(_, _, _, _, _, _) => FinishRefreshFrame(g, op);
    case Exchange(_, _, _, _, _, _, _, _, _) => ExchangeFrame(g, op);
  }

  lemma GrantedLater(requests: RequestTable, services: map<string, Service>, code: string, record: Service)
    requires RequestsGranted(requests, services)
    requires code in services ==> ServiceLater(services[code], record)
    ensures RequestsGranted(requests, services[code := record])
  {
  }

  lemma OtherKeepsOrigins(g: Gateway, op: OtherOp, life: Refreshing.Lifetimes)
    requires Origins(g) && PossibleOther(g, op)
    ensures Origins(OtherStep(g, op, life).0)
  {
    var g' := OtherStep(g, op, life).0;
    OtherFrame(g, op, life);
    OtherReceiptsProgress(g, op, life);
    SameRequests(g.rows.requests);
    ApprovalsLater(
      g.approvals, g.rows.requests, g.rows.requests, g.history.shown, g.history.shown, g.receipts, g'.receipts);
    CodesSoundLater(
      g.rows.codes, g.rows.codes, g.history.issuedFor, g.rows.requests, g.rows.requests, g.history.shown,
      g.history.shown, g.receipts, g'.receipts);
    if op.ChangeService? { GrantedLater(g.rows.requests, g.services, op.service, op.record); }
  }

  lemma StepKeepsOrigins(g: Gateway, op: Op, s256: string -> string, life: Refreshing.Lifetimes)
    requires Origins(g) && Possible(g, op)
    ensures Origins(Step(g, op, s256, life).0)
  {
    match op
    case Authorizing(a) => AuthorizeKeepsOrigins(g, a);
    case Deciding(d) => DecisionKeepsOrigins(g, d);
    case Tokens(t) => TokenKeepsOrigins(g, t, s256, life);
    case Other(o) => OtherKeepsOrigins(g, o, life);
  }

  lemma {:induction false} RunKeepsOrigins(g: Gateway, ops: seq<Op>, s256: string -> string, life: Refreshing.Lifetimes)
    requires Origins(g) && PossibleRun(g, ops, s256, life)
    ensures Origins(Run(g, ops, s256, life).0)
    decreases ops
  {
    if ops != [] {
      StepKeepsOrigins(g, ops[0], s256, life);
      RunKeepsOrigins(Step(g, ops[0], s256, life).0, ops[1..], s256, life);
    }
  }

  lemma InitialOrigins(services: map<string, Service>)
    ensures Origins(Initial(services))
  {
  }

  /** What a redeemed code says about the request it was issued for. */
  ghost predicate RedeemedFor(
    g: Gateway, id: string, code: Requests.Code, clientId: string, redirectUri: string, challenge: string)
  {
    && CodeFor(code, id, g.rows.requests, g.history.shown, g.receipts)
    && var r := g.rows.requests[id];
    && Slugs.Slug(clientId) == r.serviceCode && redirectUri == r.redirectUri && challenge == r.codeChallenge
  }

  lemma RedeemMatchesRequest(
    g: Gateway, codeHash: string, clientId: string, redirectUri: string, challenge: string, now: int,
    code: Requests.Code)
    requires Origins(g)
    requires RedeemStep(g, codeHash, clientId, redirectUri, challenge, now).1 == CodeRedeemed(codeHash, code)
    ensures codeHash in g.history.issuedFor
    ensures RedeemedFor(g, g.history.issuedFor[codeHash], code, clientId, redirectUri, challenge)
  {
    assert codeHash in g.rows.codes;
    assert CodeFor(g.rows.codes[codeHash], g.history.issuedFor[codeHash], g.rows.requests, g.history.shown, g.receipts);
  }

  /** In every reachable state a code that is redeemed was issued for an approved request: the client,
      the redirect URI and the challenge that the presented verifier matches are the request's, so are
      the scopes, and the subject is the identity whose consent page was shown for that request. */
  lemma RedeemedCodeIsItsRequests(
      services: map<string, Service>, ops: seq<Op>, s256: string -> string, life: Refreshing.Lifetimes,
      codeHash: string, clientId: string, redirectUri: string, verifier: string, now: int, code: Requests.Code)
    requires PossibleRun(Initial(services), ops, s256, life)
    requires var g := Run(Initial(services), ops, s256, life).0;
      RedeemStep(g, codeHash, clientId, redirectUri, s256(verifier), now).1 == CodeRedeemed(codeHash, code)
    ensures var g := Run(Initial(services), ops, s256, life).0;
      codeHash in g.history.issuedFor
          && RedeemedFor(g, g.history.issuedFor[codeHash], code, clientId, redirectUri, s256(verifier))
  {
    InitialOrigins(services);
    RunKeepsOrigins(Initial(services), ops, s256, life);
    RedeemMatchesRequest(
      Run(Initial(services), ops, s256, life).0, codeHash, clientId, redirectUri, s256(verifier), now, code);
  }

  /** An identity enters the history only as the verified subject whose consent page is shown. */
  lemma ShownIsVerified(g: Gateway, op: Op, s256: string -> string, life: Refreshing.Lifetimes, id: string)
    requires id in Step(g, op, s256, life).0.history.shown
    requires id in g.history.shown ==> g.history.shown[id] != Step(g, op, s256, life).0.history.shown[id]
    ensures var (g', event) := Step(g, op, s256, life);
      op.Authorizing? && op.a.Verify? && op.a.id == id && event == PageShown(id, op.a.subject)
          && g'.history.shown[id] == op.a.subject
  {
    match op
    case Authorizing(a) => AuthorizeShows(g, a, id);
    case Deciding(d) => DecisionFrame(g, d);
    case Tokens(t) => TokenFrame(g, t, s256, life);
    case Other(o) => OtherFrame(g, o, life);
  }

  lemma AuthorizeShows(g: Gateway, a: AuthorizeOp, id: string)
    requires id in AuthorizeStep(g, a).0.history.shown
    requires id in g.history.shown ==> g.history.shown[id] != AuthorizeStep(g, a).0.history.shown[id]
    ensures var (g', event) := AuthorizeStep(g, a);
      a.Verify? && a.id == id && event == PageShown(id, a.subject) && g'.history.shown[id] == a.subject
  {
    if a.Create? { CreateFrame(g, a.clientId, a.request, a.stateHash); }
    if a.Claim? { ClaimFrame(g, a.stateHash, a.placeholder, a.now); }
  }

  /** The assumption on deciders is needed: a decision between the claim and the verification gets
      a code for whatever subject the request holds then, the callback's placeholder. */
  lemma EarlyDecisionTakesPlaceholder(
      g: Gateway, id: string, freshId: string, evidence: string, expiresAt: int, codeHash: string, ttl: int, now: int)
    requires g.rows.Waiting(id, Requests.PendingConsent, now) && g.rows.requests[id].subjectId != ""
    ensures
      var g1 := DecideStep(g, id, g.rows.requests[id].approvalTokenHash, true, now).0;
      var g2 := RecordConsentStep(g1, id, freshId, evidence, expiresAt, now).0;
      var (g3, event) := IssueCodeStep(g2, id, codeHash, ttl, now);
      event == CodeIssued(id, codeHash) && codeHash in g3.rows.codes
          && g3.rows.codes[codeHash].subjectId == g.rows.requests[id].subjectId
  {
    var g1 := DecideStep(g, id, g.rows.requests[id].approvalTokenHash, true, now).0;
    assert g1.approvals[id].Approved? && g1.approvals[id].record.subjectId == g.rows.requests[id].subjectId;
    var g2 := RecordConsentStep(g1, id, freshId, evidence, expiresAt, now).0;
    assert g2.approvals[id].Consented? && g2.approvals[id].record == g1.approvals[id].record;
  }
}
