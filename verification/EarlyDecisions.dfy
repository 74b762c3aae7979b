/** Whose identity a decision approves: the verified one exactly if the identity callback of the request is no
    longer under way. Nothing is assumed of who decides, or when. */
module EarlyDecisions {
  import opened AuthorizationFlow
  import opened AuthorizationProgress
  import opened AuthorizationOrigin
  import Requests = OAuthAuthorizationStore
  import Refreshing = RefreshTokenStore

  /** Where a request's subject comes from: nowhere yet, the callback's claim, or its verification. */
  datatype Standing = Unclaimed | Claimed(subject: string) | Verified(subject: string)

  /** The callback claims the request. */
  predicate Claims(g: Gateway, stateHash: string, id: string, at: int) {
    stateHash in g.rows.byState && g.rows.byState[stateHash] == id && g.rows.Waiting(id, Requests.PendingIdentity, at)
  }

  /** The steps that store a subject, and what they store. */
  function Followed(g: Gateway, op: Op, id: string, standing: Standing): Standing {
    match op
    case Authorizing(Claim(stateHash, placeholder, now)) =>
      if Claims(g, stateHash, id, now) then Claimed(placeholder) else standing
    case Authorizing(Verify(claimed, subject, now)) =>
      if claimed == id && id in g.callbacks && g.rows.Waiting(id, Requests.PendingConsent, now)
      then Verified(subject) else standing
    case _ => standing
  }

  function Follow(
    g: Gateway, ops: seq<Op>, s256: string -> string, life: Refreshing.Lifetimes, id: string, standing: Standing)
    : Standing
    decreases ops
  {
    if ops == [] then standing
    else Follow(Step(g, ops[0], s256, life).0, ops[1..], s256, life, id, Followed(g, ops[0], id, standing))
  }

  /** Up to the consent page steps are possible ones; anyone may decide at any time. */
  ghost predicate FreshRun(g: Gateway, ops: seq<Op>, s256: string -> string, life: Refreshing.Lifetimes)
    decreases ops
  {
    ops == [] || (
      && (ops[0].Authorizing? ==> PossibleAuthorize(g, ops[0].a))
      && FreshRun(Step(g, ops[0], s256, life).0, ops[1..], s256, life))
  }

  /** The request's callback verifies by the time. */
  predicate VerifiesBy(op: Op, id: string, now: int) {
    op.Authorizing? && op.a.Verify? && op.a.id == id ==> op.a.now <= now
  }

  /** A claimed request that still awaits consent at the time has its callback under way; a verified one does
      not. */
  predicate Held(requests: RequestTable, callbacks: set<string>, id: string, standing: Standing, now: int) {
    && (id in callbacks ==> id in requests && standing.Claimed?)
    && match standing
       case Unclaimed => id in requests ==> requests[id].status == Requests.PendingIdentity
       case Claimed(subject) =>
         && id in requests && requests[id].subjectId == subject && requests[id].status != Requests.PendingIdentity
         && (requests[id].status == Requests.PendingConsent && requests[id].expiresAt > now ==> id in callbacks)
       case Verified(subject) =>
         && id in requests && requests[id].subjectId == subject && requests[id].status != Requests.PendingIdentity
  }

  lemma CreateHeld(
    g: Gateway, clientId: string, r: Requests.Authorization, stateHash: string, id: string, standing: Standing,
    now: int)
    requires Held(g.rows.requests, g.callbacks, id, standing, now) && r.requestId !in g.rows.requests
    ensures var g' := CreateStep(g, clientId, r, stateHash).0; Held(g'.rows.requests, g'.callbacks, id, standing, now)
  {
  }

  lemma CompletionChanges(rows: Requests.Rows, stateHash: string, placeholder: string, at: int)
    ensures var (rows', r) := rows.CompleteIdentity(stateHash, placeholder, at);
      if stateHash in rows.byState && rows.Waiting(rows.byState[stateHash], Requests.PendingIdentity, at)
      then
        var id := rows.byState[stateHash];
        r.Done? && rows'.requests ==
          rows.requests[id := rows.requests[id].(subjectId := placeholder, status := Requests.PendingConsent)]
      else r.Failed?
  {
  }

  lemma ClaimChanges(g: Gateway, stateHash: string, placeholder: string, at: int)
    ensures var g' := ClaimStep(g, stateHash, placeholder, at).0;
      if stateHash in g.rows.byState && Claims(g, stateHash, g.rows.byState[stateHash], at)
      then
        var id, requests := g.rows.byState[stateHash], g.rows.requests;
        && g'.callbacks == g.callbacks + {id}
        && g'.rows.requests ==
             requests[id := requests[id].(subjectId := placeholder, status := Requests.PendingConsent)]
      else g' == g
  {
    CompletionChanges(g.rows, stateHash, placeholder, at);
  }

  lemma ClaimHeld(
    g: Gateway, stateHash: string, placeholder: string, at: int, id: string, standing: Standing, now: int)
    requires Held(g.rows.requests, g.callbacks, id, standing, now)
    ensures var g' := ClaimStep(g, stateHash, placeholder, at).0;
      var standing' := Followed(g, Authorizing(Claim(stateHash, placeholder, at)), id, standing);
      Held(g'.rows.requests, g'.callbacks, id, standing', now)
  {
    ClaimChanges(g, stateHash, placeholder, at);
  }

  lemma VerifyChanges(g: Gateway, claimed: string, subject: string, at: int)
    ensures var g' := VerifyStep(g, claimed, subject, at).0;
      && g'.callbacks == g.callbacks - {claimed}
      && g'.rows.requests == if claimed in g.callbacks && g.rows.Waiting(claimed, Requests.PendingConsent, at)
           then g.rows.requests[claimed := g.rows.requests[claimed].(subjectId := subject)] else g.rows.requests
  {
  }

  lemma VerifyHeld(g: Gateway, claimed: string, subject: string, at: int, id: string, standing: Standing, now: int)
    requires Held(g.rows.requests, g.callbacks, id, standing, now) && (claimed == id ==> at <= now)
    ensures var g' := VerifyStep(g, claimed, subject, at).0;
      var standing' := Followed(g, Authorizing(Verify(claimed, subject, at)), id, standing);
      Held(g'.rows.requests, g'.callbacks, id, standing', now)
  {
    VerifyChanges(g, claimed, subject, at);
  }

  lemma DecideHeld(
    g: Gateway, decided: string, tokenHash: string, approve: bool, at: int, id: string, standing: Standing, now: int)
    requires Held(g.rows.requests, g.callbacks, id, standing, now)
    ensures var g' := DecideStep(g, decided, tokenHash, approve, at).0;
      Held(g'.rows.requests, g'.callbacks, id, standing, now)
  {
  }

  lemma AuthorizeHeld(g: Gateway, a: AuthorizeOp, id: string, standing: Standing, now: int)
    requires Held(g.rows.requests, g.callbacks, id, standing, now) && PossibleAuthorize(g, a)
    requires VerifiesBy(Authorizing(a), id, now)
    ensures var g' := AuthorizeStep(g, a).0;
      Held(g'.rows.requests, g'.callbacks, id, Followed(g, Authorizing(a), id, standing), now)
  {
    match a
    case Create(clientId, r, stateHash) => CreateHeld(g, clientId, r, stateHash, id, standing, now);
    case Claim(stateHash, placeholder, at) => ClaimHeld(g, stateHash, placeholder, at, id, standing, now);
    case Verify(claimed, subject, at) => VerifyHeld(g, claimed, subject, at, id, standing, now);
    case _ =>
  }

  lemma IssueKeepsRequests(g: Gateway, id: string, codeHash: string, ttl: int, now: int)
    ensures IssueCodeStep(g, id, codeHash, ttl, now).0.rows.requests == g.rows.requests
  {
  }

  lemma DecisionHeld(g: Gateway, d: DecisionOp, id: string, standing: Standing, now: int)
    requires Held(g.rows.requests, g.callbacks, id, standing, now)
    ensures var g' := DecisionStep(g, d).0; Held(g'.rows.requests, g'.callbacks, id, standing, now)
  {
    DecisionFrame(g, d);
    match d
    case Decide(decided, tokenHash, approve, at) => DecideHeld(g, decided, tokenHash, approve, at, id, standing, now);
    case RecordConsent(r, freshId, evidence, expiresAt, at) =>
      RecordConsentFrame(g, r, freshId, evidence, expiresAt, at);
    case IssueCode(r, codeHash, ttl, at) => IssueKeepsRequests(g, r, codeHash, ttl, at);
  }

  lemma StepHeld(
    g: Gateway, op: Op, s256: string -> string, life: Refreshing.Lifetimes, id: string, standing: Standing, now: int)
    requires Held(g.rows.requests, g.callbacks, id, standing, now) && VerifiesBy(op, id, now)
    requires op.Authorizing? ==> PossibleAuthorize(g, op.a)
    ensures var g' := Step(g, op, s256, life).0;
      Held(g'.rows.requests, g'.callbacks, id, Followed(g, op, id, standing), now)
  {
    match op
    case Authorizing(a) => AuthorizeHeld(g, a, id, standing, now);
    case Deciding(d) => DecisionHeld(g, d, id, standing, now);
    case Tokens(t) => TokenFrame(g, t, s256, life);
    case Other(o) => OtherFrame(g, o, life);
  }

  lemma {:induction false} RunHeld(
    g: Gateway, ops: seq<Op>, s256: string -> string, life: Refreshing.Lifetimes, id: string, standing: Standing,
    now: int)
    requires Held(g.rows.requests, g.callbacks, id, standing, now) && FreshRun(g, ops, s256, life)
    requires forall op <- ops :: VerifiesBy(op, id, now)
    ensures var g' := Run(g, ops, s256, life).0;
      Held(g'.rows.requests, g'.callbacks, id, Follow(g, ops, s256, life, id, standing), now)
    decreases ops
  {
    if ops != [] {
      StepHeld(g, ops[0], s256, life, id, standing, now);
      RunHeld(Step(g, ops[0], s256, life).0, ops[1..], s256, life, id, Followed(g, ops[0], id, standing), now);
    }
  }

  /** After any run a request that awaits consent can be decided, and the code then carries the verified
      identity if and only if the request's callback is no longer under way; else it carries the placeholder of
      the callback's claim. */
  lemma {:induction false} DecisionTakesVerifiedIff(
      services: map<string, Service>, ops: seq<Op>, s256: string -> string, life: Refreshing.Lifetimes, id: string,
      freshId: string, evidence: string, expiresAt: int, codeHash: string, ttl: int, now: int)
    requires FreshRun(Initial(services), ops, s256, life) && forall op <- ops :: VerifiesBy(op, id, now)
    requires var g := Run(Initial(services), ops, s256, life).0;
      g.rows.Waiting(id, Requests.PendingConsent, now) && g.rows.requests[id].subjectId != ""
    ensures
      var g := Run(Initial(services), ops, s256, life).0;
      var g1 := DecideStep(g, id, g.rows.requests[id].approvalTokenHash, true, now).0;
      var g2 := RecordConsentStep(g1, id, freshId, evidence, expiresAt, now).0;
      var (g3, event) := IssueCodeStep(g2, id, codeHash, ttl, now);
      var standing := Follow(Initial(services), ops, s256, life, id, Unclaimed);
      && event == CodeIssued(id, codeHash) && codeHash in g3.rows.codes
      && (standing == Verified(g3.rows.codes[codeHash].subjectId) <==> id !in g.callbacks)
      && (standing == Claimed(g3.rows.codes[codeHash].subjectId) <==> id in g.callbacks)
  {
    var g := Run(Initial(services), ops, s256, life).0;
    RunHeld(Initial(services), ops, s256, life, id, Unclaimed, now);
    EarlyDecisionTakesPlaceholder(g, id, freshId, evidence, expiresAt, codeHash, ttl, now);
  }
}
