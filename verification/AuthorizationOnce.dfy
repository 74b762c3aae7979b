/** Over every interleaving each request is decided at most once and gets at most one code,
    and each code and each pushed request is used at most once. */
module AuthorizationOnce {
  import opened Wrappers
  import opened AuthorizationFlow
  import opened AuthorizationProgress
  import Pushing = PushedAuthorizationRequestStore
  import Refreshing = RefreshTokenStore

  /** Something that may happen only once. */
  datatype Mark = Decision(id: string) | Issue(id: string) | Redemption(codeHash: string) | Use(uriHash: string)

  function MarkOf(e: Event): Option<Mark> {
    match e
    case Decided(id, _) => Some(Decision(id))
    case CodeIssued(id, _) => Some(Issue(id))
    case CodeRedeemed(codeHash, _) => Some(Redemption(codeHash))
    case UriUsed(uri) => Some(Use(uri))
    case _ => None
  }

  predicate Settled(requests: RequestTable, id: string) {
    id in requests && IsSettled(requests[id])
  }

  predicate Spent(codes: CodeTable, codeHash: string) {
    codeHash in codes && codes[codeHash].consumed
  }

  predicate Used(pushes: Pushing.Pushes, uriHash: string) {
    uriHash in pushes && pushes[uriHash].consumed
  }

  /** It has happened, and can happen no more. */
  predicate Past(g: Gateway, m: Mark) {
    match m
    case Decision(id) => Settled(g.rows.requests, id)
    case Issue(id) => Settled(g.rows.requests, id) && id !in g.approvals
    case Redemption(codeHash) => Spent(g.rows.codes, codeHash)
    case Use(uri) => Used(g.pushes, uri)
  }

  /** Only decided requests are being turned into codes. */
  ghost predicate ApprovalsSettled(requests: RequestTable, approvals: map<string, Approval>) {
    forall id <- approvals :: Settled(requests, id)
  }

  lemma SettledStays(requests: RequestTable, requests': RequestTable, id: string)
    requires RequestsLater(requests, requests') && Settled(requests, id)
    ensures Settled(requests', id)
  {
    assert RequestLater(requests[id], requests'[id]);
  }

  /** A request enters the approvals by its decision, and not when it is settled already. */
  lemma DecisionTakesUp(g: Gateway, op: DecisionOp, id: string)
    requires id in DecisionStep(g, op).0.approvals && id !in g.approvals
    ensures !Settled(g.rows.requests, id) && Settled(DecisionStep(g, op).0.rows.requests, id)
  {
    assert !op.RecordConsent? && !op.IssueCode?;
    assert op.id == id && g.rows.Decide(id, op.tokenHash, op.approve, op.now).1.Done?;
  }

  lemma TakenUp(g: Gateway, op: Op, s256: string -> string, life: Refreshing.Lifetimes, id: string)
    requires id in Step(g, op, s256, life).0.approvals && id !in g.approvals
    ensures !Settled(g.rows.requests, id) && Settled(Step(g, op, s256, life).0.rows.requests, id)
  {
    match op
    case Authorizing(a) => AuthorizeFrame(g, a);
    case Deciding(d) => DecisionTakesUp(g, d, id);
    case Tokens(t) => TokenFrame(g, t, s256, life);
    case Other(o) => OtherFrame(g, o, life);
  }

  lemma ApprovalsStaySettled(g: Gateway, op: Op, s256: string -> string, life: Refreshing.Lifetimes)
    requires Possible(g, op) && ApprovalsSettled(g.rows.requests, g.approvals)
    ensures var g' := Step(g, op, s256, life).0; ApprovalsSettled(g'.rows.requests, g'.approvals)
  {
    var g' := Step(g, op, s256, life).0;
    RequestsProgress(g, op, s256, life);
    forall id | id in g'.approvals ensures Settled(g'.rows.requests, id) {
      if id in g.approvals {
        SettledStays(g.rows.requests, g'.rows.requests, id);
      } else {
        TakenUp(g, op, s256, life, id);
      }
    }
  }

  lemma PastStays(g: Gateway, op: Op, s256: string -> string, life: Refreshing.Lifetimes, m: Mark)
    requires Possible(g, op) && Past(g, m)
    ensures Past(Step(g, op, s256, life).0, m)
  {
    var g' := Step(g, op, s256, life).0;
    RequestsProgress(g, op, s256, life);
    match m
    case Decision(id) => SettledStays(g.rows.requests, g'.rows.requests, id);
    case Issue(id) =>
      SettledStays(g.rows.requests, g'.rows.requests, id);
      if id in g'.approvals { TakenUp(g, op, s256, life, id); }
    case Redemption(codeHash) => CodesProgress(g, op, s256, life);
    case Use(uri) => PushesProgress(g, op, s256, life);
  }

  lemma DecisionHappensOnce(g: Gateway, op: DecisionOp, m: Mark)
    requires ApprovalsSettled(g.rows.requests, g.approvals) && MarkOf(DecisionStep(g, op).1) == Some(m)
    ensures !Past(g, m) && Past(DecisionStep(g, op).0, m)
  {
  }

  lemma RedemptionHappensOnce(g: Gateway, op: TokenOp, s256: string -> string, life: Refreshing.Lifetimes, m: Mark)
    requires MarkOf(TokenStep(g, op, s256, life).1) == Some(m)
    ensures !Past(g, m) && Past(TokenStep(g, op, s256, life).0, m)
  {
    assert op.Redeem?;
  }

  /** When it happens, it had not happened before. */
  lemma HappensOnce(g: Gateway, op: Op, s256: string -> string, life: Refreshing.Lifetimes, m: Mark)
    requires ApprovalsSettled(g.rows.requests, g.approvals) && MarkOf(Step(g, op, s256, life).1) == Some(m)
    ensures !Past(g, m) && Past(Step(g, op, s256, life).0, m)
  {
    match op
    case Authorizing(a) => assert a.UseUri?;
    case Deciding(d) => DecisionHappensOnce(g, d, m);
    case Tokens(t) => RedemptionHappensOnce(g, t, s256, life, m);
    case Other(o) =>
  }

  lemma {:induction false} PastIsOver(
    g: Gateway, ops: seq<Op>, s256: string -> string, life: Refreshing.Lifetimes, m: Mark, j: nat)
    requires PossibleRun(g, ops, s256, life) && ApprovalsSettled(g.rows.requests, g.approvals) && Past(g, m)
    requires j < |Run(g, ops, s256, life).1|
    ensures MarkOf(Run(g, ops, s256, life).1[j]) != Some(m)
    decreases ops
  {
    var (g1, event) := Step(g, ops[0], s256, life);
    if j > 0 {
      PastStays(g, ops[0], s256, life, m);
      ApprovalsStaySettled(g, ops[0], s256, life);
      PastIsOver(g1, ops[1..], s256, life, m, j - 1);
    } else if MarkOf(event).Some? {
      HappensOnce(g, ops[0], s256, life, MarkOf(event).value);
    }
  }

  /** No decision, code, redemption or use of a pushed request happens twice in any run. */
  lemma {:induction false} AtMostOnce(
    g: Gateway, ops: seq<Op>, s256: string -> string, life: Refreshing.Lifetimes, i: nat, j: nat)
    requires PossibleRun(g, ops, s256, life) && ApprovalsSettled(g.rows.requests, g.approvals)
    requires i < j < |Run(g, ops, s256, life).1| && MarkOf(Run(g, ops, s256, life).1[i]).Some?
    ensures MarkOf(Run(g, ops, s256, life).1[j]) != MarkOf(Run(g, ops, s256, life).1[i])
    decreases ops
  {
    var (g1, event) := Step(g, ops[0], s256, life);
    ApprovalsStaySettled(g, ops[0], s256, life);
    if i > 0 {
      AtMostOnce(g1, ops[1..], s256, life, i - 1, j - 1);
    } else {
      HappensOnce(g, ops[0], s256, life, MarkOf(event).value);
      PastIsOver(g1, ops[1..], s256, life, MarkOf(event).value, j - 1);
    }
  }

  // ------------------------------------------------------------------- deadlines

  /** The event came before the deadline of what it used: the request, the pushed request, the code or the token. */
  predicate InTime(g: Gateway, e: Event, now: int) {
    match e
    case UriUsed(uri) => uri in g.pushes && g.pushes[uri].expiresAt > now
    case PageShown(id, _) => id in g.rows.requests && g.rows.requests[id].expiresAt > now
    case Decided(id, _) => id in g.rows.requests && g.rows.requests[id].expiresAt > now
    case CodeRedeemed(codeHash, _) => codeHash in g.rows.codes && g.rows.codes[codeHash].expiresAt > now
    case Judged(token, Admitted) => token.exp * 1000 > now
    case _ => true
  }

  /** The clock reading of a step that is given one. */
  function TimeOf(op: Op): Option<int> {
    match op
    case Authorizing(UseUri(_, _, now)) => Some(now)
    case Authorizing(Claim(_, _, now)) => Some(now)
    case Authorizing(Verify(_, _, now)) => Some(now)
    case Deciding(Decide(_, _, _, now)) => Some(now)
    case Tokens(Redeem(_, _, _, _, now)) => Some(now)
    case Other(Admit(_, _, _, now)) => Some(now)
    case _ => None
  }

  lemma AuthorizeInTime(g: Gateway, a: AuthorizeOp, now: int)
    requires TimeOf(Authorizing(a)) == Some(now)
    ensures InTime(g, AuthorizeStep(g, a).1, now)
  {
  }

  lemma DecideInTime(g: Gateway, d: DecisionOp, now: int)
    requires TimeOf(Deciding(d)) == Some(now)
    ensures InTime(g, DecisionStep(g, d).1, now)
  {
  }

  lemma RedeemInTime(g: Gateway, t: TokenOp, now: int, s256: string -> string, life: Refreshing.Lifetimes)
    requires TimeOf(Tokens(t)) == Some(now)
    ensures InTime(g, TokenStep(g, t, s256, life).1, now)
  {
  }

  /** No pushed request, page, decision, code or token is accepted at or after its expiry. */
  lemma NothingHappensLate(g: Gateway, op: Op, s256: string -> string, life: Refreshing.Lifetimes, now: int)
    requires TimeOf(op) == Some(now)
    ensures InTime(g, Step(g, op, s256, life).1, now)
  {
    match op
    case Authorizing(a) => AuthorizeInTime(g, a, now);
    case Deciding(d) => DecideInTime(g, d, now);
    case Tokens(t) => RedeemInTime(g, t, now, s256, life);
    case Other(o) =>
  }
}
