/** What two services whose codes clash do to each other's scope requests: the states from which some run
    breaks an open request, exactly, and a run from the empty portal that gets there. */
module CodeClashes {
  import opened Environments
  import opened Lists
  import opened Strings
  import opened Slugs
  import opened DeveloperPortalStore
  import opened ServiceCodes
  import opened ScopeLifecycle
  import opened OpenRequests

  // ------------------------------------------------------------- what may happen

  /** The scopes a service may have. */
  const SCOPES: set<string> := {
    "identity:resolve", "business_registration:create", "user:provision", "payment_profile:create",
    "payment_profile:read", "payments:create", "escrow:create", "escrow:read", "escrow:release:request",
    "escrow:refund:request", "escrow:dispute:create", "withdrawal:request", "balance:read", "webhooks:receive"
  }

  /** Ids are new when they are drawn, and who asks for scopes asks for at least one, from the given ones. */
  predicate Possible(p: Portal, op: Op, all: set<string>) {
    match op
    case Applying(a) =>
      && (forall b <- p.applications :: b.applicationId != a.applicationId)
      && a.requestedScopes != [] && forall scope <- a.requestedScopes :: scope in all
    case Requesting(_, _, scopes, freshId) =>
      && (forall r <- p.scopeRequests :: r.requestId != freshId)
      && scopes != [] && forall scope <- scopes :: scope in all
    case RequestingRotation(_, _, freshId) => forall r <- p.rotations :: r.rotationId != freshId
    case _ => true
  }

  ghost predicate PossibleRun(p: Portal, ops: seq<Op>, all: set<string>)
    decreases ops
  {
    ops == [] || (Possible(p, ops[0], all) && PossibleRun(Step(p, ops[0]), ops[1..], all))
  }

  predicate NoApprovals(ops: seq<Op>) {
    forall op <- ops :: !op.Approving?
  }

  /** A possible run without approvals. */
  ghost predicate Leads(p: Portal, ops: seq<Op>, p': Portal, all: set<string>) {
    NoApprovals(ops) && PossibleRun(p, ops, all) && Run(p, ops) == p'
  }

  lemma {:induction false} RunAppend(p: Portal, a: seq<Op>, b: seq<Op>, all: set<string>)
    ensures Run(p, a + b) == Run(Run(p, a), b)
    ensures PossibleRun(p, a + b, all) <==> PossibleRun(p, a, all) && PossibleRun(Run(p, a), b, all)
    decreases a
  {
    if a == [] {
      assert a + b == b;
    } else {
      assert (a + b)[1..] == a[1..] + b;
      RunAppend(Step(p, a[0]), a[1..], b, all);
    }
  }

  lemma RunOne(p: Portal, op: Op, all: set<string>)
    ensures Run(p, [op]) == Step(p, op)
    ensures PossibleRun(p, [op], all) <==> Possible(p, op, all)
  {
    assert [op][1..] == [];
  }

  lemma LeadsOn(p: Portal, a: seq<Op>, p1: Portal, b: seq<Op>, p2: Portal, all: set<string>)
    requires Leads(p, a, p1, all) && Leads(p1, b, p2, all)
    ensures Leads(p, a + b, p2, all)
  {
    RunAppend(p, a, b, all);
  }

  // ----------------------------------------------------------- ids stay distinct

  ghost predicate DistinctIds(requests: seq<ScopeRequest>) {
    forall i, j :: 0 <= i < j < |requests| ==> requests[i].requestId != requests[j].requestId
  }

  lemma StepKeepsIds(p: Portal, op: Op, all: set<string>)
    requires DistinctIds(p.scopeRequests) && Possible(p, op, all)
    ensures DistinctIds(Step(p, op).scopeRequests)
  {
    match op
    case Approving(id, code, active, grant) => var n, c := ApproveShape(p, id, code, active, grant);
    case Requesting(code, environment, scopes, freshId) =>
      assert forall i :: 0 <= i < |p.scopeRequests| ==> p.scopeRequests[i] in p.scopeRequests;
    case DecidingRequest(id, approve) => var i, n := DecideShape(p, id, approve);
    case _ => StepKeepsScopes(p, op);
  }

  lemma {:induction false} RunKeepsIds(p: Portal, ops: seq<Op>, all: set<string>)
    requires DistinctIds(p.scopeRequests) && PossibleRun(p, ops, all)
    ensures DistinctIds(Run(p, ops).scopeRequests)
    decreases ops
  {
    if ops != [] {
      StepKeepsIds(p, ops[0], all);
      RunKeepsIds(Step(p, ops[0]), ops[1..], all);
    }
  }

  lemma {:induction false} FoundById(requests: seq<ScopeRequest>, i: nat)
    requires DistinctIds(requests) && i < |requests|
    ensures IndexOfRequest(requests, requests[i].requestId) == i
  {
    if i > 0 { FoundById(requests[1..], i - 1); }
  }

  // ------------------------------------------------------------- contested scopes

  /** The request is open, for the scope and the service with the code, in one of the environments. */
  predicate Asks(r: ScopeRequest, code: string, scope: string, environments: seq<Environment>) {
    r.status == PendingReview && r.serviceCode == code && scope in r.requestedScopes && r.environment in environments
  }

  predicate Asked(p: Portal, s: Service, scope: string, environments: seq<Environment>) {
    exists r <- p.scopeRequests :: Asks(r, s.serviceCode, scope, environments)
  }

  predicate Free(s: Service, scope: string) {
    scope !in s.scopesGranted && scope !in s.scopesPending
  }

  /** The service can ask for the scope, or has asked in one of the environments and awaits the decision. */
  predicate CanAsk(p: Portal, s: Service, scope: string, environments: seq<Environment>, all: set<string>) {
    (scope in all && Free(s, scope)) || Asked(p, s, scope, environments)
  }

  /** The services clash, and each can have an open request for the scope in an environment of the second. */
  ghost predicate Contested(p: Portal, s: Service, t: Service, scope: string, all: set<string>) {
    Clash(s, t) && CanAsk(p, s, scope, t.environments, all) && CanAsk(p, t, scope, t.environments, all)
  }

  ghost predicate Uncontested(p: Portal, all: set<string>) {
    forall m, n, scope :: 0 <= m < |p.services| && 0 <= n < |p.services| ==>
      !Contested(p, p.services[m], p.services[n], scope, all)
  }

  /** A code that slugging changes is found under another code, which slugging leaves alone. */
  lemma ClashOnce(s: Service, t: Service, u: Service, v: Service)
    requires Clash(s, t) && Clash(u, v)
    ensures t.serviceCode != u.serviceCode
    ensures t.serviceCode == v.serviceCode ==> s.serviceCode == u.serviceCode
  {
    ChangedSlug(s.serviceCode);
    ChangedSlug(u.serviceCode);
    var a, b := s.serviceCode, u.serviceCode;
    if t.serviceCode == v.serviceCode {
      assert a == a[..|a| - 1] + [a[|a| - 1]] && b == b[..|b| - 1] + [b[|b| - 1]];
    }
  }

  // ------------------------------------- without contest, every step keeps requests sound

  /** No service can ask for more than before. */
  lemma FewerUncontested(p: Portal, p': Portal, all: set<string>)
    requires Uncontested(p, all) && FacesKept(p.services, p'.services)
    requires forall k, scope, e :: 0 <= k < |p.services| && CanAsk(p', p'.services[k], scope, e, all) ==>
      CanAsk(p, p.services[k], scope, e, all)
    ensures Uncontested(p', all)
  {
    forall m, n, scope | 0 <= m < |p'.services| && 0 <= n < |p'.services|
      ensures !Contested(p', p'.services[m], p'.services[n], scope, all)
    {
      assert !Contested(p, p.services[m], p.services[n], scope, all);
    }
  }

  lemma SameUncontested(p: Portal, p': Portal, all: set<string>)
    requires Uncontested(p, all)
    requires AllSameScopes(p.services, p'.services) && p'.scopeRequests == p.scopeRequests
    ensures Uncontested(p', all)
  {
    SameKeepsFaces(p.services, p'.services);
    forall k, scope, e | 0 <= k < |p.services| && CanAsk(p', p'.services[k], scope, e, all)
      ensures CanAsk(p, p.services[k], scope, e, all)
    {
      assert SameScopes(p.services[k], p'.services[k]);
    }
    FewerUncontested(p, p', all);
  }

  /** What a new request asks for was free. */
  lemma SubmitAsksNoMore(
    p: Portal, code: string, environment: Environment, scopes: seq<string>, freshId: string, k: nat, scope: string,
    e: seq<Environment>, all: set<string>)
    requires DistinctCodes(p.services) && k < |p.services| && forall x <- scopes :: x in all
    requires var p' := SubmitRequest(p, code, environment, scopes, freshId).0;
      k < |p'.services| && CanAsk(p', p'.services[k], scope, e, all)
    ensures CanAsk(p, p.services[k], scope, e, all)
  {
    var (p', outcome) := SubmitRequest(p, code, environment, scopes, freshId);
    if outcome == Done {
      var n := Lookup(p.services, code);
      UniqueLaws(p.services[n].scopesPending + scopes);
      if !Free(p'.services[k], scope) {
        var r :| r in p'.scopeRequests && Asks(r, p'.services[k].serviceCode, scope, e);
        if r !in p.scopeRequests {
          assert r == p'.scopeRequests[0] && k == n;
          assert Free(p.services[n], scope);
        }
      }
    }
  }

  lemma SubmitKeepsUncontested(
    p: Portal, code: string, environment: Environment, scopes: seq<string>, freshId: string, all: set<string>)
    requires DistinctCodes(p.services) && Uncontested(p, all) && forall x <- scopes :: x in all
    ensures Uncontested(SubmitRequest(p, code, environment, scopes, freshId).0, all)
  {
    var p' := SubmitRequest(p, code, environment, scopes, freshId).0;
    SubmitKeepsFaces(p, code, environment, scopes, freshId);
    forall k, scope, e | 0 <= k < |p.services| && CanAsk(p', p'.services[k], scope, e, all)
      ensures CanAsk(p, p.services[k], scope, e, all)
    {
      SubmitAsksNoMore(p, code, environment, scopes, freshId, k, scope, e, all);
    }
    FewerUncontested(p, p', all);
  }

  /** A decision adds no open request. */
  lemma DecidedAsks(p: Portal, p': Portal, i: nat, n: nat, approve: bool, k: nat, scope: string, e: seq<Environment>)
    requires DecidedAt(p, p', i, n, approve) && k < |p.services| && Asked(p', p'.services[k], scope, e)
    ensures Asked(p, p.services[k], scope, e)
  {
    var r :| r in p'.scopeRequests && Asks(r, p'.services[k].serviceCode, scope, e);
    assert r in p.scopeRequests;
  }

  /** Besides what was free, only the decided scopes can become free, and only where the decision lands. */
  lemma DecidedCanAsk(
    p: Portal, p': Portal, i: nat, n: nat, approve: bool, k: nat, scope: string, e: seq<Environment>, all: set<string>)
    requires DecidedAt(p, p', i, n, approve) && k < |p.services| && CanAsk(p', p'.services[k], scope, e, all)
    ensures CanAsk(p, p.services[k], scope, e, all) || (k == n && scope in p.scopeRequests[i].requestedScopes)
  {
    DecisionMovesExactly(p.services[n], p.scopeRequests[i].requestedScopes, approve);
    if !Free(p'.services[k], scope) { DecidedAsks(p, p', i, n, approve, k, scope, e); }
  }

  /** A decision on the request's own service, which is found under its code. */
  lemma DecidedOwnUncontested(p: Portal, p': Portal, i: nat, n: nat, approve: bool, all: set<string>)
    requires RequestsSound(p) && Uncontested(p, all) && DecidedAt(p, p', i, n, approve)
    requires p.services[n].serviceCode == p.scopeRequests[i].serviceCode
    requires p.scopeRequests[i].environment in p.services[n].environments
    ensures Uncontested(p', all)
  {
    var r := p.scopeRequests[i];
    forall a, b, scope | 0 <= a < |p'.services| && 0 <= b < |p'.services|
      ensures !Contested(p', p'.services[a], p'.services[b], scope, all)
    {
      if Contested(p', p'.services[a], p'.services[b], scope, all) {
        var e := p.services[b].environments;
        assert Clash(p.services[a], p.services[b]) && a != n;
        DecidedCanAsk(p, p', i, n, approve, a, scope, e, all);
        DecidedCanAsk(p, p', i, n, approve, b, scope, e, all);
        if !CanAsk(p, p.services[b], scope, e, all) {
          assert Asks(r, p.services[b].serviceCode, scope, e);
          assert r in p.scopeRequests;
        }
        assert Contested(p, p.services[a], p.services[b], scope, all);
      }
    }
  }

  /** A decision that lands on the service the request's own service clashes with: that one can no longer
      ask for the scopes, which stay pending on it. */
  lemma DecidedElsewhereAsks(p: Portal, p': Portal, i: nat, m: nat, n: nat, approve: bool, scope: string,
    e: seq<Environment>, all: set<string>)
    requires RequestsSound(p) && DistinctCodes(p.services) && DecidedAt(p, p', i, n, approve) && m < |p.services|
    requires m != n && p.services[m].serviceCode == p.scopeRequests[i].serviceCode
    requires scope in p.scopeRequests[i].requestedScopes
    ensures !CanAsk(p', p'.services[m], scope, e, all)
  {
    var r := p.scopeRequests[i];
    IndexOfDistinct(p.services, m);
    assert Pending(p.services, r);
    if CanAsk(p', p'.services[m], scope, e, all) {
      var q :| q in p'.scopeRequests && Asks(q, p.services[m].serviceCode, scope, e);
      var j :| 0 <= j < |p'.scopeRequests| && p'.scopeRequests[j] == q;
      assert j != i && Competing(p.scopeRequests[j], r) && Competing(r, p.scopeRequests[j]);
    }
  }

  lemma DecidedElsewhereUncontested(p: Portal, p': Portal, i: nat, m: nat, n: nat, approve: bool, all: set<string>)
    requires RequestsSound(p) && Uncontested(p, all) && DecidedAt(p, p', i, n, approve) && m < |p.services|
    requires p.services[m].serviceCode == p.scopeRequests[i].serviceCode
    requires Clash(p.services[m], p.services[n])
    ensures Uncontested(p', all)
  {
    forall a, b, scope | 0 <= a < |p'.services| && 0 <= b < |p'.services|
      ensures !Contested(p', p'.services[a], p'.services[b], scope, all)
    {
      if Contested(p', p'.services[a], p'.services[b], scope, all) {
        var e := p.services[b].environments;
        ClashOnce(p.services[m], p.services[n], p.services[a], p.services[b]);
        assert a != n && (b == n ==> a == m);
        if b == n && scope in p.scopeRequests[i].requestedScopes {
          DecidedElsewhereAsks(p, p', i, m, n, approve, scope, e, all);
        } else {
          DecidedCanAsk(p, p', i, n, approve, a, scope, e, all);
          DecidedCanAsk(p, p', i, n, approve, b, scope, e, all);
          assert Contested(p, p.services[a], p.services[b], scope, all);
        }
      }
    }
  }

  /** Without contest it takes no scope from an open request of the service it lands on. */
  lemma DecidedElsewherePending(
    p: Portal, p': Portal, i: nat, m: nat, n: nat, approve: bool, j: nat, all: set<string>)
    requires RequestsSound(p) && Uncontested(p, all) && DecidedAt(p, p', i, n, approve) && m < |p.services|
    requires p.services[m].serviceCode == p.scopeRequests[i].serviceCode
    requires Clash(p.services[m], p.services[n]) && p.scopeRequests[i].environment in p.services[n].environments
    requires j < |p.scopeRequests| && j != i && p.scopeRequests[j].status == PendingReview
    ensures Pending(p'.services, p.scopeRequests[j])
  {
    var r, q, s := p.scopeRequests[i], p.scopeRequests[j], p.services[n];
    assert Pending(p.services, q);
    WithoutLaws(s.scopesPending, r.requestedScopes);
    if IndexOf(p.services, q.serviceCode) == n {
      forall scope | scope in q.requestedScopes ensures scope !in r.requestedScopes {
        if scope in r.requestedScopes {
          assert Asks(r, p.services[m].serviceCode, scope, s.environments) && r in p.scopeRequests;
          assert Asks(q, s.serviceCode, scope, s.environments) && q in p.scopeRequests;
          assert Contested(p, p.services[m], p.services[n], scope, all);
        }
      }
    }
    StillPending(p.services, n, WithDecision(s, r.requestedScopes, approve), q);
  }

  lemma DecidedElsewhereSound(p: Portal, p': Portal, i: nat, m: nat, n: nat, approve: bool, all: set<string>)
    requires RequestsSound(p) && Uncontested(p, all) && DecidedAt(p, p', i, n, approve) && m < |p.services|
    requires p.services[m].serviceCode == p.scopeRequests[i].serviceCode
    requires Clash(p.services[m], p.services[n]) && p.scopeRequests[i].environment in p.services[n].environments
    ensures RequestsSound(p')
  {
    PutKeepsDistinct(p.services, n, WithDecision(p.services[n], p.scopeRequests[i].requestedScopes, approve));
    DecideKeepsApart(p.scopeRequests, i, if approve then Approved else Declined);
    forall j | 0 <= j < |p'.scopeRequests| && p'.scopeRequests[j].status == PendingReview
      ensures Pending(p'.services, p'.scopeRequests[j])
    {
      DecidedElsewherePending(p, p', i, m, n, approve, j, all);
    }
  }

  lemma DecideKeepsUncontested(p: Portal, id: string, approve: bool, all: set<string>)
    requires RequestsSound(p) && Uncontested(p, all)
    ensures RequestsSound(DecideRequest(p, id, approve).0) && Uncontested(DecideRequest(p, id, approve).0, all)
  {
    var i, n := DecideShape(p, id, approve);
    var (p', outcome) := DecideRequest(p, id, approve);
    if outcome == Done {
      DecidedEnvironment(p, id, approve);
      DecisionFindsOwn(p, p', i, n, approve);
      var m := IndexOf(p.services, p.scopeRequests[i].serviceCode);
      if m == n {
        DecidedRequestsSound(p, p', i, n, approve);
        DecidedOwnUncontested(p, p', i, n, approve, all);
      } else {
        DecidedElsewhereSound(p, p', i, m, n, approve, all);
        DecidedElsewhereUncontested(p, p', i, m, n, approve, all);
      }
    }
  }

  lemma StepKeepsUncontested(p: Portal, op: Op, all: set<string>)
    requires RequestsSound(p) && Uncontested(p, all) && !op.Approving? && Possible(p, op, all)
    ensures RequestsSound(Step(p, op)) && Uncontested(Step(p, op), all)
  {
    match op
    case Requesting(code, environment, scopes, freshId) =>
      SubmitKeepsRequests(p, code, environment, scopes, freshId);
      SubmitKeepsUncontested(p, code, environment, scopes, freshId, all);
    case DecidingRequest(id, approve) => DecideKeepsUncontested(p, id, approve, all);
    case _ =>
      StepKeepsScopes(p, op);
      SameKeepsRequests(p, Step(p, op));
      SameUncontested(p, Step(p, op), all);
  }

  /** Without contest requests stay sound in every possible run that makes no service. */
  lemma {:induction false} RunKeepsUncontested(p: Portal, ops: seq<Op>, all: set<string>)
    requires RequestsSound(p) && Uncontested(p, all) && NoApprovals(ops) && PossibleRun(p, ops, all)
    ensures RequestsSound(Run(p, ops)) && Uncontested(Run(p, ops), all)
    decreases ops
  {
    if ops != [] {
      StepKeepsUncontested(p, ops[0], all);
      RunKeepsUncontested(Step(p, ops[0]), ops[1..], all);
    }
  }

  // ------------------------------------------------- with contest, some run breaks them

  /** With distinct codes, a service is found under every text whose slug its code is. */
  lemma Found(services: seq<Service>, k: nat, x: string)
    requires DistinctCodes(services) && k < |services| && Slug(x) == services[k].serviceCode
    ensures Lookup(services, x) == k
  {
    IndexOfDistinct(services, k);
  }

  /** A service is made active; scopes and requests stay. */
  lemma Activated(p: Portal, k: nat, x: string, all: set<string>) returns (ops: seq<Op>, p': Portal)
    requires DistinctCodes(p.services) && k < |p.services| && Slug(x) == p.services[k].serviceCode
    ensures Leads(p, ops, p', all)
    ensures p' == p.(services := p.services[k := p.services[k].(status := Active)])
  {
    Found(p.services, k, x);
    ops, p' := [ChangingStatus(x, Active)], Step(p, ChangingStatus(x, Active));
    RunOne(p, ops[0], all);
  }

  /** Another state with the same services but for scopes of the `k`-th, in which every request is still there. */
  ghost predicate AskedMore(p: Portal, p': Portal, k: nat) {
    && k < |p.services| && FacesKept(p.services, p'.services) && DistinctIds(p'.scopeRequests)
    && (forall j :: 0 <= j < |p.services| ==> p'.services[j].status == p.services[j].status)
    && (forall j :: 0 <= j < |p.services| && j != k ==> p'.services[j] == p.services[j])
    && forall r <- p.scopeRequests :: r in p'.scopeRequests
  }

  /** A service that can ask for a scope gets to have an open request for it. */
  lemma AskingFor(p: Portal, k: nat, x: string, scope: string, e: Environment, es: seq<Environment>, all: set<string>)
    returns (ops: seq<Op>, p': Portal)
    requires DistinctCodes(p.services) && DistinctIds(p.scopeRequests)
    requires k < |p.services| && Slug(x) == p.services[k].serviceCode && p.services[k].status == Active
    requires e in p.services[k].environments && e in es && CanAsk(p, p.services[k], scope, es, all)
    ensures Leads(p, ops, p', all) && AskedMore(p, p', k) && Asked(p', p'.services[k], scope, es)
  {
    if Asked(p, p.services[k], scope, es) {
      ops, p' := [], p;
    } else {
      Found(p.services, k, x);
      var id := FreshString(set r | r in p.scopeRequests :: r.requestId);
      var op := Requesting(x, e, [scope], id);
      ops, p' := [op], Step(p, op);
      assert Possible(p, op, all) by {
        forall r | r in p.scopeRequests ensures r.requestId != id {
          assert r.requestId in set r | r in p.scopeRequests :: r.requestId;
        }
      }
      RunOne(p, op, all);
      StepKeepsIds(p, op, all);
      SubmitKeepsFaces(p, x, e, [scope], id);
      assert Asks(p'.scopeRequests[0], p'.services[k].serviceCode, scope, es);
    }
  }

  lemma NoLongerPending(p: Portal, p': Portal, i: nat, n: nat, q: ScopeRequest, scope: string)
    requires DistinctCodes(p.services) && DecidedAt(p, p', i, n, false)
    requires q in p.scopeRequests && q != p.scopeRequests[i] && q.status == PendingReview
    requires q.serviceCode == p.services[n].serviceCode
    requires scope in q.requestedScopes && scope in p.scopeRequests[i].requestedScopes
    ensures !RequestsPending(p'.scopeRequests, p'.services)
  {
    var j :| 0 <= j < |p.scopeRequests| && p.scopeRequests[j] == q;
    assert p'.scopeRequests[j] == q;
    WithoutLaws(p.services[n].scopesPending, p.scopeRequests[i].requestedScopes);
    IndexOfDistinct(p'.services, n);
    assert !Pending(p'.services, q);
  }

  /** Declining an open request of a service that another one is found for. */
  lemma DeclineLands(p: Portal, i: nat, n: nat, all: set<string>) returns (ops: seq<Op>, p': Portal)
    requires DistinctCodes(p.services) && DistinctIds(p.scopeRequests) && i < |p.scopeRequests| && n < |p.services|
    requires p.scopeRequests[i].status == PendingReview && p.services[n].status == Active
    requires Slug(p.scopeRequests[i].serviceCode) == p.services[n].serviceCode
    requires p.scopeRequests[i].environment in p.services[n].environments
    ensures Leads(p, ops, p', all) && DecidedAt(p, p', i, n, false)
  {
    var op := DecidingRequest(p.scopeRequests[i].requestId, false);
    FoundById(p.scopeRequests, i);
    Found(p.services, n, p.scopeRequests[i].serviceCode);
    RunOne(p, op, all);
    ops, p' := [op], Step(p, op);
  }

  /** Both have an open request for the scope: declining the first one's takes it from the other one's. */
  lemma DecliningBreaks(p: Portal, m: nat, n: nat, scope: string, all: set<string>) returns (ops: seq<Op>, p': Portal)
    requires DistinctCodes(p.services) && DistinctIds(p.scopeRequests)
    requires m < |p.services| && n < |p.services| && Clash(p.services[m], p.services[n])
    requires p.services[n].status == Active
    requires Asked(p, p.services[m], scope, p.services[n].environments)
    requires Asked(p, p.services[n], scope, p.services[n].environments)
    ensures Leads(p, ops, p', all) && !RequestsPending(p'.scopeRequests, p'.services)
  {
    var es := p.services[n].environments;
    var r :| r in p.scopeRequests && Asks(r, p.services[m].serviceCode, scope, es);
    var q :| q in p.scopeRequests && Asks(q, p.services[n].serviceCode, scope, es);
    var i :| 0 <= i < |p.scopeRequests| && p.scopeRequests[i] == r;
    ops, p' := DeclineLands(p, i, n, all);
    NoLongerPending(p, p', i, n, q, scope);
  }

  /** Both services made active. */
  lemma BothActive(p: Portal, m: nat, n: nat, x: string, all: set<string>) returns (ops: seq<Op>, p': Portal)
    requires DistinctCodes(p.services) && m < |p.services| && n < |p.services| && m != n
    requires Slug(x) == p.services[m].serviceCode && Slug(p.services[m].serviceCode) == p.services[n].serviceCode
    ensures Leads(p, ops, p', all) && AllSameScopes(p.services, p'.services) && p'.scopeRequests == p.scopeRequests
    ensures p'.services[m].status == p'.services[n].status == Active
  {
    var a, p1 := Activated(p, m, x, all);
    var b, p2 := Activated(p1, n, p.services[m].serviceCode, all);
    LeadsOn(p, a, p1, b, p2, all);
    ops, p' := a + b, p2;
  }

  /** Both get to have an open request for the scope. */
  lemma BothAsking(p: Portal, m: nat, n: nat, x: string, e: Environment, scope: string, all: set<string>)
    returns (ops: seq<Op>, p': Portal)
    requires DistinctCodes(p.services) && DistinctIds(p.scopeRequests)
    requires m < |p.services| && n < |p.services| && Contested(p, p.services[m], p.services[n], scope, all)
    requires p.services[m].status == p.services[n].status == Active
    requires Slug(x) == p.services[m].serviceCode
    requires e in p.services[m].environments && e in p.services[n].environments
    ensures Leads(p, ops, p', all) && FacesKept(p.services, p'.services) && DistinctIds(p'.scopeRequests)
    ensures p'.services[n].status == Active
    ensures Asked(p', p'.services[m], scope, p.services[n].environments)
    ensures Asked(p', p'.services[n], scope, p.services[n].environments)
  {
    var es := p.services[n].environments;
    var a, p1 := AskingFor(p, n, p.services[m].serviceCode, scope, e, es, all);
    StillCanAsk(p, p1, n, m, scope, es, all);
    var b, p2 := AskingFor(p1, m, x, scope, e, es, all);
    StillAsked(p1, p2, m, n, scope, es);
    LeadsOn(p, a, p1, b, p2, all);
    ops, p' := a + b, p2;
  }

  lemma StillAsked(p: Portal, p': Portal, k: nat, j: nat, scope: string, es: seq<Environment>)
    requires AskedMore(p, p', k) && j < |p.services| && Asked(p, p.services[j], scope, es)
    ensures Asked(p', p'.services[j], scope, es)
  {
    var r :| r in p.scopeRequests && Asks(r, p.services[j].serviceCode, scope, es);
    assert r in p'.scopeRequests;
  }

  lemma StillCanAsk(p: Portal, p': Portal, k: nat, j: nat, scope: string, es: seq<Environment>, all: set<string>)
    requires AskedMore(p, p', k) && j < |p.services| && j != k && CanAsk(p, p.services[j], scope, es, all)
    ensures CanAsk(p', p'.services[j], scope, es, all)
  {
    if Asked(p, p.services[j], scope, es) { StillAsked(p, p', k, j, scope, es); }
  }

  lemma StillContested(p: Portal, p': Portal, m: nat, n: nat, scope: string, all: set<string>)
    requires AllSameScopes(p.services, p'.services) && p'.scopeRequests == p.scopeRequests
    requires m < |p.services| && n < |p.services| && Contested(p, p.services[m], p.services[n], scope, all)
    ensures Contested(p', p'.services[m], p'.services[n], scope, all)
  {
    assert SameScopes(p.services[m], p'.services[m]) && SameScopes(p.services[n], p'.services[n]);
  }

  /** A contested scope: some possible run without approvals takes it from an open request. */
  lemma ContestBreaks(p: Portal, m: nat, n: nat, scope: string, all: set<string>) returns (ops: seq<Op>)
    requires DistinctCodes(p.services) && DistinctIds(p.scopeRequests)
    requires m < |p.services| && n < |p.services| && Contested(p, p.services[m], p.services[n], scope, all)
    ensures NoApprovals(ops) && PossibleRun(p, ops, all)
    ensures !RequestsPending(Run(p, ops).scopeRequests, Run(p, ops).services)
  {
    var x :| Slug(x) == p.services[m].serviceCode;
    var e :| e in p.services[m].environments && e in p.services[n].environments;
    var a, p1 := BothActive(p, m, n, x, all);
    SameKeepsFaces(p.services, p1.services);
    StillContested(p, p1, m, n, scope, all);
    var b, p2 := BothAsking(p1, m, n, x, e, scope, all);
    var c, p3 := DecliningBreaks(p2, m, n, scope, all);
    LeadsOn(p, a, p1, b, p2, all);
    LeadsOn(p, a + b, p2, c, p3, all);
    ops := a + b + c;
  }

  /** The exact condition: requests stay sound in every possible continuation without new services if and
      only if no scope is contested. */
  lemma SoundIffUncontested(p: Portal, all: set<string>)
    requires RequestsSound(p) && DistinctIds(p.scopeRequests)
    ensures Uncontested(p, all) <==>
      forall ops :: NoApprovals(ops) && PossibleRun(p, ops, all) ==> RequestsSound(Run(p, ops))
  {
    if Uncontested(p, all) {
      forall ops | NoApprovals(ops) && PossibleRun(p, ops, all) ensures RequestsSound(Run(p, ops)) {
        RunKeepsUncontested(p, ops, all);
      }
    } else {
      var m, n, scope :| 0 <= m < |p.services| && 0 <= n < |p.services|
        && Contested(p, p.services[m], p.services[n], scope, all);
      var ops := ContestBreaks(p, m, n, scope, all);
      assert !RequestsSound(Run(p, ops));
    }
  }

  // ------------------------------------------------------------- a run that gets there

  /** An application for the sandbox, and for payments. */
  function Applicant(id: string, name: string): Application {
    Application(id, name, ["payments:create"], [Sandbox], PendingReview, "")
  }

  /** The service made of it, with the scope to be reviewed. */
  function Founded(name: string): Service {
    Service(Slug(name), Active, [Sandbox], [], ["payments:create"], [])
  }

  lemma Founding(p: Portal, id: string, name: string) returns (ops: seq<Op>)
    requires !Taken(p.services, Slug(name)) && name != ""
    requires forall a <- p.applications :: a.applicationId != id
    ensures ops == [Applying(Applicant(id, name)), Approving(id, "", true, false)]
    ensures PossibleRun(p, ops, SCOPES) && Run(p, ops).scopeRequests == p.scopeRequests
    ensures Run(p, ops).services == [Founded(name)] + p.services
    ensures forall a <- Run(p, ops).applications :: a.applicationId == id || a in p.applications
  {
    assert Unique([Sandbox]) == [Sandbox] by { UniqueFixed([Sandbox]); }
    assert Unique(["payments:create"]) == ["payments:create"] by { UniqueFixed(["payments:create"]); }
    assert NextCode(p.services, name) == Slug(name);
    ops := [Applying(Applicant(id, name)), Approving(id, "", true, false)];
    assert "payments:create" in SCOPES;
    assert ops[1..] == [ops[1]];
    RunOne(Step(p, ops[0]), ops[1], SCOPES);
  }

  lemma FoundedContest(p: Portal, s: Service, t: Service, scope: string, all: set<string>)
    requires IsSlug(s.serviceCode) && Slug(s.serviceCode) == t.serviceCode != s.serviceCode
    requires s.environments == t.environments == [Sandbox]
    requires scope in all && Free(s, scope) && Free(t, scope)
    ensures Contested(p, s, t, scope, all)
  {
    assert Sandbox in s.environments && Sandbox in t.environments;
  }

  /** Two applications approved, one after the other. */
  lemma TwoFounded(seed: string, bare: string) returns (ops: seq<Op>)
    requires seed != "" && bare != "" && Slug(bare) != Slug(seed)
    ensures ops == [Applying(Applicant("app-1", seed)), Approving("app-1", "", true, false)] +
      [Applying(Applicant("app-2", bare)), Approving("app-2", "", true, false)]
    ensures PossibleRun(NOTHING, ops, SCOPES) && Run(NOTHING, ops).scopeRequests == []
    ensures Run(NOTHING, ops).services == [Founded(bare), Founded(seed)]
  {
    var a := Founding(NOTHING, "app-1", seed);
    var one := Run(NOTHING, a);
    var b := Founding(one, "app-2", bare);
    ops := a + b;
    RunAppend(NOTHING, a, b, SCOPES);
  }

  /** A service under a name that is cut behind a hyphen, and one under the cut code without the hyphen. */
  lemma TwoServices(seed: string, bare: string) returns (ops: seq<Op>, rest: seq<Op>)
    requires seed != "" && bare != "" && Slug(Slug(seed)) == bare == Slug(bare) && Slug(seed) != bare
    ensures PossibleRun(NOTHING, ops + rest, SCOPES)
    ensures ops == [Applying(Applicant("app-1", seed)), Approving("app-1", "", true, false)] +
      [Applying(Applicant("app-2", bare)), Approving("app-2", "", true, false)]
    ensures !RequestsPending(Run(NOTHING, ops + rest).scopeRequests, Run(NOTHING, ops + rest).services)
  {
    ops := TwoFounded(seed, bare);
    var two := Run(NOTHING, ops);
    assert "balance:read" in SCOPES && "balance:read" != "payments:create";
    FoundedContest(two, Founded(seed), Founded(bare), "balance:read", SCOPES);
    rest := ContestBreaks(two, 1, 0, "balance:read", SCOPES);
    RunAppend(NOTHING, ops, rest, SCOPES);
  }

  /** From the empty portal, with a service under a name that is cut and one under that name's first words, a
      possible run gets to a state in which an open request's scope is no longer pending. */
  lemma SomeRunBreaks() returns (ops: seq<Op>, rest: seq<Op>)
    ensures PossibleRun(NOTHING, ops + rest, SCOPES)
    ensures ops == [Applying(Applicant("app-1", CUT_SEED)), Approving("app-1", "", true, false)] +
      [Applying(Applicant("app-2", BARE_CODE)), Approving("app-2", "", true, false)]
    ensures !RequestsPending(Run(NOTHING, ops + rest).scopeRequests, Run(NOTHING, ops + rest).services)
  {
    CutSeedIsCut();
    BareCode();
    ops, rest := TwoServices(CUT_SEED, BARE_CODE);
  }
}
