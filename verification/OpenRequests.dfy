/** Open scope requests over whole runs: they own disjoint parts of what is pending on their service, and
    deciding one moves its own scopes, as long as no code, slugged, is another service's code. */
module OpenRequests {
  import opened Wrappers
  import opened Environments
  import opened Lists
  import opened Slugs
  import opened DeveloperPortalStore
  import opened ServiceCodes
  import opened ScopeLifecycle

  // ---------------------------------------------------------- codes stay distinct

  /** Services stay where they are, with their codes and environments. */
  ghost predicate FacesKept(services: seq<Service>, services': seq<Service>) {
    |services'| == |services| && forall i :: 0 <= i < |services| ==>
      services'[i].serviceCode == services[i].serviceCode && services'[i].environments == services[i].environments
  }

  lemma PutKeepsFaces(services: seq<Service>, n: nat, s: Service)
    requires n < |services| && s.serviceCode == services[n].serviceCode && s.environments == services[n].environments
    ensures FacesKept(services, services[n := s])
  {
  }

  lemma SubmitKeepsFaces(p: Portal, code: string, environment: Environment, scopes: seq<string>, freshId: string)
    ensures FacesKept(p.services, SubmitRequest(p, code, environment, scopes, freshId).0.services)
  {
    var n := Lookup(p.services, code);
    if n < |p.services| { PutKeepsFaces(p.services, n, WithPending(p.services[n], scopes)); }
  }

  lemma DecideKeepsFaces(p: Portal, id: string, approve: bool)
    ensures FacesKept(p.services, DecideRequest(p, id, approve).0.services)
  {
    var i, n := DecideShape(p, id, approve);
    if DecideRequest(p, id, approve).1 == Done {
      PutKeepsFaces(p.services, n, WithDecision(p.services[n], p.scopeRequests[i].requestedScopes, approve));
    }
  }

  lemma SameKeepsFaces(services: seq<Service>, services': seq<Service>)
    requires AllSameScopes(services, services')
    ensures FacesKept(services, services')
  {
    forall i | 0 <= i < |services|
      ensures services'[i].serviceCode == services[i].serviceCode
      ensures services'[i].environments == services[i].environments
    {
      assert SameScopes(services[i], services'[i]);
    }
  }

  /** Only approvals make services. */
  lemma StepKeepsFaces(p: Portal, op: Op)
    requires !op.Approving?
    ensures FacesKept(p.services, Step(p, op).services)
  {
    match op
    case Requesting(code, environment, scopes, freshId) => SubmitKeepsFaces(p, code, environment, scopes, freshId);
    case DecidingRequest(id, approve) => DecideKeepsFaces(p, id, approve);
    case _ =>
      StepKeepsScopes(p, op);
      SameKeepsFaces(p.services, Step(p, op).services);
  }

  lemma StepKeepsDistinct(p: Portal, op: Op)
    requires DistinctCodes(p.services)
    ensures DistinctCodes(Step(p, op).services)
  {
    if op.Approving? {
      var n, code := ApproveShape(p, op.id, op.serviceCode, op.active, op.grant);
    } else {
      StepKeepsFaces(p, op);
    }
  }

  /** In every run, whatever the seeds, no two services have the same code. */
  lemma {:induction false} RunKeepsDistinct(p: Portal, ops: seq<Op>)
    requires DistinctCodes(p.services)
    ensures DistinctCodes(Run(p, ops).services)
    decreases ops
  {
    if ops != [] {
      StepKeepsDistinct(p, ops[0]);
      RunKeepsDistinct(Step(p, ops[0]), ops[1..]);
    }
  }

  // ---------------------------------------------------------------- open requests

  /** The request was made under a code that was found, in one of its service's environments, and its
      scopes are among the service's pending ones. */
  ghost predicate Pending(services: seq<Service>, r: ScopeRequest) {
    var n := IndexOf(services, r.serviceCode);
    && n < |services| && IsSlug(r.serviceCode) && r.environment in services[n].environments
    && Within(r.requestedScopes, services[n].scopesPending)
  }

  ghost predicate RequestsPending(requests: seq<ScopeRequest>, services: seq<Service>) {
    forall i :: 0 <= i < |requests| && requests[i].status == PendingReview ==> Pending(services, requests[i])
  }

  ghost predicate Competing(r: ScopeRequest, q: ScopeRequest) {
    r.status == PendingReview && q.status == PendingReview && r.serviceCode == q.serviceCode
  }

  /** Open requests of one service have no scope in common. */
  ghost predicate RequestsApart(requests: seq<ScopeRequest>) {
    forall i, j :: 0 <= i < j < |requests| && Competing(requests[i], requests[j])
      ==> Apart(requests[i].requestedScopes, requests[j].requestedScopes)
  }

  ghost predicate RequestsSound(p: Portal) {
    DistinctCodes(p.services) && RequestsPending(p.scopeRequests, p.services) && RequestsApart(p.scopeRequests)
  }

  lemma AddKeepsRequests(requests: seq<ScopeRequest>, services: seq<Service>, s: Service)
    requires RequestsPending(requests, services) && DistinctCodes(services) && !Taken(services, s.serviceCode)
    ensures RequestsPending(requests, [s] + services) && DistinctCodes([s] + services)
  {
    forall i | 0 <= i < |requests| && requests[i].status == PendingReview ensures Pending([s] + services, requests[i]) {
      assert Pending(services, requests[i]);
      assert services[IndexOf(services, requests[i].serviceCode)].serviceCode == requests[i].serviceCode;
      IndexOfAdded(services, s, requests[i].serviceCode);
    }
  }

  lemma ApprovedRequestsSound(p: Portal, n: nat, code: string, active: bool, grant: bool)
    requires RequestsSound(p) && n < |p.applications| && !Taken(p.services, code)
    ensures RequestsSound(ApprovedAs(p, n, code, active, grant))
  {
    AddKeepsRequests(p.scopeRequests, p.services, NewService(code, p.applications[n], active, grant));
  }

  lemma ApproveKeepsRequests(p: Portal, id: string, serviceCode: string, active: bool, grant: bool)
    requires RequestsSound(p)
    ensures RequestsSound(Approve(p, id, serviceCode, active, grant).0)
  {
    var n, code := ApproveShape(p, id, serviceCode, active, grant);
    if n < |p.applications| { ApprovedRequestsSound(p, n, code, active, grant); }
  }

  lemma SameKeepsRequests(p: Portal, p': Portal)
    requires RequestsSound(p) && AllSameScopes(p.services, p'.services) && p'.scopeRequests == p.scopeRequests
    ensures RequestsSound(p')
  {
    forall i, j | 0 <= i < j < |p'.services| ensures p'.services[i].serviceCode != p'.services[j].serviceCode {
      assert SameScopes(p.services[i], p'.services[i]) && SameScopes(p.services[j], p'.services[j]);
    }
    forall i | 0 <= i < |p.scopeRequests| && p.scopeRequests[i].status == PendingReview
      ensures Pending(p'.services, p.scopeRequests[i])
    {
      assert Pending(p.services, p.scopeRequests[i]);
      var n := IndexOf(p.services, p.scopeRequests[i].serviceCode);
      IndexOfSame(p.services, p'.services, p.scopeRequests[i].serviceCode);
      assert SameScopes(p.services[n], p'.services[n]);
    }
  }

  lemma PutKeepsDistinct(services: seq<Service>, n: nat, s: Service)
    requires DistinctCodes(services) && n < |services| && s.serviceCode == services[n].serviceCode
    ensures DistinctCodes(services[n := s])
  {
  }

  /** A request still pending on a service keeps what it needs if the service changes no more than this. */
  lemma StillPending(services: seq<Service>, n: nat, s: Service, r: ScopeRequest)
    requires n < |services| && s.serviceCode == services[n].serviceCode && s.environments == services[n].environments
    requires Pending(services, r)
    requires IndexOf(services, r.serviceCode) == n ==> Within(r.requestedScopes, s.scopesPending)
    ensures Pending(services[n := s], r)
  {
    IndexOfPut(services, n, s, r.serviceCode);
  }

  lemma RequestKeepsPending(requests: seq<ScopeRequest>, services: seq<Service>, n: nat, scopes: seq<string>)
    requires RequestsPending(requests, services) && n < |services|
    ensures RequestsPending(requests, services[n := WithPending(services[n], scopes)])
  {
    UniqueLaws(services[n].scopesPending + scopes);
    forall i | 0 <= i < |requests| && requests[i].status == PendingReview
      ensures Pending(services[n := WithPending(services[n], scopes)], requests[i])
    {
      assert Pending(services, requests[i]);
      StillPending(services, n, WithPending(services[n], scopes), requests[i]);
    }
  }

  lemma NewRequestPending(services: seq<Service>, n: nat, scopes: seq<string>, r: ScopeRequest)
    requires n < |services| && IndexOf(services, services[n].serviceCode) == n
    requires r.serviceCode == services[n].serviceCode && r.requestedScopes == scopes
    requires IsSlug(r.serviceCode) && r.environment in services[n].environments
    ensures Pending(services[n := WithPending(services[n], scopes)], r)
  {
    UniqueLaws(services[n].scopesPending + scopes);
    IndexOfPut(services, n, WithPending(services[n], scopes), r.serviceCode);
  }

  lemma ApartFromPending(services: seq<Service>, n: nat, r: ScopeRequest, q: ScopeRequest)
    requires n < |services| && IndexOf(services, r.serviceCode) == n
    requires Apart(r.requestedScopes, services[n].scopesPending)
    requires Pending(services, q) && q.serviceCode == r.serviceCode
    ensures Apart(r.requestedScopes, q.requestedScopes)
  {
  }

  lemma PrependApart(requests: seq<ScopeRequest>, r: ScopeRequest)
    requires RequestsApart(requests)
    requires forall j :: 0 <= j < |requests| && Competing(r, requests[j]) ==>
      Apart(r.requestedScopes, requests[j].requestedScopes)
    ensures RequestsApart([r] + requests)
  {
    assert forall j :: 0 < j < |requests| + 1 ==> ([r] + requests)[j] == requests[j - 1];
  }

  lemma NewRequestApart(requests: seq<ScopeRequest>, services: seq<Service>, n: nat, r: ScopeRequest)
    requires RequestsApart(requests) && RequestsPending(requests, services)
    requires n < |services| && IndexOf(services, r.serviceCode) == n
    requires Apart(r.requestedScopes, services[n].scopesPending)
    ensures RequestsApart([r] + requests)
  {
    forall j | 0 <= j < |requests| && Competing(r, requests[j])
      ensures Apart(r.requestedScopes, requests[j].requestedScopes)
    {
      ApartFromPending(services, n, r, requests[j]);
    }
    PrependApart(requests, r);
  }

  lemma SubmittedSound(p: Portal, n: nat, r: ScopeRequest)
    requires RequestsSound(p) && n < |p.services| && IndexOf(p.services, r.serviceCode) == n
    requires r.serviceCode == p.services[n].serviceCode && IsSlug(r.serviceCode)
    requires r.environment in p.services[n].environments && Apart(r.requestedScopes, p.services[n].scopesPending)
    ensures RequestsSound(p.(
      services := p.services[n := WithPending(p.services[n], r.requestedScopes)],
      scopeRequests := [r] + p.scopeRequests))
  {
    var services' := p.services[n := WithPending(p.services[n], r.requestedScopes)];
    PutKeepsDistinct(p.services, n, WithPending(p.services[n], r.requestedScopes));
    RequestKeepsPending(p.scopeRequests, p.services, n, r.requestedScopes);
    NewRequestPending(p.services, n, r.requestedScopes, r);
    NewRequestApart(p.scopeRequests, p.services, n, r);
    AddRequest(p.scopeRequests, services', r);
  }

  lemma AddRequest(requests: seq<ScopeRequest>, services: seq<Service>, r: ScopeRequest)
    requires RequestsPending(requests, services) && Pending(services, r)
    ensures RequestsPending([r] + requests, services)
  {
    var all := [r] + requests;
    forall i | 0 <= i < |all| && all[i].status == PendingReview ensures Pending(services, all[i]) {
      assert i > 0 ==> all[i] == requests[i - 1];
    }
  }

  lemma SubmitKeepsRequests(p: Portal, code: string, environment: Environment, scopes: seq<string>, freshId: string)
    requires RequestsSound(p)
    ensures RequestsSound(SubmitRequest(p, code, environment, scopes, freshId).0)
  {
    var n := Lookup(p.services, code);
    if n < |p.services| && RequestRefusal(p.services[n], environment, scopes) == Done {
      SubmittedSound(p, n, ScopeRequest(freshId, p.services[n].serviceCode, environment, scopes, PendingReview));
    }
  }

  lemma DecideKeepsPending(
    requests: seq<ScopeRequest>, services: seq<Service>, i: nat, n: nat, approve: bool, status: RequestStatus)
    requires RequestsPending(requests, services) && RequestsApart(requests) && i < |requests| && n < |services|
    requires requests[i].status == PendingReview && IndexOf(services, requests[i].serviceCode) == n
    requires status != PendingReview
    ensures RequestsPending(requests[i := requests[i].(status := status)],
        services[n := WithDecision(services[n], requests[i].requestedScopes, approve)])
  {
    var r, s := requests[i], services[n];
    WithoutLaws(s.scopesPending, r.requestedScopes);
    forall j | 0 <= j < |requests| && j != i && requests[j].status == PendingReview
      ensures Pending(services[n := WithDecision(s, r.requestedScopes, approve)], requests[j])
    {
      assert Pending(services, requests[j]);
      assert Competing(r, requests[j]) || r.serviceCode != requests[j].serviceCode;
      if j < i { assert Competing(requests[j], requests[i]) ==> Apart(requests[j].requestedScopes, r.requestedScopes); }
      StillPending(services, n, WithDecision(s, r.requestedScopes, approve), requests[j]);
    }
  }

  lemma DecideKeepsApart(requests: seq<ScopeRequest>, i: nat, status: RequestStatus)
    requires RequestsApart(requests) && i < |requests| && status != PendingReview
    ensures RequestsApart(requests[i := requests[i].(status := status)])
  {
    var requests' := requests[i := requests[i].(status := status)];
    forall j, k | 0 <= j < k < |requests'| && Competing(requests'[j], requests'[k])
      ensures Apart(requests'[j].requestedScopes, requests'[k].requestedScopes)
    {
      assert Competing(requests[j], requests[k]);
    }
  }

  // -------------------------------------------------------------- clashing codes

  /** The first service's code was cut behind a hyphen, the other service has it without the hyphen, and they
      share an environment: the first one's requests are decided on the other one. */
  ghost predicate Clash(s: Service, t: Service) {
    && IsSlug(s.serviceCode) && Slug(s.serviceCode) == t.serviceCode != s.serviceCode
    && exists e :: e in s.environments && e in t.environments
  }

  ghost predicate NoClash(services: seq<Service>) {
    forall m, n :: 0 <= m < |services| && 0 <= n < |services| ==> !Clash(services[m], services[n])
  }

  lemma FacesKeepNoClash(services: seq<Service>, services': seq<Service>)
    requires NoClash(services) && FacesKept(services, services')
    ensures NoClash(services')
  {
    forall m, n | 0 <= m < |services'| && 0 <= n < |services'| ensures !Clash(services'[m], services'[n]) {
      assert !Clash(services[m], services[n]);
    }
  }

  /** A decision finds the service of its request, or one that clashes with it. */
  lemma DecisionFindsOwn(p: Portal, p': Portal, i: nat, n: nat, approve: bool)
    requires RequestsSound(p) && DecidedAt(p, p', i, n, approve)
    requires p.scopeRequests[i].environment in p.services[n].environments
    ensures var m := IndexOf(p.services, p.scopeRequests[i].serviceCode);
      m < |p.services| && (m == n || Clash(p.services[m], p.services[n]))
  {
    var r := p.scopeRequests[i];
    assert Pending(p.services, r);
    var m := IndexOf(p.services, r.serviceCode);
    assert r.environment in p.services[m].environments && r.environment in p.services[n].environments;
  }

  lemma DecidedRequestsSound(p: Portal, p': Portal, i: nat, n: nat, approve: bool)
    requires RequestsSound(p) && DecidedAt(p, p', i, n, approve)
    requires IndexOf(p.services, p.scopeRequests[i].serviceCode) == n
    ensures RequestsSound(p')
  {
    PutKeepsDistinct(p.services, n, WithDecision(p.services[n], p.scopeRequests[i].requestedScopes, approve));
    DecideKeepsPending(p.scopeRequests, p.services, i, n, approve, if approve then Approved else Declined);
    DecideKeepsApart(p.scopeRequests, i, if approve then Approved else Declined);
  }

  lemma DecidedEnvironment(p: Portal, id: string, approve: bool)
    requires DecideRequest(p, id, approve).1 == Done
    ensures var i := IndexOfRequest(p.scopeRequests, id);
      && i < |p.scopeRequests|
      && var n := Lookup(p.services, p.scopeRequests[i].serviceCode);
      && n < |p.services| && p.scopeRequests[i].environment in p.services[n].environments
  {
  }

  lemma DecideKeepsRequests(p: Portal, id: string, approve: bool)
    requires RequestsSound(p) && NoClash(p.services)
    ensures RequestsSound(DecideRequest(p, id, approve).0)
  {
    var i, n := DecideShape(p, id, approve);
    var (p', outcome) := DecideRequest(p, id, approve);
    if outcome == Done {
      DecidedEnvironment(p, id, approve);
      DecisionFindsOwn(p, p', i, n, approve);
      DecidedRequestsSound(p, p', i, n, approve);
    }
  }

  lemma StepKeepsRequests(p: Portal, op: Op)
    requires RequestsSound(p) && NoClash(p.services)
    ensures RequestsSound(Step(p, op))
  {
    match op
    case Approving(id, code, active, grant) => ApproveKeepsRequests(p, id, code, active, grant);
    case Requesting(code, environment, scopes, freshId) => SubmitKeepsRequests(p, code, environment, scopes, freshId);
    case DecidingRequest(id, approve) => DecideKeepsRequests(p, id, approve);
    case _ =>
      StepKeepsScopes(p, op);
      SameKeepsRequests(p, Step(p, op));
  }

  // --------------------------------------------------------------------- every run

  /** The service that an approval is about to make, if it makes one. */
  function Newcomer(p: Portal, op: Op): Option<Service> {
    if !op.Approving? || IndexOfApplication(p.applications, op.id) == |p.applications| then None
    else
      var a := p.applications[IndexOfApplication(p.applications, op.id)];
      if a.status == Approved && a.serviceCode != "" then None
      else
        var seed := if op.serviceCode != "" then op.serviceCode else a.displayName;
        Some(NewService(NextCode(p.services, seed), a, op.active, op.grant))
  }

  /** The call makes no service that clashes with one there is: known from the seed and the list. */
  ghost predicate Clear(p: Portal, op: Op) {
    var s := Newcomer(p, op);
    s.Some? ==> forall t <- p.services :: !Clash(s.value, t) && !Clash(t, s.value)
  }

  ghost predicate ClearRun(p: Portal, ops: seq<Op>)
    decreases ops
  {
    ops == [] || (Clear(p, ops[0]) && ClearRun(Step(p, ops[0]), ops[1..]))
  }

  lemma ApprovalAdds(p: Portal, op: Op)
    requires op.Approving?
    ensures var s := Newcomer(p, op); Step(p, op).services == if s.Some? then [s.value] + p.services else p.services
  {
  }

  lemma AddKeepsNoClash(services: seq<Service>, s: Service)
    requires NoClash(services) && forall t <- services :: !Clash(s, t) && !Clash(t, s)
    ensures NoClash([s] + services)
  {
    var all := [s] + services;
    forall m, n | 0 <= m < |all| && 0 <= n < |all| ensures !Clash(all[m], all[n]) {
      assert m > 0 ==> all[m] == services[m - 1];
      assert n > 0 ==> all[n] == services[n - 1];
    }
  }

  lemma StepKeepsNoClash(p: Portal, op: Op)
    requires NoClash(p.services) && Clear(p, op)
    ensures NoClash(Step(p, op).services)
  {
    if op.Approving? {
      ApprovalAdds(p, op);
      if Newcomer(p, op).Some? { AddKeepsNoClash(p.services, Newcomer(p, op).value); }
    } else {
      StepKeepsFaces(p, op);
      FacesKeepNoClash(p.services, Step(p, op).services);
    }
  }

  /** In every run in which approvals make no clash, open requests of a service are disjoint parts of what
      is pending on it. */
  lemma {:induction false} RunKeepsRequests(p: Portal, ops: seq<Op>)
    requires RequestsSound(p) && NoClash(p.services) && ClearRun(p, ops)
    ensures RequestsSound(Run(p, ops)) && NoClash(Run(p, ops).services)
    decreases ops
  {
    if ops != [] {
      StepKeepsRequests(p, ops[0]);
      StepKeepsNoClash(p, ops[0]);
      RunKeepsRequests(Step(p, ops[0]), ops[1..]);
    }
  }

  /** A decision touches only the service of its request, whose pending scopes included the request's, if
      slugging leaves that service's code alone; see `ScopeLifecycle.DecisionMovesExactly` for the change. */
  lemma DecisionIsExact(p: Portal, id: string, approve: bool) returns (i: nat, n: nat)
    requires RequestsSound(p) && DecideRequest(p, id, approve).1 == Done
    requires var i := IndexOfRequest(p.scopeRequests, id);
      i < |p.scopeRequests| && Slug(p.scopeRequests[i].serviceCode) == p.scopeRequests[i].serviceCode
    ensures i == IndexOfRequest(p.scopeRequests, id) && DecidedAt(p, DecideRequest(p, id, approve).0, i, n, approve)
    ensures p.services[n].serviceCode == p.scopeRequests[i].serviceCode
    ensures Within(p.scopeRequests[i].requestedScopes, p.services[n].scopesPending)
  {
    i, n := DecideShape(p, id, approve);
    assert Pending(p.services, p.scopeRequests[i]);
  }

  /** Where slugging changes the code of the request's service and finds another service, the decision
      grants the scopes to that other one; the requester's scopes stay pending with no open request. */
  lemma DecisionElsewhere(p: Portal, id: string, m: nat) returns (i: nat, n: nat)
    requires DecideRequest(p, id, true).1 == Done && m < |p.services|
    requires Slug(p.services[m].serviceCode) != p.services[m].serviceCode
    requires var i := IndexOfRequest(p.scopeRequests, id);
      i < |p.scopeRequests| && p.services[m].serviceCode == p.scopeRequests[i].serviceCode
    ensures i == IndexOfRequest(p.scopeRequests, id) && DecidedAt(p, DecideRequest(p, id, true).0, i, n, true) && n != m
    ensures Within(p.scopeRequests[i].requestedScopes, DecideRequest(p, id, true).0.services[n].scopesGranted)
    ensures DecideRequest(p, id, true).0.services[m] == p.services[m]
  {
    i, n := DecideShape(p, id, true);
    UniqueLaws(p.services[n].scopesGranted + p.scopeRequests[i].requestedScopes);
  }

  // ------------------------------------------------------ seeds that never clash

  /** The code does not end in a hyphen. */
  predicate Plain(code: string) {
    code != "" && code[|code| - 1] != '-'
  }

  ghost predicate AllPlain(services: seq<Service>) {
    forall s <- services :: Plain(s.serviceCode)
  }

  lemma PlainNeverClash(s: Service, t: Service)
    requires Plain(s.serviceCode)
    ensures !Clash(s, t)
  {
    if Clash(s, t) { ChangedSlug(s.serviceCode); }
  }

  lemma {:induction false} CandidatePlain(base: string, k: nat)
    requires Plain(base)
    ensures Plain(Candidate(base, k))
  {
    if k > 1 {
      DecimalIsCode(k);
      var c, d := Candidate(base, k), Decimal(k);
      assert c[|c| - 1] == d[|d| - 1];
    }
  }

  /** The seed of a service to be made, by name or by the operator, has a slug that does not end in a hyphen. */
  predicate PlainSeed(p: Portal, op: Op) {
    op.Approving? && IndexOfApplication(p.applications, op.id) < |p.applications| ==>
      Plain(Slug(if op.serviceCode != "" then op.serviceCode
                 else p.applications[IndexOfApplication(p.applications, op.id)].displayName))
  }

  ghost predicate PlainRun(p: Portal, ops: seq<Op>)
    decreases ops
  {
    ops == [] || (PlainSeed(p, ops[0]) && PlainRun(Step(p, ops[0]), ops[1..]))
  }

  lemma PlainStep(p: Portal, op: Op)
    requires AllPlain(p.services) && PlainSeed(p, op)
    ensures AllPlain(Step(p, op).services) && Clear(p, op)
  {
    if op.Approving? {
      ApprovalAdds(p, op);
      if Newcomer(p, op).Some? {
        var a := p.applications[IndexOfApplication(p.applications, op.id)];
        var seed := if op.serviceCode != "" then op.serviceCode else a.displayName;
        var k := FirstFreeIsFree(p.services, Slug(seed), 1);
        CandidatePlain(Slug(seed), k);
        PlainClear(p.services, Newcomer(p, op).value);
      }
    } else {
      StepKeepsFaces(p, op);
      forall s | s in Step(p, op).services ensures Plain(s.serviceCode) {
        var i :| 0 <= i < |p.services| && Step(p, op).services[i] == s;
        assert p.services[i] in p.services;
      }
    }
  }

  lemma PlainClear(services: seq<Service>, s: Service)
    requires AllPlain(services) && Plain(s.serviceCode)
    ensures forall t <- services :: !Clash(s, t) && !Clash(t, s)
  {
    forall t | t in services ensures !Clash(s, t) && !Clash(t, s) {
      PlainNeverClash(s, t);
      PlainNeverClash(t, s);
    }
  }

  lemma {:induction false} PlainRunIsClear(p: Portal, ops: seq<Op>)
    requires AllPlain(p.services) && PlainRun(p, ops)
    ensures ClearRun(p, ops)
    decreases ops
  {
    if ops != [] {
      PlainStep(p, ops[0]);
      PlainRunIsClear(Step(p, ops[0]), ops[1..]);
    }
  }

  const NOTHING := Portal([], [], [], [])

  /** From the empty portal: if no seed's slug ends in a hyphen, requests are sound after every run. */
  lemma {:induction false} PlainSeedsKeepRequests(ops: seq<Op>)
    requires PlainRun(NOTHING, ops)
    ensures RequestsSound(Run(NOTHING, ops))
  {
    PlainRunIsClear(NOTHING, ops);
    RunKeepsRequests(NOTHING, ops);
  }
}
