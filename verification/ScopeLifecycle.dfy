/** Scopes of developer services over whole runs: granted and pending scopes never overlap or repeat, a
    decision moves exactly the scopes it is about, and granted scopes only grow. */
module ScopeLifecycle {
  import opened Wrappers
  import opened Environments
  import opened Lists
  import opened DeveloperPortalStore
  import opened ServiceCodes

  datatype Op =
    | Applying(application: Application)
    | Approving(id: string, serviceCode: string, active: bool, grant: bool)
    | Requesting(code: string, environment: Environment, scopes: seq<string>, freshId: string)
    | DecidingRequest(id: string, approve: bool)
    | ChangingStatus(code: string, status: ServiceStatus)
    | IssuingKey(code: string, environment: Environment, liveReady: bool, keyId: string, fingerprint: string,
                 expiresAt: Option<int>)
    | Rotating(code: string, environment: Environment, revokePrevious: bool, keyId: string, fingerprint: string)
    | RequestingRotation(code: string, environment: Environment, freshId: string)
    | DecidingRotation(id: string, decision: RotationDecision)
    | RevokingKey(code: string, keyId: string)

  function Step(p: Portal, op: Op): Portal {
    match op
    case Applying(a) => Submit(p, a)
    case Approving(id, code, active, grant) => Approve(p, id, code, active, grant).0
    case Requesting(code, environment, scopes, freshId) => SubmitRequest(p, code, environment, scopes, freshId).0
    case DecidingRequest(id, approve) => DecideRequest(p, id, approve).0
    case ChangingStatus(code, status) => ChangeStatus(p, code, status).0
    case IssuingKey(code, environment, liveReady, keyId, fp, expiresAt) =>
      IssueKey(p, code, environment, liveReady, keyId, fp, expiresAt).0
    case Rotating(code, environment, revokePrevious, keyId, fp) =>
      EmergencyRotate(p, code, environment, revokePrevious, keyId, fp).0
    case RequestingRotation(code, environment, freshId) => RequestRotation(p, code, environment, freshId).0
    case DecidingRotation(id, decision) => DecideRotation(p, id, decision).0
    case RevokingKey(code, keyId) => RevokeKey(p, code, keyId).0
  }

  function Run(p: Portal, ops: seq<Op>): Portal
    decreases ops
  {
    if ops == [] then p else Run(Step(p, ops[0]), ops[1..])
  }

  /** An approval changes nothing, or makes a service of one application under a free code. */
  lemma ApproveShape(
    p: Portal, id: string, serviceCode: string, active: bool, grant: bool) returns (n: nat, code: string)
    ensures !Taken(p.services, code)
    ensures var p' := Approve(p, id, serviceCode, active, grant).0;
      p' == p || (n < |p.applications| && p' == ApprovedAs(p, n, code, active, grant))
  {
    n := IndexOfApplication(p.applications, id);
    var seed := if n < |p.applications| && serviceCode == "" then p.applications[n].displayName else serviceCode;
    code := NextCode(p.services, seed);
    NewCodeIsFree(p.services, seed);
  }

  // ------------------------------------------------------------------ one service

  ghost predicate ScopesSound(s: Service) {
    NoRepeats(s.scopesGranted) && NoRepeats(s.scopesPending) && Apart(s.scopesGranted, s.scopesPending)
  }

  ghost predicate AllSound(services: seq<Service>) {
    forall i :: 0 <= i < |services| ==> ScopesSound(services[i])
  }

  lemma NewServiceSound(code: string, a: Application, active: bool, grant: bool)
    ensures ScopesSound(NewService(code, a, active, grant))
  {
    UniqueLaws(a.requestedScopes);
  }

  lemma RequestedSound(s: Service, environment: Environment, scopes: seq<string>)
    requires ScopesSound(s) && RequestRefusal(s, environment, scopes) == Done
    ensures ScopesSound(WithPending(s, scopes))
  {
    UniqueLaws(s.scopesPending + scopes);
  }

  lemma DecidedSound(s: Service, scopes: seq<string>, approve: bool)
    requires ScopesSound(s)
    ensures ScopesSound(WithDecision(s, scopes, approve))
  {
    UniqueLaws(s.scopesGranted + scopes);
    WithoutLaws(s.scopesPending, scopes);
  }

  /** What a decision does to a service: approving grants exactly the requested scopes, rejecting grants
      nothing, and either way exactly they stop being pending. */
  lemma DecisionMovesExactly(s: Service, scopes: seq<string>, approve: bool)
    ensures var s' := WithDecision(s, scopes, approve);
      && (forall x :: x in s'.scopesGranted <==> x in s.scopesGranted || (approve && x in scopes))
      && (forall x :: x in s'.scopesPending <==> x in s.scopesPending && x !in scopes)
      && s' == s.(scopesGranted := s'.scopesGranted, scopesPending := s'.scopesPending)
  {
    UniqueLaws(s.scopesGranted + scopes);
    WithoutLaws(s.scopesPending, scopes);
  }

  // ------------------------------------------------------- scopes sound, every run

  lemma PutSound(services: seq<Service>, n: nat, s: Service)
    requires AllSound(services) && n < |services| && ScopesSound(s)
    ensures AllSound(services[n := s])
  {
  }

  lemma AddSound(services: seq<Service>, s: Service)
    requires AllSound(services) && ScopesSound(s)
    ensures AllSound([s] + services)
  {
    assert forall i :: 0 < i < |services| + 1 ==> ([s] + services)[i] == services[i - 1];
  }

  lemma ApproveKeepsSound(p: Portal, id: string, serviceCode: string, active: bool, grant: bool)
    requires AllSound(p.services)
    ensures AllSound(Approve(p, id, serviceCode, active, grant).0.services)
  {
    var n, code := ApproveShape(p, id, serviceCode, active, grant);
    if n < |p.applications| {
      NewServiceSound(code, p.applications[n], active, grant);
      AddSound(p.services, NewService(code, p.applications[n], active, grant));
    }
  }

  lemma RequestKeepsSound(p: Portal, code: string, environment: Environment, scopes: seq<string>, freshId: string)
    requires AllSound(p.services)
    ensures AllSound(SubmitRequest(p, code, environment, scopes, freshId).0.services)
  {
    var n := Lookup(p.services, code);
    if n < |p.services| && RequestRefusal(p.services[n], environment, scopes) == Done {
      RequestedSound(p.services[n], environment, scopes);
      PutSound(p.services, n, WithPending(p.services[n], scopes));
    }
  }

  /** The service and the request a decision changes, and how. */
  ghost predicate DecidedAt(p: Portal, p': Portal, i: nat, n: nat, approve: bool) {
    && i < |p.scopeRequests| && p.scopeRequests[i].status == PendingReview
    && n < |p.services| && n == Lookup(p.services, p.scopeRequests[i].serviceCode)
    && p' == p.(
         services := p.services[n := WithDecision(p.services[n], p.scopeRequests[i].requestedScopes, approve)],
         scopeRequests := p.scopeRequests[i := p.scopeRequests[i].(status := if approve then Approved else Declined)])
  }

  lemma DecideShape(p: Portal, id: string, approve: bool) returns (i: nat, n: nat)
    ensures i == IndexOfRequest(p.scopeRequests, id)
    ensures var (p', outcome) := DecideRequest(p, id, approve);
      if outcome == Done then DecidedAt(p, p', i, n, approve) else p' == p
  {
    i := IndexOfRequest(p.scopeRequests, id);
    n := if i < |p.scopeRequests| then Lookup(p.services, p.scopeRequests[i].serviceCode) else 0;
  }

  lemma DecidedAtSound(p: Portal, p': Portal, i: nat, n: nat, approve: bool)
    requires AllSound(p.services) && DecidedAt(p, p', i, n, approve)
    ensures AllSound(p'.services)
  {
    DecidedSound(p.services[n], p.scopeRequests[i].requestedScopes, approve);
    PutSound(p.services, n, WithDecision(p.services[n], p.scopeRequests[i].requestedScopes, approve));
  }

  lemma DecideKeepsSound(p: Portal, id: string, approve: bool)
    requires AllSound(p.services)
    ensures AllSound(DecideRequest(p, id, approve).0.services)
  {
    var i, n := DecideShape(p, id, approve);
    var (p', outcome) := DecideRequest(p, id, approve);
    if outcome == Done { DecidedAtSound(p, p', i, n, approve); }
  }

  /** The call leaves codes, environments, scopes and scope requests alone. */
  predicate KeepsScopes(op: Op) {
    || op.Applying? || op.ChangingStatus? || op.IssuingKey? || op.Rotating? || op.RequestingRotation?
    || op.DecidingRotation? || op.RevokingKey?
  }

  predicate SameScopes(s: Service, s': Service) {
    && s'.serviceCode == s.serviceCode && s'.environments == s.environments
    && s'.scopesGranted == s.scopesGranted && s'.scopesPending == s.scopesPending
  }

  ghost predicate AllSameScopes(services: seq<Service>, services': seq<Service>) {
    |services'| == |services| && forall i :: 0 <= i < |services| ==> SameScopes(services[i], services'[i])
  }

  /** The call at most replaces one service by one with the same code and scopes. */
  predicate Replaces(p: Portal, p': Portal, n: nat) {
    && p'.scopeRequests == p.scopeRequests
    && (p'.services == p.services
        || (n < |p.services| && |p'.services| == |p.services| && p'.services == p.services[n := p'.services[n]]
            && SameScopes(p.services[n], p'.services[n])))
  }

  lemma ReplacesKeeps(p: Portal, p': Portal, n: nat)
    requires Replaces(p, p', n)
    ensures AllSameScopes(p.services, p'.services) && p'.scopeRequests == p.scopeRequests
  {
  }

  lemma StatusKeepsScopes(p: Portal, code: string, status: ServiceStatus)
    ensures var p' := ChangeStatus(p, code, status).0;
      AllSameScopes(p.services, p'.services) && p'.scopeRequests == p.scopeRequests
  {
    ReplacesKeeps(p, ChangeStatus(p, code, status).0, Lookup(p.services, code));
  }

  /** Issuing a key changes nothing, or gives one service the key. */
  lemma IssueShape(
    p: Portal, code: string, environment: Environment, liveReady: bool, keyId: string, fp: string,
    expiresAt: Option<int>) returns (n: nat)
    ensures var (p', outcome) := IssueKey(p, code, environment, liveReady, keyId, fp, expiresAt);
      var key := ApiKey(keyId, environment, KeyActive, fp, expiresAt);
      if outcome == Done
      then n < |p.services| && p' == p.(services := p.services[n := WithKey(p.services[n], key, PendingCutover)])
      else p' == p
  {
    n := Lookup(p.services, code);
  }

  lemma IssueKeepsScopes(
    p: Portal, code: string, environment: Environment, liveReady: bool, keyId: string, fp: string,
    expiresAt: Option<int>)
    ensures var p' := IssueKey(p, code, environment, liveReady, keyId, fp, expiresAt).0;
      AllSameScopes(p.services, p'.services) && p'.scopeRequests == p.scopeRequests
  {
    var n := IssueShape(p, code, environment, liveReady, keyId, fp, expiresAt);
    var (p', outcome) := IssueKey(p, code, environment, liveReady, keyId, fp, expiresAt);
    ReplacesKeeps(p, p', n);
  }

  lemma RotateKeepsScopes(
    p: Portal, code: string, environment: Environment, revokePrevious: bool, keyId: string, fp: string)
    ensures var p' := EmergencyRotate(p, code, environment, revokePrevious, keyId, fp).0;
      AllSameScopes(p.services, p'.services) && p'.scopeRequests == p.scopeRequests
  {
    ReplacesKeeps(p, EmergencyRotate(p, code, environment, revokePrevious, keyId, fp).0, Lookup(p.services, code));
  }

  /** Deciding a rotation changes no service, or revokes the keys of one service that are being replaced. */
  lemma DecideRotationShape(
    p: Portal, id: string, decision: RotationDecision) returns (n: nat, environment: Environment)
    ensures
      var p' := DecideRotation(p, id, decision).0;
      && p' == p.(services := p'.services, rotations := p'.rotations)
      && (p'.services == p.services
          || (n < |p.services| && p'.services == p.services[n := WithCutover(p.services[n], environment)]))
  {
    var i := IndexOfRotation(p.rotations, id);
    n := if i < |p.rotations| then Lookup(p.services, p.rotations[i].serviceCode) else 0;
    environment := if i < |p.rotations| then p.rotations[i].environment else Live;
  }

  lemma DecideRotationKeepsScopes(p: Portal, id: string, decision: RotationDecision)
    ensures var p' := DecideRotation(p, id, decision).0;
      AllSameScopes(p.services, p'.services) && p'.scopeRequests == p.scopeRequests
  {
    var n, environment := DecideRotationShape(p, id, decision);
    ReplacesKeeps(p, DecideRotation(p, id, decision).0, n);
  }

  /** Revoking a key changes nothing, or the status of one key of one service. */
  lemma RevokeShape(p: Portal, code: string, keyId: string) returns (n: nat, k: nat)
    ensures var (p', outcome) := RevokeKey(p, code, keyId);
      if outcome == Done
      then n == Lookup(p.services, code) && n < |p.services| && k == IndexOfKey(p.services[n].keys, keyId)
          && k < |p.services[n].keys|
        && p' == p.(services := p.services[n := WithRevoked(p.services[n], k)])
      else p' == p
  {
    n := Lookup(p.services, code);
    k := if n < |p.services| then IndexOfKey(p.services[n].keys, keyId) else 0;
  }

  lemma RevokeKeepsScopes(p: Portal, code: string, keyId: string)
    ensures var p' := RevokeKey(p, code, keyId).0;
      AllSameScopes(p.services, p'.services) && p'.scopeRequests == p.scopeRequests
  {
    var n, k := RevokeShape(p, code, keyId);
    var (p', outcome) := RevokeKey(p, code, keyId);
    ReplacesKeeps(p, p', n);
  }

  lemma StepKeepsScopes(p: Portal, op: Op)
    requires KeepsScopes(op)
    ensures AllSameScopes(p.services, Step(p, op).services) && Step(p, op).scopeRequests == p.scopeRequests
  {
    ReplacesKeeps(p, p, 0);
    match op
    case ChangingStatus(code, status) => StatusKeepsScopes(p, code, status);
    case IssuingKey(code, environment, liveReady, keyId, fp, expiresAt) =>
      IssueKeepsScopes(p, code, environment, liveReady, keyId, fp, expiresAt);
    case Rotating(code, environment, revokePrevious, keyId, fp) =>
      RotateKeepsScopes(p, code, environment, revokePrevious, keyId, fp);
    case DecidingRotation(id, decision) => DecideRotationKeepsScopes(p, id, decision);
    case RevokingKey(code, keyId) => RevokeKeepsScopes(p, code, keyId);
    case _ =>
  }

  lemma SameScopesSound(services: seq<Service>, services': seq<Service>)
    requires AllSound(services) && AllSameScopes(services, services')
    ensures AllSound(services')
  {
    forall i | 0 <= i < |services'| ensures ScopesSound(services'[i]) {
      assert ScopesSound(services[i]) && SameScopes(services[i], services'[i]);
    }
  }

  lemma StepKeepsSound(p: Portal, op: Op)
    requires AllSound(p.services)
    ensures AllSound(Step(p, op).services)
  {
    match op
    case Approving(id, code, active, grant) => ApproveKeepsSound(p, id, code, active, grant);
    case Requesting(code, environment, scopes, freshId) => RequestKeepsSound(p, code, environment, scopes, freshId);
    case DecidingRequest(id, approve) => DecideKeepsSound(p, id, approve);
    case _ =>
      StepKeepsScopes(p, op);
      SameScopesSound(p.services, Step(p, op).services);
  }

  /** In every run, whatever the codes, no service's granted and pending scopes repeat or overlap. */
  lemma {:induction false} RunKeepsSound(p: Portal, ops: seq<Op>)
    requires AllSound(p.services)
    ensures AllSound(Run(p, ops).services)
    decreases ops
  {
    if ops != [] {
      StepKeepsSound(p, ops[0]);
      RunKeepsSound(Step(p, ops[0]), ops[1..]);
    }
  }

  // ------------------------------------------------------------------ lookups

  lemma {:induction false} IndexOfPut(services: seq<Service>, n: nat, s: Service, code: string)
    requires n < |services| && s.serviceCode == services[n].serviceCode
    ensures IndexOf(services[n := s], code) == IndexOf(services, code)
  {
    if services[0].serviceCode != code {
      if n > 0 {
        assert services[n := s][1..] == services[1..][n - 1 := s];
        IndexOfPut(services[1..], n - 1, s, code);
      } else {
        assert services[n := s][1..] == services[1..];
      }
    }
  }

  lemma {:induction false} IndexOfSame(services: seq<Service>, services': seq<Service>, code: string)
    requires AllSameScopes(services, services')
    ensures IndexOf(services', code) == IndexOf(services, code)
  {
    if services != [] {
      assert SameScopes(services[0], services'[0]);
      if services[0].serviceCode != code {
        assert forall i :: 0 <= i < |services| - 1 ==> SameScopes(services[1..][i], services'[1..][i]);
        IndexOfSame(services[1..], services'[1..], code);
      }
    }
  }

  lemma IndexOfAdded(services: seq<Service>, s: Service, code: string)
    requires s.serviceCode != code
    ensures IndexOf([s] + services, code) == 1 + IndexOf(services, code)
  {
    assert ([s] + services)[1..] == services;
  }

  // --------------------------------------------------------------- grants only grow

  /** The service with the code is still there and has lost no granted scope. */
  ghost predicate GrantsKept(services: seq<Service>, services': seq<Service>, code: string) {
    var n, n' := IndexOf(services, code), IndexOf(services', code);
    n < |services| ==> n' < |services'| && Within(services[n].scopesGranted, services'[n'].scopesGranted)
  }

  lemma PutKeepsGrants(services: seq<Service>, n: nat, s: Service, code: string)
    requires n < |services| && s.serviceCode == services[n].serviceCode
    requires Within(services[n].scopesGranted, s.scopesGranted)
    ensures GrantsKept(services, services[n := s], code)
  {
    IndexOfPut(services, n, s, code);
  }

  lemma AddKeepsGrants(services: seq<Service>, s: Service, code: string)
    requires !Taken(services, s.serviceCode)
    ensures GrantsKept(services, [s] + services, code) && GrantsKept(services, services, code)
  {
    var n := IndexOf(services, code);
    if n < |services| {
      assert services[n].serviceCode == code;
      IndexOfAdded(services, s, code);
      assert ([s] + services)[n + 1] == services[n];
    }
  }

  lemma ApproveKeepsGrants(p: Portal, id: string, serviceCode: string, active: bool, grant: bool, code: string)
    ensures GrantsKept(p.services, Approve(p, id, serviceCode, active, grant).0.services, code)
  {
    var n, added := ApproveShape(p, id, serviceCode, active, grant);
    if n < |p.applications| { AddKeepsGrants(p.services, NewService(added, p.applications[n], active, grant), code); }
  }

  lemma DecideKeepsGrants(p: Portal, id: string, approve: bool, code: string)
    ensures GrantsKept(p.services, DecideRequest(p, id, approve).0.services, code)
  {
    var i, n := DecideShape(p, id, approve);
    if DecideRequest(p, id, approve).1 == Done {
      var scopes := p.scopeRequests[i].requestedScopes;
      UniqueLaws(p.services[n].scopesGranted + scopes);
      PutKeepsGrants(p.services, n, WithDecision(p.services[n], scopes, approve), code);
    }
  }

  lemma SubmitKeepsGrants(
    p: Portal, requested: string, environment: Environment, scopes: seq<string>, freshId: string, code: string)
    ensures GrantsKept(p.services, SubmitRequest(p, requested, environment, scopes, freshId).0.services, code)
  {
    var n := Lookup(p.services, requested);
    if n < |p.services| { PutKeepsGrants(p.services, n, WithPending(p.services[n], scopes), code); }
  }

  lemma SameKeepsGrants(services: seq<Service>, services': seq<Service>, code: string)
    requires AllSameScopes(services, services')
    ensures GrantsKept(services, services', code)
  {
    IndexOfSame(services, services', code);
    var n := IndexOf(services, code);
    assert n < |services| ==> SameScopes(services[n], services'[n]);
  }

  lemma StepKeepsGrants(p: Portal, op: Op, code: string)
    ensures GrantsKept(p.services, Step(p, op).services, code)
  {
    match op
    case Approving(id, serviceCode, active, grant) => ApproveKeepsGrants(p, id, serviceCode, active, grant, code);
    case Requesting(requested, environment, scopes, freshId) =>
      SubmitKeepsGrants(p, requested, environment, scopes, freshId, code);
    case DecidingRequest(id, approve) => DecideKeepsGrants(p, id, approve, code);
    case _ =>
      StepKeepsScopes(p, op);
      SameKeepsGrants(p.services, Step(p, op).services, code);
  }

  /** In every run granted scopes only grow, which is what the authorization flow assumes. */
  lemma {:induction false} RunKeepsGrants(p: Portal, ops: seq<Op>, code: string)
    ensures GrantsKept(p.services, Run(p, ops).services, code)
    decreases ops
  {
    if ops != [] {
      StepKeepsGrants(p, ops[0], code);
      RunKeepsGrants(Step(p, ops[0]), ops[1..], code);
    }
  }
}
