/** API keys of developer services over whole runs: at most one active key an environment, and a
    fingerprint whose keys are revoked never resolves again. */
module KeyLifecycle {
  import opened Wrappers
  import opened Environments
  import opened DeveloperPortalStore
  import opened ScopeLifecycle

  // ------------------------------------------------------------- one active key

  ghost predicate OneActive(keys: seq<ApiKey>) {
    forall i, j :: 0 <= i < j < |keys| && keys[i].environment == keys[j].environment ==>
      keys[i].status != KeyActive || keys[j].status != KeyActive
  }

  ghost predicate AllOneActive(services: seq<Service>) {
    forall i :: 0 <= i < |services| ==> OneActive(services[i].keys)
  }

  lemma {:induction false} RestatusAt(
    keys: seq<ApiKey>, environment: Environment, from: KeyStatus, to: KeyStatus, i: nat)
    requires i < |keys|
    ensures Restatus(keys, environment, from, to)[i] ==
      if keys[i].environment == environment && keys[i].status == from then keys[i].(status := to) else keys[i]
  {
    if i > 0 { RestatusAt(keys[1..], environment, from, to, i - 1); }
  }

  lemma RestatusOneActive(keys: seq<ApiKey>, environment: Environment, from: KeyStatus, to: KeyStatus)
    requires OneActive(keys) && to != KeyActive
    ensures OneActive(Restatus(keys, environment, from, to))
  {
    forall i, j | 0 <= i < j < |keys| && keys[i].environment == keys[j].environment
      ensures var r := Restatus(keys, environment, from, to); r[i].status != KeyActive || r[j].status != KeyActive
    {
      RestatusAt(keys, environment, from, to, i);
      RestatusAt(keys, environment, from, to, j);
    }
    forall i | 0 <= i < |keys| ensures Restatus(keys, environment, from, to)[i].environment == keys[i].environment {
      RestatusAt(keys, environment, from, to, i);
    }
  }

  lemma NewKeyOneActive(s: Service, key: ApiKey, previous: KeyStatus)
    requires OneActive(s.keys) && previous != KeyActive
    ensures OneActive(WithKey(s, key, previous).keys)
  {
    var rest := Restatus(s.keys, key.environment, KeyActive, previous);
    RestatusOneActive(s.keys, key.environment, KeyActive, previous);
    forall i | 0 <= i < |rest| && rest[i].environment == key.environment ensures rest[i].status != KeyActive {
      RestatusAt(s.keys, key.environment, KeyActive, previous, i);
    }
  }

  lemma PutOneActive(services: seq<Service>, n: nat, s: Service)
    requires AllOneActive(services) && n < |services| && OneActive(s.keys)
    ensures AllOneActive(services[n := s])
  {
  }

  lemma AddOneActive(services: seq<Service>, s: Service)
    requires AllOneActive(services) && s.keys == []
    ensures AllOneActive([s] + services)
  {
    var services' := [s] + services;
    forall i | 0 <= i < |services'| ensures OneActive(services'[i].keys) {
      assert i > 0 ==> services'[i] == services[i - 1];
    }
  }

  lemma ApproveOneActive(p: Portal, id: string, serviceCode: string, active: bool, grant: bool)
    requires AllOneActive(p.services)
    ensures AllOneActive(Approve(p, id, serviceCode, active, grant).0.services)
  {
    var n, code := ApproveShape(p, id, serviceCode, active, grant);
    if n < |p.applications| { AddOneActive(p.services, NewService(code, p.applications[n], active, grant)); }
  }

  lemma IssueOneActive(
    p: Portal, code: string, environment: Environment, liveReady: bool, keyId: string, fp: string,
    expiresAt: Option<int>)
    requires AllOneActive(p.services)
    ensures AllOneActive(IssueKey(p, code, environment, liveReady, keyId, fp, expiresAt).0.services)
  {
    var n := IssueShape(p, code, environment, liveReady, keyId, fp, expiresAt);
    if n < |p.services| {
      var key := ApiKey(keyId, environment, KeyActive, fp, expiresAt);
      NewKeyOneActive(p.services[n], key, PendingCutover);
      PutOneActive(p.services, n, WithKey(p.services[n], key, PendingCutover));
    }
  }

  lemma RotateOneActive(
    p: Portal, code: string, environment: Environment, revokePrevious: bool, keyId: string, fp: string)
    requires AllOneActive(p.services)
    ensures AllOneActive(EmergencyRotate(p, code, environment, revokePrevious, keyId, fp).0.services)
  {
    var n, key := Lookup(p.services, code), ApiKey(keyId, environment, KeyActive, fp, None);
    if n < |p.services| {
      var previous := if revokePrevious then KeyRevoked else PendingCutover;
      NewKeyOneActive(p.services[n], key, previous);
      PutOneActive(p.services, n, WithKey(p.services[n], key, previous));
    }
  }

  lemma DecideRotationOneActive(p: Portal, id: string, decision: RotationDecision)
    requires AllOneActive(p.services)
    ensures AllOneActive(DecideRotation(p, id, decision).0.services)
  {
    var n, environment := DecideRotationShape(p, id, decision);
    if n < |p.services| {
      RestatusOneActive(p.services[n].keys, environment, PendingCutover, KeyRevoked);
      PutOneActive(p.services, n, WithCutover(p.services[n], environment));
    }
  }

  lemma RevokedOneActive(keys: seq<ApiKey>, k: nat)
    requires OneActive(keys) && k < |keys|
    ensures OneActive(keys[k := keys[k].(status := KeyRevoked)])
  {
  }

  lemma RevokeOneActive(p: Portal, code: string, keyId: string)
    requires AllOneActive(p.services)
    ensures AllOneActive(RevokeKey(p, code, keyId).0.services)
  {
    var n, k := RevokeShape(p, code, keyId);
    if RevokeKey(p, code, keyId).1 == Done {
      RevokedOneActive(p.services[n].keys, k);
      PutOneActive(p.services, n, WithRevoked(p.services[n], k));
    }
  }

  lemma RequestOneActive(p: Portal, code: string, environment: Environment, scopes: seq<string>, freshId: string)
    requires AllOneActive(p.services)
    ensures AllOneActive(SubmitRequest(p, code, environment, scopes, freshId).0.services)
  {
    var n := Lookup(p.services, code);
    if n < |p.services| { PutOneActive(p.services, n, WithPending(p.services[n], scopes)); }
  }

  lemma DecideOneActive(p: Portal, id: string, approve: bool)
    requires AllOneActive(p.services)
    ensures AllOneActive(DecideRequest(p, id, approve).0.services)
  {
    var i, n := DecideShape(p, id, approve);
    if DecideRequest(p, id, approve).1 == Done {
      PutOneActive(p.services, n, WithDecision(p.services[n], p.scopeRequests[i].requestedScopes, approve));
    }
  }

  lemma StatusOneActive(p: Portal, code: string, status: ServiceStatus)
    requires AllOneActive(p.services)
    ensures AllOneActive(ChangeStatus(p, code, status).0.services)
  {
    var n := Lookup(p.services, code);
    if n < |p.services| { PutOneActive(p.services, n, p.services[n].(status := status)); }
  }

  lemma StepOneActive(p: Portal, op: Op)
    requires AllOneActive(p.services)
    ensures AllOneActive(Step(p, op).services)
  {
    match op
    case Applying(_) =>
    case Approving(id, code, active, grant) => ApproveOneActive(p, id, code, active, grant);
    case Requesting(code, environment, scopes, freshId) => RequestOneActive(p, code, environment, scopes, freshId);
    case DecidingRequest(id, approve) => DecideOneActive(p, id, approve);
    case ChangingStatus(code, status) => StatusOneActive(p, code, status);
    case IssuingKey(code, environment, liveReady, keyId, fp, expiresAt) =>
      IssueOneActive(p, code, environment, liveReady, keyId, fp, expiresAt);
    case Rotating(code, environment, revokePrevious, keyId, fp) =>
      RotateOneActive(p, code, environment, revokePrevious, keyId, fp);
    case RequestingRotation(_, _, _) =>
    case DecidingRotation(id, decision) => DecideRotationOneActive(p, id, decision);
    case RevokingKey(code, keyId) => RevokeOneActive(p, code, keyId);
  }

  /** In every run each service has at most one active key in each environment. */
  lemma {:induction false} RunOneActive(p: Portal, ops: seq<Op>)
    requires AllOneActive(p.services)
    ensures AllOneActive(Run(p, ops).services)
    decreases ops
  {
    if ops != [] {
      StepOneActive(p, ops[0]);
      RunOneActive(Step(p, ops[0]), ops[1..]);
    }
  }

  // --------------------------------------------------------- counting a fingerprint

  /** How many keys have the fingerprint, revoked ones included or not. */
  function Tally(keys: seq<ApiKey>, fp: string, revokedToo: bool): nat {
    if keys == [] then 0
    else Tally(keys[1..], fp, revokedToo) + Counted(keys[0], fp, revokedToo)
  }

  function Counted(key: ApiKey, fp: string, revokedToo: bool): nat {
    if key.fingerprint == fp && (revokedToo || key.status != KeyRevoked) then 1 else 0
  }

  function Total(services: seq<Service>, fp: string, revokedToo: bool): nat {
    if services == [] then 0 else Tally(services[0].keys, fp, revokedToo) + Total(services[1..], fp, revokedToo)
  }

  lemma {:induction false} TallyAppend(keys: seq<ApiKey>, key: ApiKey, fp: string, revokedToo: bool)
    ensures Tally(keys + [key], fp, revokedToo) == Tally(keys, fp, revokedToo) + Counted(key, fp, revokedToo)
  {
    if keys == [] {
      assert keys + [key] == [key];
    } else {
      assert (keys + [key])[1..] == keys[1..] + [key];
      TallyAppend(keys[1..], key, fp, revokedToo);
    }
  }

  lemma {:induction false} TallyRestatus(
    keys: seq<ApiKey>, environment: Environment, from: KeyStatus, to: KeyStatus, fp: string, revokedToo: bool)
    requires from != KeyRevoked
    ensures Tally(Restatus(keys, environment, from, to), fp, revokedToo) <= Tally(keys, fp, revokedToo)
    ensures revokedToo ==> Tally(Restatus(keys, environment, from, to), fp, revokedToo) == Tally(keys, fp, revokedToo)
  {
    if keys != [] { TallyRestatus(keys[1..], environment, from, to, fp, revokedToo); }
  }

  lemma {:induction false} TallyPut(keys: seq<ApiKey>, k: nat, key: ApiKey, fp: string, revokedToo: bool)
    requires k < |keys|
    ensures Tally(keys[k := key], fp, revokedToo) ==
      Tally(keys, fp, revokedToo) - Counted(keys[k], fp, revokedToo) + Counted(key, fp, revokedToo)
  {
    if k > 0 {
      assert keys[k := key][1..] == keys[1..][k - 1 := key];
      TallyPut(keys[1..], k - 1, key, fp, revokedToo);
    } else {
      assert keys[k := key][1..] == keys[1..];
    }
  }

  lemma {:induction false} TotalPut(services: seq<Service>, n: nat, s: Service, fp: string, revokedToo: bool)
    requires n < |services|
    ensures Total(services[n := s], fp, revokedToo) ==
      Total(services, fp, revokedToo) - Tally(services[n].keys, fp, revokedToo) + Tally(s.keys, fp, revokedToo)
  {
    if n > 0 {
      assert services[n := s][1..] == services[1..][n - 1 := s];
      TotalPut(services[1..], n - 1, s, fp, revokedToo);
    } else {
      assert services[n := s][1..] == services[1..];
    }
  }

  /** What a call may do to the counts of a fingerprint: nothing new unless it issues that fingerprint. */
  ghost predicate Counts(services: seq<Service>, services': seq<Service>, fp: string, issued: nat) {
    && Total(services', fp, true) == Total(services, fp, true) + issued
    && Total(services', fp, false) <= Total(services, fp, false) + issued
  }

  /** The call issues a key with the fingerprint. */
  function Issues(p: Portal, op: Op, fp: string): nat {
    match op
    case IssuingKey(code, environment, liveReady, keyId, f, expiresAt) =>
      if f == fp && IssueKey(p, code, environment, liveReady, keyId, f, expiresAt).1 == Done then 1 else 0
    case Rotating(code, environment, revokePrevious, keyId, f) =>
      if f == fp && EmergencyRotate(p, code, environment, revokePrevious, keyId, f).1 == Done then 1 else 0
    case _ => 0
  }

  lemma PutSameKeys(services: seq<Service>, n: nat, s: Service, fp: string)
    requires n < |services| && s.keys == services[n].keys
    ensures Counts(services, services[n := s], fp, 0)
  {
    TotalPut(services, n, s, fp, true);
    TotalPut(services, n, s, fp, false);
  }

  lemma WithKeyTally(s: Service, key: ApiKey, previous: KeyStatus, fp: string, revokedToo: bool)
    requires key.status == KeyActive
    ensures var own := if key.fingerprint == fp then 1 else 0;
      && Tally(WithKey(s, key, previous).keys, fp, revokedToo) <= Tally(s.keys, fp, revokedToo) + own
      && (revokedToo ==> Tally(WithKey(s, key, previous).keys, fp, revokedToo) == Tally(s.keys, fp, revokedToo) + own)
  {
    TallyAppend(Restatus(s.keys, key.environment, KeyActive, previous), key, fp, revokedToo);
    TallyRestatus(s.keys, key.environment, KeyActive, previous, fp, revokedToo);
  }

  lemma PutKeyCounts(services: seq<Service>, n: nat, key: ApiKey, previous: KeyStatus, fp: string)
    requires n < |services| && key.status == KeyActive
    ensures var own := if key.fingerprint == fp then 1 else 0;
      Counts(services, services[n := WithKey(services[n], key, previous)], fp, own)
  {
    TotalPut(services, n, WithKey(services[n], key, previous), fp, true);
    TotalPut(services, n, WithKey(services[n], key, previous), fp, false);
    WithKeyTally(services[n], key, previous, fp, true);
    WithKeyTally(services[n], key, previous, fp, false);
  }

  lemma AddCounts(services: seq<Service>, s: Service, fp: string)
    requires s.keys == []
    ensures Counts(services, [s] + services, fp, 0)
  {
    assert ([s] + services)[1..] == services;
  }

  lemma ApproveCounts(p: Portal, id: string, serviceCode: string, active: bool, grant: bool, fp: string)
    ensures Counts(p.services, Approve(p, id, serviceCode, active, grant).0.services, fp, 0)
  {
    var n, code := ApproveShape(p, id, serviceCode, active, grant);
    if n < |p.applications| { AddCounts(p.services, NewService(code, p.applications[n], active, grant), fp); }
  }

  lemma IssueCounts(
    p: Portal, code: string, environment: Environment, liveReady: bool, keyId: string, f: string,
    expiresAt: Option<int>, fp: string)
    ensures var (p', outcome) := IssueKey(p, code, environment, liveReady, keyId, f, expiresAt);
      Counts(p.services, p'.services, fp, if f == fp && outcome == Done then 1 else 0)
  {
    var n := IssueShape(p, code, environment, liveReady, keyId, f, expiresAt);
    if n < |p.services| {
      PutKeyCounts(p.services, n, ApiKey(keyId, environment, KeyActive, f, expiresAt), PendingCutover, fp);
    }
  }

  lemma RotateCounts(
    p: Portal, code: string, environment: Environment, revokePrevious: bool, keyId: string, f: string, fp: string)
    ensures var (p', outcome) := EmergencyRotate(p, code, environment, revokePrevious, keyId, f);
      Counts(p.services, p'.services, fp, if f == fp && outcome == Done then 1 else 0)
  {
    var n := Lookup(p.services, code);
    if n < |p.services| {
      PutKeyCounts(
        p.services, n, ApiKey(keyId, environment, KeyActive, f, None),
        if revokePrevious then KeyRevoked else PendingCutover, fp);
    }
  }

  lemma CutoverCounts(services: seq<Service>, n: nat, environment: Environment, fp: string)
    requires n < |services|
    ensures Counts(services, services[n := WithCutover(services[n], environment)], fp, 0)
  {
    var s := services[n];
    TallyRestatus(s.keys, environment, PendingCutover, KeyRevoked, fp, true);
    TallyRestatus(s.keys, environment, PendingCutover, KeyRevoked, fp, false);
    TotalPut(services, n, WithCutover(s, environment), fp, true);
    TotalPut(services, n, WithCutover(s, environment), fp, false);
  }

  lemma DecideRotationCounts(p: Portal, id: string, decision: RotationDecision, fp: string)
    ensures Counts(p.services, DecideRotation(p, id, decision).0.services, fp, 0)
  {
    var n, environment := DecideRotationShape(p, id, decision);
    if n < |p.services| { CutoverCounts(p.services, n, environment, fp); }
  }

  /** Revoking a key takes it out of the keys that count as live. */
  lemma RevokedCounts(services: seq<Service>, n: nat, k: nat, fp: string)
    requires n < |services| && k < |services[n].keys|
    ensures var services' := services[n := WithRevoked(services[n], k)];
      && Counts(services, services', fp, 0)
      && Total(services', fp, false) == Total(services, fp, false) - Counted(services[n].keys[k], fp, false)
  {
    var s, revoked := services[n], services[n].keys[k].(status := KeyRevoked);
    TallyPut(s.keys, k, revoked, fp, true);
    TallyPut(s.keys, k, revoked, fp, false);
    TotalPut(services, n, WithRevoked(s, k), fp, true);
    TotalPut(services, n, WithRevoked(s, k), fp, false);
  }

  lemma RevokeCounts(p: Portal, code: string, keyId: string, fp: string)
    ensures Counts(p.services, RevokeKey(p, code, keyId).0.services, fp, 0)
  {
    var n, k := RevokeShape(p, code, keyId);
    if RevokeKey(p, code, keyId).1 == Done { RevokedCounts(p.services, n, k, fp); }
  }

  lemma RequestCounts(
    p: Portal, code: string, environment: Environment, scopes: seq<string>, freshId: string, fp: string)
    ensures Counts(p.services, SubmitRequest(p, code, environment, scopes, freshId).0.services, fp, 0)
  {
    var n := Lookup(p.services, code);
    if n < |p.services| { PutSameKeys(p.services, n, WithPending(p.services[n], scopes), fp); }
  }

  lemma DecideCounts(p: Portal, id: string, approve: bool, fp: string)
    ensures Counts(p.services, DecideRequest(p, id, approve).0.services, fp, 0)
  {
    var i, n := DecideShape(p, id, approve);
    if DecideRequest(p, id, approve).1 == Done {
      PutSameKeys(p.services, n, WithDecision(p.services[n], p.scopeRequests[i].requestedScopes, approve), fp);
    }
  }

  lemma StatusCounts(p: Portal, code: string, status: ServiceStatus, fp: string)
    ensures Counts(p.services, ChangeStatus(p, code, status).0.services, fp, 0)
  {
    var n := Lookup(p.services, code);
    if n < |p.services| { PutSameKeys(p.services, n, p.services[n].(status := status), fp); }
  }

  lemma StepCounts(p: Portal, op: Op, fp: string)
    ensures Counts(p.services, Step(p, op).services, fp, Issues(p, op, fp))
  {
    match op
    case Applying(_) =>
    case Approving(id, code, active, grant) => ApproveCounts(p, id, code, active, grant, fp);
    case Requesting(code, environment, scopes, freshId) => RequestCounts(p, code, environment, scopes, freshId, fp);
    case DecidingRequest(id, approve) => DecideCounts(p, id, approve, fp);
    case ChangingStatus(code, status) => StatusCounts(p, code, status, fp);
    case IssuingKey(code, environment, liveReady, keyId, f, expiresAt) =>
      IssueCounts(p, code, environment, liveReady, keyId, f, expiresAt, fp);
    case Rotating(code, environment, revokePrevious, keyId, f) =>
      RotateCounts(p, code, environment, revokePrevious, keyId, f, fp);
    case RequestingRotation(_, _, _) =>
    case DecidingRotation(id, decision) => DecideRotationCounts(p, id, decision, fp);
    case RevokingKey(code, keyId) => RevokeCounts(p, code, keyId, fp);
  }

  // --------------------------------------------------------------- revoked for good

  /** A new secret has a fingerprint that no key has. */
  predicate FreshSecret(services: seq<Service>, op: Op) {
    match op
    case IssuingKey(_, _, _, _, f, _) => Total(services, f, true) == 0
    case Rotating(_, _, _, _, f) => Total(services, f, true) == 0
    case _ => true
  }

  ghost predicate FreshSecrets(p: Portal, ops: seq<Op>)
    decreases ops
  {
    ops == [] || (FreshSecret(p.services, ops[0]) && FreshSecrets(Step(p, ops[0]), ops[1..]))
  }

  /** No fingerprint belongs to two keys. */
  lemma {:induction false} FingerprintsUnique(p: Portal, ops: seq<Op>, fp: string)
    requires FreshSecrets(p, ops) && Total(p.services, fp, true) <= 1
    ensures Total(Run(p, ops).services, fp, true) <= 1
    decreases ops
  {
    if ops != [] {
      StepCounts(p, ops[0], fp);
      FingerprintsUnique(Step(p, ops[0]), ops[1..], fp);
    }
  }

  lemma {:induction false} NothingUsable(keys: seq<ApiKey>, fp: string, now: int)
    requires Tally(keys, fp, false) == 0
    ensures UsableKey(keys, fp, now) == None
  {
    if keys != [] { NothingUsable(keys[1..], fp, now); }
  }

  lemma {:induction false} NothingResolves(services: seq<Service>, fp: string, now: int)
    requires Total(services, fp, false) == 0
    ensures Resolve(services, fp, now) == None
  {
    if services != [] {
      NothingUsable(services[0].keys, fp, now);
      NothingResolves(services[1..], fp, now);
    }
  }

  /** What resolves is a usable key of an active service. */
  lemma {:induction false} ResolvedIsUsable(services: seq<Service>, fp: string, now: int) returns (i: nat, k: nat)
    requires Resolve(services, fp, now).Some?
    ensures i < |services| && k < |services[i].keys|
    ensures Resolve(services, fp, now) == Some((services[i], services[i].keys[k]))
    ensures services[i].status == Active && Usable(services[i].keys[k], fp, now)
  {
    var key := UsableKey(services[0].keys, fp, now);
    if services[0].status == Active && key.Some? {
      i := 0;
      k := UsableAt(services[0].keys, fp, now);
    } else {
      i, k := ResolvedIsUsable(services[1..], fp, now);
      i := i + 1;
    }
  }

  lemma {:induction false} UsableAt(keys: seq<ApiKey>, fp: string, now: int) returns (k: nat)
    requires UsableKey(keys, fp, now).Some?
    ensures k < |keys| && UsableKey(keys, fp, now) == Some(keys[k]) && Usable(keys[k], fp, now)
  {
    if Usable(keys[0], fp, now) {
      k := 0;
    } else {
      k := UsableAt(keys[1..], fp, now);
      k := k + 1;
    }
  }

  /** Once all keys with a fingerprint are revoked, it resolves in no later state. */
  lemma {:induction false} DeadStaysDead(p: Portal, ops: seq<Op>, fp: string, now: int)
    requires FreshSecrets(p, ops) && Total(p.services, fp, true) >= 1 && Total(p.services, fp, false) == 0
    ensures Resolve(Run(p, ops).services, fp, now) == None
    decreases ops
  {
    if ops == [] {
      NothingResolves(p.services, fp, now);
    } else {
      StepCounts(p, ops[0], fp);
      DeadStaysDead(Step(p, ops[0]), ops[1..], fp, now);
    }
  }

  /** A key that is revoked, from any state with unique fingerprints, never resolves again. */
  lemma RevokedNeverResolves(p: Portal, code: string, keyId: string, n: nat, k: nat, ops: seq<Op>, now: int)
    requires n == Lookup(p.services, code) && n < |p.services| && k == IndexOfKey(p.services[n].keys, keyId)
    requires k < |p.services[n].keys|
    requires Total(p.services, p.services[n].keys[k].fingerprint, true) == 1
    requires FreshSecrets(RevokeKey(p, code, keyId).0, ops)
    ensures Resolve(Run(RevokeKey(p, code, keyId).0, ops).services, p.services[n].keys[k].fingerprint, now) == None
  {
    var fp := p.services[n].keys[k].fingerprint;
    RevokedCounts(p.services, n, k, fp);
    OneLess(p.services, n, k, fp);
    DeadStaysDead(RevokeKey(p, code, keyId).0, ops, fp, now);
  }

  lemma {:induction false} LiveWithinKeys(keys: seq<ApiKey>, fp: string)
    ensures Tally(keys, fp, false) <= Tally(keys, fp, true)
  {
    if keys != [] { LiveWithinKeys(keys[1..], fp); }
  }

  lemma {:induction false} LiveWithin(services: seq<Service>, fp: string)
    ensures Total(services, fp, false) <= Total(services, fp, true)
  {
    if services != [] {
      LiveWithinKeys(services[0].keys, fp);
      LiveWithin(services[1..], fp);
    }
  }

  /** If the only key with the fingerprint is the `k`-th of the `n`-th service, no other one is live. */
  lemma {:induction false} OneLess(services: seq<Service>, n: nat, k: nat, fp: string)
    requires n < |services| && k < |services[n].keys| && services[n].keys[k].fingerprint == fp
    requires Total(services, fp, true) == 1
    ensures Total(services, fp, false) == Counted(services[n].keys[k], fp, false)
  {
    var s := services[n];
    var gone := s.keys[k].(fingerprint := fp + "'");
    TallyPut(s.keys, k, gone, fp, true);
    TallyPut(s.keys, k, gone, fp, false);
    var without := services[n := s.(keys := s.keys[k := gone])];
    TotalPut(services, n, s.(keys := s.keys[k := gone]), fp, true);
    TotalPut(services, n, s.(keys := s.keys[k := gone]), fp, false);
    LiveWithin(without, fp);
  }

  // ------------------------------------------------------------ keys stay listed

  function FingerprintsOf(keys: seq<ApiKey>): set<string> {
    set key | key in keys :: key.fingerprint
  }

  /** The service with the code is still there and still lists its keys, whatever their status. */
  ghost predicate KeysKept(services: seq<Service>, services': seq<Service>, code: string) {
    var n, n' := IndexOf(services, code), IndexOf(services', code);
    n < |services| ==> n' < |services'| && FingerprintsOf(services[n].keys) <= FingerprintsOf(services'[n'].keys)
  }

  lemma {:induction false} RestatusKeepsFingerprints(
    keys: seq<ApiKey>, environment: Environment, from: KeyStatus, to: KeyStatus)
    ensures FingerprintsOf(keys) <= FingerprintsOf(Restatus(keys, environment, from, to))
  {
    var keys' := Restatus(keys, environment, from, to);
    forall key | key in keys ensures key.fingerprint in FingerprintsOf(keys') {
      var i :| 0 <= i < |keys| && keys[i] == key;
      RestatusAt(keys, environment, from, to, i);
      assert keys'[i] in keys';
    }
  }

  lemma WithKeyKeepsFingerprints(s: Service, key: ApiKey, previous: KeyStatus)
    ensures FingerprintsOf(s.keys) <= FingerprintsOf(WithKey(s, key, previous).keys)
  {
    RestatusKeepsFingerprints(s.keys, key.environment, KeyActive, previous);
  }

  lemma WithRevokedKeepsFingerprints(s: Service, k: nat)
    requires k < |s.keys|
    ensures FingerprintsOf(s.keys) <= FingerprintsOf(WithRevoked(s, k).keys)
  {
    var keys' := WithRevoked(s, k).keys;
    forall key | key in s.keys ensures key.fingerprint in FingerprintsOf(keys') {
      var i :| 0 <= i < |s.keys| && s.keys[i] == key;
      assert keys'[i] in keys' && keys'[i].fingerprint == key.fingerprint;
    }
  }

  lemma PutKeepsKeys(services: seq<Service>, n: nat, s: Service, code: string)
    requires n < |services| && s.serviceCode == services[n].serviceCode
    requires FingerprintsOf(services[n].keys) <= FingerprintsOf(s.keys)
    ensures KeysKept(services, services[n := s], code) && KeysKept(services, services, code)
  {
    IndexOfPut(services, n, s, code);
  }

  lemma AddKeepsKeys(services: seq<Service>, s: Service, code: string)
    requires !Taken(services, s.serviceCode)
    ensures KeysKept(services, [s] + services, code) && KeysKept(services, services, code)
  {
    var n := IndexOf(services, code);
    if n < |services| {
      assert services[n].serviceCode == code;
      IndexOfAdded(services, s, code);
      assert ([s] + services)[n + 1] == services[n];
    }
  }

  lemma ApproveKeepsKeys(p: Portal, id: string, serviceCode: string, active: bool, grant: bool, code: string)
    ensures KeysKept(p.services, Approve(p, id, serviceCode, active, grant).0.services, code)
  {
    var n, added := ApproveShape(p, id, serviceCode, active, grant);
    if n < |p.applications| { AddKeepsKeys(p.services, NewService(added, p.applications[n], active, grant), code); }
  }

  lemma RequestKeepsKeys(
    p: Portal, requested: string, environment: Environment, scopes: seq<string>, freshId: string, code: string)
    ensures KeysKept(p.services, SubmitRequest(p, requested, environment, scopes, freshId).0.services, code)
  {
    var n := Lookup(p.services, requested);
    if n < |p.services| { PutKeepsKeys(p.services, n, WithPending(p.services[n], scopes), code); }
  }

  lemma DecideKeepsKeys(p: Portal, id: string, approve: bool, code: string)
    ensures KeysKept(p.services, DecideRequest(p, id, approve).0.services, code)
  {
    var i, n := DecideShape(p, id, approve);
    if DecideRequest(p, id, approve).1 == Done {
      PutKeepsKeys(p.services, n, WithDecision(p.services[n], p.scopeRequests[i].requestedScopes, approve), code);
    }
  }

  lemma StatusKeepsKeys(p: Portal, changed: string, status: ServiceStatus, code: string)
    ensures KeysKept(p.services, ChangeStatus(p, changed, status).0.services, code)
  {
    var n := Lookup(p.services, changed);
    if n < |p.services| { PutKeepsKeys(p.services, n, p.services[n].(status := status), code); }
  }

  lemma IssueKeepsKeys(
    p: Portal, issued: string, environment: Environment, liveReady: bool, keyId: string, fp: string,
    expiresAt: Option<int>, code: string)
    ensures KeysKept(p.services, IssueKey(p, issued, environment, liveReady, keyId, fp, expiresAt).0.services, code)
  {
    var n := IssueShape(p, issued, environment, liveReady, keyId, fp, expiresAt);
    if IssueKey(p, issued, environment, liveReady, keyId, fp, expiresAt).1 == Done {
      var key := ApiKey(keyId, environment, KeyActive, fp, expiresAt);
      WithKeyKeepsFingerprints(p.services[n], key, PendingCutover);
      PutKeepsKeys(p.services, n, WithKey(p.services[n], key, PendingCutover), code);
    }
  }

  lemma RotateKeepsKeys(
    p: Portal, rotated: string, environment: Environment, revokePrevious: bool, keyId: string, fp: string, code: string)
    ensures KeysKept(p.services, EmergencyRotate(p, rotated, environment, revokePrevious, keyId, fp).0.services, code)
  {
    var n := Lookup(p.services, rotated);
    if n < |p.services| {
      var key := ApiKey(keyId, environment, KeyActive, fp, None);
      var previous := if revokePrevious then KeyRevoked else PendingCutover;
      WithKeyKeepsFingerprints(p.services[n], key, previous);
      PutKeepsKeys(p.services, n, WithKey(p.services[n], key, previous), code);
    }
  }

  lemma CutoverKeepsKeys(p: Portal, id: string, decision: RotationDecision, code: string)
    ensures KeysKept(p.services, DecideRotation(p, id, decision).0.services, code)
  {
    var n, environment := DecideRotationShape(p, id, decision);
    if n < |p.services| {
      RestatusKeepsFingerprints(p.services[n].keys, environment, PendingCutover, KeyRevoked);
      PutKeepsKeys(p.services, n, WithCutover(p.services[n], environment), code);
    }
  }

  lemma RevokeKeepsKeys(p: Portal, revoked: string, keyId: string, code: string)
    ensures KeysKept(p.services, RevokeKey(p, revoked, keyId).0.services, code)
  {
    var n, k := RevokeShape(p, revoked, keyId);
    if RevokeKey(p, revoked, keyId).1 == Done {
      WithRevokedKeepsFingerprints(p.services[n], k);
      PutKeepsKeys(p.services, n, WithRevoked(p.services[n], k), code);
    }
  }

  lemma StepKeepsKeys(p: Portal, op: Op, code: string)
    ensures KeysKept(p.services, Step(p, op).services, code)
  {
    match op
    case Approving(id, serviceCode, active, grant) => ApproveKeepsKeys(p, id, serviceCode, active, grant, code);
    case Requesting(requested, environment, scopes, freshId) =>
      RequestKeepsKeys(p, requested, environment, scopes, freshId, code);
    case DecidingRequest(id, approve) => DecideKeepsKeys(p, id, approve, code);
    case ChangingStatus(changed, status) => StatusKeepsKeys(p, changed, status, code);
    case IssuingKey(issued, environment, liveReady, keyId, fp, expiresAt) =>
      IssueKeepsKeys(p, issued, environment, liveReady, keyId, fp, expiresAt, code);
    case Rotating(rotated, environment, revokePrevious, keyId, fp) =>
      RotateKeepsKeys(p, rotated, environment, revokePrevious, keyId, fp, code);
    case DecidingRotation(id, decision) => CutoverKeepsKeys(p, id, decision, code);
    case RevokingKey(revoked, keyId) => RevokeKeepsKeys(p, revoked, keyId, code);
    case _ =>
  }

  /** In every run a service keeps listing its keys, which is what the authorization flow assumes. */
  lemma {:induction false} RunKeepsKeys(p: Portal, ops: seq<Op>, code: string)
    ensures KeysKept(p.services, Run(p, ops).services, code)
    decreases ops
  {
    if ops != [] {
      StepKeepsKeys(p, ops[0], code);
      RunKeepsKeys(Step(p, ops[0]), ops[1..], code);
    }
  }
}
