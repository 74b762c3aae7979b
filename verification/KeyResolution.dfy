/** Which API keys resolve: exactly the live ones of active services, and over runs exactly until they are
    revoked, cut over or expired. */
module KeyResolution {
  import opened Wrappers
  import opened Environments
  import opened Slugs
  import opened DeveloperPortalStore
  import opened ScopeLifecycle
  import opened KeyLifecycle

  /** The `k`-th key of the `i`-th service has the fingerprint, is active or awaits cutover, and has not expired;
      the service is active. */
  predicate Serves(services: seq<Service>, i: nat, k: nat, fp: string, now: int) {
    && i < |services| && services[i].status == Active && k < |services[i].keys|
    && services[i].keys[k].fingerprint == fp
    && (services[i].keys[k].status == KeyActive || services[i].keys[k].status == PendingCutover)
    && (services[i].keys[k].expiresAt.Some? ==> now < services[i].keys[k].expiresAt.value)
  }

  lemma {:induction false} UsableFirst(keys: seq<ApiKey>, fp: string, now: int, k: nat)
    requires k < |keys| && Usable(keys[k], fp, now) && forall j :: 0 <= j < k ==> !Usable(keys[j], fp, now)
    ensures UsableKey(keys, fp, now) == Some(keys[k])
  {
    if k > 0 {
      assert forall j :: 0 <= j < k - 1 ==> keys[1..][j] == keys[j + 1];
      UsableFirst(keys[1..], fp, now, k - 1);
    }
  }

  lemma {:induction false} NoneUsable(keys: seq<ApiKey>, fp: string, now: int)
    requires forall j :: 0 <= j < |keys| ==> !Usable(keys[j], fp, now)
    ensures UsableKey(keys, fp, now) == None
  {
    if keys != [] {
      assert forall j :: 0 <= j < |keys| - 1 ==> keys[1..][j] == keys[j + 1];
      NoneUsable(keys[1..], fp, now);
    }
  }

  /** The first service that serves the fingerprint, and its first such key, are what resolves. */
  lemma {:induction false} FirstServes(services: seq<Service>, i: nat, k: nat, fp: string, now: int)
    requires Serves(services, i, k, fp, now)
    requires forall i', k' :: 0 <= i' < i || (i' == i && 0 <= k' < k) ==> k' < 0 || !Serves(services, i', k', fp, now)
    ensures Resolve(services, fp, now) == Some((services[i], services[i].keys[k]))
    decreases i
  {
    if i == 0 {
      forall j | 0 <= j < k ensures !Usable(services[0].keys[j], fp, now) {
        assert !Serves(services, 0, j, fp, now);
      }
      UsableFirst(services[0].keys, fp, now, k);
    } else {
      if services[0].status == Active {
        forall j | 0 <= j < |services[0].keys| ensures !Usable(services[0].keys[j], fp, now) {
          assert !Serves(services, 0, j, fp, now);
        }
        NoneUsable(services[0].keys, fp, now);
      }
      forall i', k' | (0 <= i' < i - 1 || (i' == i - 1 && 0 <= k' < k)) && 0 <= k'
        ensures !Serves(services[1..], i', k', fp, now)
      {
        assert !Serves(services, i' + 1, k', fp, now);
      }
      FirstServes(services[1..], i - 1, k, fp, now);
    }
  }

  /** A fingerprint resolves if and only if some key serves it. */
  lemma {:induction false} ResolvesIff(services: seq<Service>, fp: string, now: int)
    ensures Resolve(services, fp, now).Some? <==> exists i: nat, k: nat :: Serves(services, i, k, fp, now)
  {
    if Resolve(services, fp, now).Some? {
      var i, k := ResolvedIsUsable(services, fp, now);
      assert Serves(services, i, k, fp, now);
    }
    if exists i: nat, k: nat :: Serves(services, i, k, fp, now) {
      var i: nat, k: nat :| Serves(services, i, k, fp, now);
      ServingResolves(services, i, k, fp, now);
    }
  }

  lemma {:induction false} ServingResolves(services: seq<Service>, i: nat, k: nat, fp: string, now: int)
    requires Serves(services, i, k, fp, now)
    ensures Resolve(services, fp, now).Some?
    decreases i
  {
    if UsableKey(services[0].keys, fp, now).None? || services[0].status != Active {
      if i == 0 {
        if forall j :: 0 <= j < k ==> !Usable(services[0].keys[j], fp, now) {
          UsableFirst(services[0].keys, fp, now, k);
        } else {
          SomeUsable(services[0].keys, fp, now, k);
        }
      } else {
        ServingResolves(services[1..], i - 1, k, fp, now);
      }
    }
  }

  lemma {:induction false} SomeUsable(keys: seq<ApiKey>, fp: string, now: int, k: nat)
    requires k < |keys| && Usable(keys[k], fp, now)
    ensures UsableKey(keys, fp, now).Some?
  {
    if !Usable(keys[0], fp, now) { SomeUsable(keys[1..], fp, now, k - 1); }
  }

  // ---------------------------------------------------------------- one key, one step

  /** What a call makes of the status of a key: another key for its environment has it await cutover, or revokes
      it; a completed rotation revokes it if it awaits cutover; and so does its own revocation. */
  function StatusAfter(p: Portal, op: Op, s: Service, k: nat): KeyStatus
    requires k < |s.keys|
  {
    var key := s.keys[k];
    match op
    case IssuingKey(code, environment, liveReady, _, _, _) =>
      if && Slug(code) == s.serviceCode && environment == key.environment && key.status == KeyActive
         && (environment == Live ==> Live in s.environments && liveReady)
      then PendingCutover else key.status
    case Rotating(code, environment, revokePrevious, _, _) =>
      if Slug(code) == s.serviceCode && environment == key.environment && key.status == KeyActive
      then if revokePrevious then KeyRevoked else PendingCutover
      else key.status
    case DecidingRotation(id, CompleteRotation) =>
      var i := IndexOfRotation(p.rotations, id);
      if && i < |p.rotations| && Slug(p.rotations[i].serviceCode) == s.serviceCode
         && p.rotations[i].environment == key.environment && key.status == PendingCutover
      then KeyRevoked else key.status
    case RevokingKey(code, keyId) =>
      if Slug(code) == s.serviceCode && IndexOfKey(s.keys, keyId) == k then KeyRevoked else key.status
    case _ => key.status
  }

  /** The key is still there, where it was, with the status and nothing else changed. */
  ghost predicate KeyKept(services: seq<Service>, services': seq<Service>, code: string, k: nat, status: KeyStatus) {
    var n, n' := IndexOf(services, code), IndexOf(services', code);
    && n < |services| && n' < |services'| && k < |services[n].keys| && k < |services'[n'].keys|
    && services'[n'].keys[k] == services[n].keys[k].(status := status)
  }

  lemma PutKept(services: seq<Service>, m: nat, s: Service, code: string, k: nat, status: KeyStatus)
    requires m < |services| && s.serviceCode == services[m].serviceCode
    requires var n := IndexOf(services, code);
      && n < |services| && k < |services[n].keys|
      && if n == m then k < |s.keys| && s.keys[k] == services[n].keys[k].(status := status)
         else services[n].keys[k].status == status
    ensures KeyKept(services, services[m := s], code, k, status)
  {
    IndexOfPut(services, m, s, code);
  }

  lemma AddKept(services: seq<Service>, s: Service, code: string, k: nat)
    requires !Taken(services, s.serviceCode)
    requires var n := IndexOf(services, code); n < |services| && k < |services[n].keys|
    ensures KeyKept(services, [s] + services, code, k, services[IndexOf(services, code)].keys[k].status)
  {
    var n := IndexOf(services, code);
    assert services[n].serviceCode == code;
    IndexOfAdded(services, s, code);
    assert ([s] + services)[n + 1] == services[n];
  }

  /** With distinct codes the service that a text finds is the one with the text's slug as its code. */
  lemma FoundIff(services: seq<Service>, code: string, x: string)
    requires IndexOf(services, code) < |services|
    ensures Lookup(services, x) == IndexOf(services, code) <==> Slug(x) == code
  {
  }

  lemma WithKeyKept(services: seq<Service>, m: nat, key: ApiKey, previous: KeyStatus, code: string, k: nat)
    requires m < |services|
    requires var n := IndexOf(services, code); n < |services| && k < |services[n].keys|
    ensures
      var n := IndexOf(services, code);
      var held := services[n].keys[k];
      KeyKept(services, services[m := WithKey(services[m], key, previous)], code, k,
              if n == m && held.environment == key.environment && held.status == KeyActive
              then previous else held.status)
  {
    var n := IndexOf(services, code);
    var held := services[n].keys[k];
    if m == n { RestatusAt(services[m].keys, key.environment, KeyActive, previous, k); }
    PutKept(services, m, WithKey(services[m], key, previous), code, k,
            if n == m && held.environment == key.environment && held.status == KeyActive
            then previous else held.status);
  }

  lemma IssueKept(
    p: Portal, c: string, environment: Environment, liveReady: bool, keyId: string, fp: string, expiresAt: Option<int>,
    code: string, k: nat)
    requires var n := IndexOf(p.services, code); n < |p.services| && k < |p.services[n].keys|
    ensures var op := IssuingKey(c, environment, liveReady, keyId, fp, expiresAt);
      KeyKept(p.services, Step(p, op).services, code, k, StatusAfter(p, op, p.services[IndexOf(p.services, code)], k))
  {
    var m := Lookup(p.services, c);
    FoundIff(p.services, code, c);
    var s := p.services[IndexOf(p.services, code)];
    assert s.serviceCode == code;
    if IssueKey(p, c, environment, liveReady, keyId, fp, expiresAt).1 == Done {
      WithKeyKept(p.services, m, ApiKey(keyId, environment, KeyActive, fp, expiresAt), PendingCutover, code, k);
    } else {
      assert StatusAfter(p, IssuingKey(c, environment, liveReady, keyId, fp, expiresAt), s, k) == s.keys[k].status;
    }
  }

  lemma RotateKept(
    p: Portal, c: string, environment: Environment, revokePrevious: bool, keyId: string, fp: string, code: string,
    k: nat)
    requires var n := IndexOf(p.services, code); n < |p.services| && k < |p.services[n].keys|
    ensures
      var key := p.services[IndexOf(p.services, code)].keys[k];
      KeyKept(p.services, EmergencyRotate(p, c, environment, revokePrevious, keyId, fp).0.services, code, k,
              if Slug(c) != code || environment != key.environment || key.status != KeyActive then key.status
              else if revokePrevious then KeyRevoked else PendingCutover)
  {
    var m := Lookup(p.services, c);
    FoundIff(p.services, code, c);
    if m < |p.services| {
      var previous := if revokePrevious then KeyRevoked else PendingCutover;
      WithKeyKept(p.services, m, ApiKey(keyId, environment, KeyActive, fp, None), previous, code, k);
    }
  }

  lemma DecideRotationKept(p: Portal, id: string, decision: RotationDecision, code: string, k: nat)
    requires var n := IndexOf(p.services, code); n < |p.services| && k < |p.services[n].keys|
    ensures var op := DecidingRotation(id, decision);
      KeyKept(p.services, Step(p, op).services, code, k, StatusAfter(p, op, p.services[IndexOf(p.services, code)], k))
  {
    var n, i := IndexOf(p.services, code), IndexOfRotation(p.rotations, id);
    if i < |p.rotations| {
      var m, environment := Lookup(p.services, p.rotations[i].serviceCode), p.rotations[i].environment;
      FoundIff(p.services, code, p.rotations[i].serviceCode);
      if m < |p.services| && decision == CompleteRotation {
        if m == n { RestatusAt(p.services[m].keys, environment, PendingCutover, KeyRevoked, k); }
        var op := DecidingRotation(id, decision);
        PutKept(p.services, m, WithCutover(p.services[m], environment), code, k, StatusAfter(p, op, p.services[n], k));
      }
    }
  }

  lemma RevokeKept(p: Portal, c: string, keyId: string, code: string, k: nat)
    requires var n := IndexOf(p.services, code); n < |p.services| && k < |p.services[n].keys|
    ensures var op := RevokingKey(c, keyId);
      KeyKept(p.services, Step(p, op).services, code, k, StatusAfter(p, op, p.services[IndexOf(p.services, code)], k))
  {
    var n, m := IndexOf(p.services, code), Lookup(p.services, c);
    FoundIff(p.services, code, c);
    if m < |p.services| {
      var j := IndexOfKey(p.services[m].keys, keyId);
      if j < |p.services[m].keys| {
        var op := RevokingKey(c, keyId);
        PutKept(p.services, m, WithRevoked(p.services[m], j), code, k, StatusAfter(p, op, p.services[n], k));
      }
    }
  }

  /** A service replaced by one with the same keys. */
  lemma SameKeysKept(services: seq<Service>, m: nat, s: Service, code: string, k: nat)
    requires m < |services| && s.serviceCode == services[m].serviceCode && s.keys == services[m].keys
    requires var n := IndexOf(services, code); n < |services| && k < |services[n].keys|
    ensures KeyKept(services, services[m := s], code, k, services[IndexOf(services, code)].keys[k].status)
  {
    PutKept(services, m, s, code, k, services[IndexOf(services, code)].keys[k].status);
  }

  lemma RequestKept(p: Portal, c: string, environment: Environment, scopes: seq<string>, freshId: string, code: string,
                    k: nat)
    requires var n := IndexOf(p.services, code); n < |p.services| && k < |p.services[n].keys|
    ensures var status := p.services[IndexOf(p.services, code)].keys[k].status;
      KeyKept(p.services, SubmitRequest(p, c, environment, scopes, freshId).0.services, code, k, status)
  {
    var m := Lookup(p.services, c);
    if m < |p.services| { SameKeysKept(p.services, m, WithPending(p.services[m], scopes), code, k); }
  }

  lemma DecideKept(p: Portal, id: string, approve: bool, code: string, k: nat)
    requires var n := IndexOf(p.services, code); n < |p.services| && k < |p.services[n].keys|
    ensures var status := p.services[IndexOf(p.services, code)].keys[k].status;
      KeyKept(p.services, DecideRequest(p, id, approve).0.services, code, k, status)
  {
    var i, m := DecideShape(p, id, approve);
    if DecideRequest(p, id, approve).1 == Done {
      SameKeysKept(
        p.services, m, WithDecision(p.services[m], p.scopeRequests[i].requestedScopes, approve), code, k);
    }
  }

  lemma StatusKept(p: Portal, c: string, changed: ServiceStatus, code: string, k: nat)
    requires var n := IndexOf(p.services, code); n < |p.services| && k < |p.services[n].keys|
    ensures var status := p.services[IndexOf(p.services, code)].keys[k].status;
      KeyKept(p.services, ChangeStatus(p, c, changed).0.services, code, k, status)
  {
    var m := Lookup(p.services, c);
    if m < |p.services| { SameKeysKept(p.services, m, p.services[m].(status := changed), code, k); }
  }

  /** Every call keeps every key in its place, and makes of its status what is written above. */
  lemma StepKeepsKey(p: Portal, op: Op, code: string, k: nat)
    requires var n := IndexOf(p.services, code); n < |p.services| && k < |p.services[n].keys|
    ensures var s := p.services[IndexOf(p.services, code)];
      KeyKept(p.services, Step(p, op).services, code, k, StatusAfter(p, op, s, k))
  {
    match op
    case Approving(id, c, active, grant) =>
      var m, added := ApproveShape(p, id, c, active, grant);
      if m < |p.applications| { AddKept(p.services, NewService(added, p.applications[m], active, grant), code, k); }
    case IssuingKey(c, environment, liveReady, keyId, fp, expiresAt) =>
      IssueKept(p, c, environment, liveReady, keyId, fp, expiresAt, code, k);
    case Rotating(c, environment, revokePrevious, keyId, fp) =>
      RotateKept(p, c, environment, revokePrevious, keyId, fp, code, k);
    case DecidingRotation(id, decision) => DecideRotationKept(p, id, decision, code, k);
    case RevokingKey(c, keyId) => RevokeKept(p, c, keyId, code, k);
    case Requesting(c, environment, scopes, freshId) => RequestKept(p, c, environment, scopes, freshId, code, k);
    case DecidingRequest(id, approve) => DecideKept(p, id, approve, code, k);
    case ChangingStatus(c, changed) => StatusKept(p, c, changed, code, k);
    case _ =>
  }

  // ----------------------------------------------------------------- one key, every run

  /** The status that the calls of a run make of a key. */
  function StatusLater(p: Portal, ops: seq<Op>, code: string, k: nat): KeyStatus
    requires var n := IndexOf(p.services, code); n < |p.services| && k < |p.services[n].keys|
    decreases ops
  {
    if ops == [] then p.services[IndexOf(p.services, code)].keys[k].status
    else
      StepKeepsKey(p, ops[0], code, k);
      StatusLater(Step(p, ops[0]), ops[1..], code, k)
  }

  /** The call revokes a key that was not. */
  predicate EndsKey(p: Portal, op: Op, code: string, k: nat) {
    var n := IndexOf(p.services, code);
    && n < |p.services| && k < |p.services[n].keys| && p.services[n].keys[k].status != KeyRevoked
    && StatusAfter(p, op, p.services[n], k) == KeyRevoked
  }

  lemma {:induction false} RunKeepsKey(p: Portal, ops: seq<Op>, code: string, k: nat)
    requires var n := IndexOf(p.services, code); n < |p.services| && k < |p.services[n].keys|
    ensures KeyKept(p.services, Run(p, ops).services, code, k, StatusLater(p, ops, code, k))
    decreases ops
  {
    if ops != [] {
      StepKeepsKey(p, ops[0], code, k);
      RunKeepsKey(Step(p, ops[0]), ops[1..], code, k);
    }
  }

  /** After a run a key is revoked if and only if it was before, or some call of the run ended it. */
  lemma {:induction false} RevokedIffEnded(p: Portal, ops: seq<Op>, code: string, k: nat)
    requires var n := IndexOf(p.services, code); n < |p.services| && k < |p.services[n].keys|
    ensures StatusLater(p, ops, code, k) == KeyRevoked <==>
      || p.services[IndexOf(p.services, code)].keys[k].status == KeyRevoked
      || exists j :: 0 <= j < |ops| && EndsKey(Run(p, ops[..j]), ops[j], code, k)
    decreases ops
  {
    if ops != [] {
      var p1, rest := Step(p, ops[0]), ops[1..];
      StepKeepsKey(p, ops[0], code, k);
      RevokedIffEnded(p1, rest, code, k);
      assert ops[..0] == [];
      forall j | 0 <= j < |rest| ensures Run(p, ops[..j + 1]) == Run(p1, rest[..j]) {
        assert ops[..j + 1][1..] == rest[..j];
      }
      if j :| 0 <= j < |ops| && EndsKey(Run(p, ops[..j]), ops[j], code, k) && j > 0 {
        assert EndsKey(Run(p1, rest[..j - 1]), rest[j - 1], code, k);
      }
      if j :| 0 <= j < |rest| && EndsKey(Run(p1, rest[..j]), rest[j], code, k) {
        assert EndsKey(Run(p, ops[..j + 1]), ops[j + 1], code, k);
      }
    }
  }

  lemma {:induction false} TallyHas(keys: seq<ApiKey>, fp: string, k: nat)
    requires k < |keys| && keys[k].fingerprint == fp
    ensures Tally(keys, fp, true) >= 1
    ensures forall j :: 0 <= j < |keys| && j != k && keys[j].fingerprint == fp ==> Tally(keys, fp, true) >= 2
  {
    if k > 0 {
      TallyHas(keys[1..], fp, k - 1);
      forall j | 0 <= j < |keys| && j != k && keys[j].fingerprint == fp ensures Tally(keys, fp, true) >= 2 {
        assert j > 0 ==> keys[1..][j - 1] == keys[j];
      }
    } else {
      forall j | 0 < j < |keys| && keys[j].fingerprint == fp ensures Tally(keys, fp, true) >= 2 {
        TallyHas(keys[1..], fp, j - 1);
      }
    }
  }

  lemma {:induction false} TotalHas(services: seq<Service>, fp: string, i: nat, k: nat)
    requires i < |services| && k < |services[i].keys| && services[i].keys[k].fingerprint == fp
    ensures Total(services, fp, true) >= Tally(services[i].keys, fp, true) >= 1
  {
    TallyHas(services[i].keys, fp, k);
    if i > 0 { TotalHas(services[1..], fp, i - 1, k); }
  }

  /** A fingerprint counted once is that of no other key. */
  lemma {:induction false} OnlyKey(services: seq<Service>, fp: string, i: nat, k: nat, i': nat, k': nat)
    requires Total(services, fp, true) <= 1
    requires i < |services| && k < |services[i].keys| && services[i].keys[k].fingerprint == fp
    requires i' < |services| && k' < |services[i'].keys| && services[i'].keys[k'].fingerprint == fp
    ensures i == i' && k == k'
  {
    TotalHas(services, fp, i, k);
    TotalHas(services, fp, i', k');
    if i == i' {
      TallyHas(services[i].keys, fp, k);
    } else if i == 0 {
      TotalHas(services[1..], fp, i' - 1, k');
    } else if i' == 0 {
      TotalHas(services[1..], fp, i - 1, k);
    } else {
      OnlyKey(services[1..], fp, i - 1, k, i' - 1, k');
    }
  }

  /** After any run with new secrets, a key's fingerprint resolves to that key, and does so if and only if its
      service is active, no call has ended the key, and it has not expired. */
  lemma {:induction false} ResolvesUntilEnded(p: Portal, ops: seq<Op>, code: string, k: nat, fp: string, now: int)
    requires var n := IndexOf(p.services, code);
      n < |p.services| && k < |p.services[n].keys| && p.services[n].keys[k].fingerprint == fp
    requires FreshSecrets(p, ops) && Total(p.services, fp, true) <= 1
    ensures
      var q, key := Run(p, ops), p.services[IndexOf(p.services, code)].keys[k];
      var n := IndexOf(q.services, code);
      && KeyKept(p.services, q.services, code, k, StatusLater(p, ops, code, k))
      && Resolve(q.services, fp, now) ==
           if && q.services[n].status == Active && key.status != KeyRevoked
              && (forall j :: 0 <= j < |ops| ==> !EndsKey(Run(p, ops[..j]), ops[j], code, k))
              && (key.expiresAt.Some? ==> now < key.expiresAt.value)
           then Some((q.services[n], key.(status := StatusLater(p, ops, code, k)))) else None
  {
    var q, key := Run(p, ops), p.services[IndexOf(p.services, code)].keys[k];
    RunKeepsKey(p, ops, code, k);
    RevokedIffEnded(p, ops, code, k);
    FingerprintsUnique(p, ops, fp);
    var n := IndexOf(q.services, code);
    forall i: nat, j: nat | Serves(q.services, i, j, fp, now) ensures i == n && j == k {
      OnlyKey(q.services, fp, n, k, i, j);
    }
    ResolvesIff(q.services, fp, now);
    if Serves(q.services, n, k, fp, now) { FirstServes(q.services, n, k, fp, now); }
  }

  /** A new key is put last and is active; the active ones it replaces await cutover. Both resolve, from then on
      until `ResolvesUntilEnded` says otherwise. */
  lemma IssuedAndReplacedServe(
    p: Portal, c: string, environment: Environment, liveReady: bool, keyId: string, fp: string, expiresAt: Option<int>,
    k: nat, now: int)
    requires var (p', outcome) := IssueKey(p, c, environment, liveReady, keyId, fp, expiresAt); outcome == Done
    requires var n := Lookup(p.services, c); n < |p.services| && p.services[n].status == Active
    requires expiresAt.Some? ==> now < expiresAt.value
    ensures
      var n, p' := Lookup(p.services, c), IssueKey(p, c, environment, liveReady, keyId, fp, expiresAt).0;
      && n < |p'.services| && |p'.services[n].keys| == |p.services[n].keys| + 1
      && Serves(p'.services, n, |p.services[n].keys|, fp, now)
      && p'.services[n].keys[|p.services[n].keys|] == ApiKey(keyId, environment, KeyActive, fp, expiresAt)
      && (k < |p.services[n].keys| ==>
            (Serves(p'.services, n, k, p.services[n].keys[k].fingerprint, now) <==>
             Serves(p.services, n, k, p.services[n].keys[k].fingerprint, now)))
  {
    var n := Lookup(p.services, c);
    if k < |p.services[n].keys| { RestatusAt(p.services[n].keys, environment, KeyActive, PendingCutover, k); }
  }
}
