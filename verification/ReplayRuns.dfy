/** Replay protection over whole runs of signed requests. */
module ReplayRuns {
  import opened Wrappers
  import opened Strings
  import opened RequestGuard

  /** A request as the signature guard sees it. Its signature covers the timestamp and the nonce. */
  datatype Request = Request(subject: string, nonce: string, timestamp: Option<real>, signed: bool, now: int)

  /** `assertFinancialRequestSignature`: freshness, then the signature, then the nonce. */
  function Check(cache: Entries, r: Request, cfg: ReplayConfig, hash: string -> Key): (Entries, Verdict) {
    if CheckTimestamp(r.timestamp, cfg.toleranceSeconds, r.now) != Allowed
    then (cache, CheckTimestamp(r.timestamp, cfg.toleranceSeconds, r.now))
    else if !r.signed then (cache, SignatureInvalid)
    else CheckNonce(cache, r.subject, r.nonce, cfg, r.now, hash)
  }

  /** The cache after the requests, from an empty one. */
  function After(rs: seq<Request>, cfg: ReplayConfig, hash: string -> Key): Entries {
    if rs == [] then [] else Check(After(rs[..|rs| - 1], cfg, hash), rs[|rs| - 1], cfg, hash).0
  }

  predicate Accepted(rs: seq<Request>, i: nat, cfg: ReplayConfig, hash: string -> Key)
    requires i < |rs|
  {
    Check(After(rs[..i], cfg, hash), rs[i], cfg, hash).1 == Allowed
  }

  /** How many of the requests from `i` up to `j` were accepted. */
  function Acceptances(rs: seq<Request>, i: nat, j: nat, cfg: ReplayConfig, hash: string -> Key): nat
    requires i <= j <= |rs|
    decreases j
  {
    if i == j then 0 else Acceptances(rs, i, j - 1, cfg, hash) + if Accepted(rs, j - 1, cfg, hash) then 1 else 0
  }

  ghost predicate MonotoneClock(rs: seq<Request>) {
    forall i, j :: 0 <= i <= j < |rs| ==> rs[i].now <= rs[j].now
  }

  predicate SameSignedRequest(a: Request, b: Request) {
    a.timestamp == b.timestamp && Subject(a.subject) == Subject(b.subject) && Trim(a.nonce) == Trim(b.nonce)
  }

  /** What an accepted request leaves in the cache. */
  function NonceEntry(r: Request, cfg: ReplayConfig, hash: string -> Key): Entry {
    Entry(NonceKey(r.subject, r.nonce, hash), NonceRecord(r.now + cfg.nonceTtlSeconds * 1000))
  }

  lemma AfterStep(rs: seq<Request>, k: nat, cfg: ReplayConfig, hash: string -> Key)
    requires k < |rs|
    ensures After(rs[..k + 1], cfg, hash) == Check(After(rs[..k], cfg, hash), rs[k], cfg, hash).0
  {
    assert rs[..k + 1][..k] == rs[..k];
  }

  lemma CheckAdds(entries: Entries, r: Request, cfg: ReplayConfig, hash: string -> Key)
    ensures var (entries', verdict) := Check(entries, r, cfg, hash);
      if verdict == Allowed then entries' == Pruned(entries, cfg.maxNonces, r.now) + [NonceEntry(r, cfg, hash)]
      else entries' == entries || entries' == Pruned(entries, cfg.maxNonces, r.now)
  {
  }

  // ------------------------------------------------------- an entry in the cache

  /** `e` is cached with at most `after` entries behind it. */
  ghost predicate Held(entries: Entries, e: Entry, after: int) {
    exists p :: 0 <= p < |entries| && entries[p] == e && |entries| - 1 - p <= after
  }

  lemma PruneHolds(entries: Entries, e: Entry, after: int, max: nat, now: int)
    requires Held(entries, e, after) && e.record.Deadline() > now && after < max
    ensures Held(Pruned(entries, max, now), e, after)
  {
    var p :| 0 <= p < |entries| && entries[p] == e && |entries| - 1 - p <= after;
    var front, back := Live(entries[..p], now), Live(entries[p + 1..], now);
    assert entries == entries[..p] + entries[p..] && entries[p..][1..] == entries[p + 1..];
    LiveSplit(entries[..p], entries[p..], now);
    var live := Live(entries, now);
    assert live == front + ([e] + back);
    assert live[|front|] == e;
    var cut := if |live| <= max then 0 else |live| - max;
    assert Pruned(entries, max, now)[|front| - cut] == e;
  }

  /** `e` is cached with at most `after` entries behind it, unless as many came later as fit. */
  ghost predicate HeldUnlessFull(entries: Entries, e: Entry, after: int, max: int) {
    after < max ==> Held(entries, e, after)
  }

  lemma CheckHolds(entries: Entries, e: Entry, after: int, r: Request, cfg: ReplayConfig, hash: string -> Key)
    requires HeldUnlessFull(entries, e, after, cfg.maxNonces) && e.record.Deadline() > r.now
    ensures var (entries', verdict) := Check(entries, r, cfg, hash);
      HeldUnlessFull(entries', e, if verdict == Allowed then after + 1 else after, cfg.maxNonces)
  {
    if after < cfg.maxNonces {
      PruneHolds(entries, e, after, cfg.maxNonces, r.now);
      CheckAdds(entries, r, cfg, hash);
      HeldAppend(Pruned(entries, cfg.maxNonces, r.now), e, after, NonceEntry(r, cfg, hash));
    }
  }

  lemma HeldAppend(entries: Entries, e: Entry, after: int, newest: Entry)
    requires Held(entries, e, after)
    ensures Held(entries + [newest], e, after + 1)
  {
    var p :| 0 <= p < |entries| && entries[p] == e && |entries| - 1 - p <= after;
    assert (entries + [newest])[p] == e;
  }

  /** After its acceptance a nonce stays cached until its deadline or `maxNonces` later acceptances. */
  lemma {:induction false} AcceptedNonceHeld(rs: seq<Request>, i: nat, k: nat, cfg: ReplayConfig, hash: string -> Key)
    requires i < k <= |rs| && Accepted(rs, i, cfg, hash)
    requires forall j :: i < j < k ==> rs[j].now < rs[i].now + cfg.nonceTtlSeconds * 1000
    ensures HeldUnlessFull(
      After(rs[..k], cfg, hash), NonceEntry(rs[i], cfg, hash), Acceptances(rs, i + 1, k, cfg, hash), cfg.maxNonces)
    decreases k
  {
    var before, e := After(rs[..k - 1], cfg, hash), NonceEntry(rs[i], cfg, hash);
    AfterStep(rs, k - 1, cfg, hash);
    if k == i + 1 {
      CheckAdds(before, rs[i], cfg, hash);
      HeldLast(Pruned(before, cfg.maxNonces, rs[i].now), e);
    } else {
      AcceptedNonceHeld(rs, i, k - 1, cfg, hash);
      assert e.record.Deadline() > rs[k - 1].now;
      CheckHolds(before, e, Acceptances(rs, i + 1, k - 1, cfg, hash), rs[k - 1], cfg, hash);
    }
  }

  lemma HeldLast(entries: Entries, e: Entry)
    ensures Held(entries + [e], e, 0)
  {
    assert (entries + [e])[|entries|] == e;
  }

  lemma FreshTimes(timestamp: Option<real>, tolerance: nat, t: int, t': int)
    requires CheckTimestamp(timestamp, tolerance, t) == Allowed && CheckTimestamp(timestamp, tolerance, t') == Allowed
    ensures t' < t + (2 * tolerance + 1) * 1000
  {
    var at := timestamp.value;
    assert (t / 1000) as real >= at - tolerance as real && (t' / 1000) as real <= at + tolerance as real;
    assert (t' / 1000 - t / 1000) as real <= (2 * tolerance) as real;
  }

  /** Within a long enough nonce lifetime, a signed request is accepted again only after at
      least `maxNonces` other acceptances have pushed its nonce out of the cache. */
  lemma ReplayNeedsEviction(rs: seq<Request>, i: nat, j: nat, cfg: ReplayConfig, hash: string -> Key)
    requires i < j < |rs| && MonotoneClock(rs) && SameSignedRequest(rs[i], rs[j])
    requires cfg.nonceTtlSeconds >= 2 * cfg.toleranceSeconds + 1
    requires Accepted(rs, i, cfg, hash) && Accepted(rs, j, cfg, hash)
    ensures Acceptances(rs, i + 1, j, cfg, hash) >= cfg.maxNonces
  {
    FreshTimes(rs[i].timestamp, cfg.toleranceSeconds, rs[i].now, rs[j].now);
    AcceptedNonceHeld(rs, i, j, cfg, hash);
    var e := NonceEntry(rs[i], cfg, hash);
    if Acceptances(rs, i + 1, j, cfg, hash) < cfg.maxNonces {
      PruneHolds(After(rs[..j], cfg, hash), e, Acceptances(rs, i + 1, j, cfg, hash), cfg.maxNonces, rs[j].now);
      assert Has(Pruned(After(rs[..j], cfg, hash), cfg.maxNonces, rs[j].now), e.key);
    }
  }

  /** No run accepts a signed request twice without filling the cache in between. */
  ghost predicate ReplayProtected(cfg: ReplayConfig, hash: string -> Key) {
    forall rs: seq<Request>, i: nat, j: nat ::
      && i < j < |rs| && MonotoneClock(rs) && SameSignedRequest(rs[i], rs[j])
      && Accepted(rs, i, cfg, hash) && Accepted(rs, j, cfg, hash)
      ==> Acceptances(rs, i + 1, j, cfg, hash) >= cfg.maxNonces
  }

  /** One request, at the first and at the last instant its timestamp is fresh. */
  function FirstAndLast(nonce: string, cfg: ReplayConfig): seq<Request> {
    var r := Request("service", nonce, Some(cfg.toleranceSeconds as real), true, 0);
    [r, r.(now := 2 * cfg.toleranceSeconds * 1000)]
  }

  /** A fresh signed request is accepted when the cache holds at most its own, expired, nonce. */
  lemma ForgottenIsAccepted(r: Request, cache: Entries, cfg: ReplayConfig, hash: string -> Key)
    requires r.signed && NonceShaped(r.nonce) && CheckTimestamp(r.timestamp, cfg.toleranceSeconds, r.now) == Allowed
    requires Live(cache, r.now) == []
    ensures Check(cache, r, cfg, hash) == ([NonceEntry(r, cfg, hash)], Allowed)
  {
    assert [] + [NonceEntry(r, cfg, hash)] == [NonceEntry(r, cfg, hash)];
  }

  lemma ShortLifetimeForgets(nonce: string, cfg: ReplayConfig, hash: string -> Key)
    requires NonceShaped(nonce) && cfg.nonceTtlSeconds <= 2 * cfg.toleranceSeconds
    ensures Accepted(FirstAndLast(nonce, cfg), 0, cfg, hash) && Accepted(FirstAndLast(nonce, cfg), 1, cfg, hash)
    ensures Acceptances(FirstAndLast(nonce, cfg), 1, 1, cfg, hash) == 0
  {
    var rs := FirstAndLast(nonce, cfg);
    var tolerance := cfg.toleranceSeconds;
    assert rs[..0] == [];
    assert CheckTimestamp(rs[0].timestamp, tolerance, 0) == Allowed;
    ForgottenIsAccepted(rs[0], [], cfg, hash);
    AfterStep(rs, 0, cfg, hash);
    var cache := [NonceEntry(rs[0], cfg, hash)];
    assert After(rs[..1], cfg, hash) == cache;
    assert Live(cache, rs[1].now) == [];
    assert CheckTimestamp(rs[1].timestamp, tolerance, rs[1].now) == Allowed by {
      assert FloorDiv(2 * tolerance * 1000, 1000) == 2 * tolerance;
    }
    ForgottenIsAccepted(rs[1], cache, cfg, hash);
  }

  /** The exact condition on the configuration; 300 and 600 seconds, the defaults, do not meet it. */
  lemma ReplayProtectedIff(cfg: ReplayConfig, hash: string -> Key)
    requires cfg.maxNonces >= 1
    ensures ReplayProtected(cfg, hash) <==> cfg.nonceTtlSeconds >= 2 * cfg.toleranceSeconds + 1
  {
    if cfg.nonceTtlSeconds >= 2 * cfg.toleranceSeconds + 1 {
      forall rs: seq<Request>, i: nat, j: nat |
        && i < j < |rs| && MonotoneClock(rs) && SameSignedRequest(rs[i], rs[j])
        && Accepted(rs, i, cfg, hash) && Accepted(rs, j, cfg, hash)
        ensures Acceptances(rs, i + 1, j, cfg, hash) >= cfg.maxNonces
      {
        ReplayNeedsEviction(rs, i, j, cfg, hash);
      }
    } else {
      var nonce := "nonce-0123456789";
      assert |nonce| == 16;
      TrimmedIsFixed(nonce);
      ShortLifetimeForgets(nonce, cfg, hash);
      var rs := FirstAndLast(nonce, cfg);
      assert MonotoneClock(rs) && SameSignedRequest(rs[0], rs[1]);
    }
  }

  // ------------------------------------------------------ no false accusations

  lemma {:induction false} LiveMember(entries: Entries, now: int, e: Entry)
    requires e in Live(entries, now)
    ensures e in entries && e.record.Deadline() > now
  {
    if entries[0] != e || entries[0].record.Deadline() <= now { LiveMember(entries[1..], now, e); }
  }

  /** What is cached after a check was cached before, or is the entry of an accepted request. */
  lemma CheckSource(before: Entries, r: Request, e: Entry, cfg: ReplayConfig, hash: string -> Key)
    requires e in Check(before, r, cfg, hash).0
    ensures e in before || (Check(before, r, cfg, hash).1 == Allowed && e == NonceEntry(r, cfg, hash))
  {
    CheckAdds(before, r, cfg, hash);
    if e in Pruned(before, cfg.maxNonces, r.now) { LiveMember(before, r.now, e); }
  }

  /** Every cached entry was put there by an accepted request of the run. */
  lemma {:induction false} CacheExplained(
    rs: seq<Request>, e: Entry, cfg: ReplayConfig, hash: string -> Key) returns (i: nat)
    requires e in After(rs, cfg, hash)
    ensures i < |rs| && Accepted(rs, i, cfg, hash) && e == NonceEntry(rs[i], cfg, hash)
    decreases |rs|
  {
    var n := |rs| - 1;
    CheckSource(After(rs[..n], cfg, hash), rs[n], e, cfg, hash);
    if e in After(rs[..n], cfg, hash) {
      i := CacheExplained(rs[..n], e, cfg, hash);
      assert rs[..n][..i] == rs[..i];
    } else {
      i := n;
    }
  }

  /** A nonce is called replayed only if a request with the same key was accepted less than a lifetime ago. */
  lemma ReplayedWasAccepted(rs: seq<Request>, j: nat, cfg: ReplayConfig, hash: string -> Key) returns (i: nat)
    requires j < |rs| && Check(After(rs[..j], cfg, hash), rs[j], cfg, hash).1 == NonceReplayed
    ensures i < j && Accepted(rs, i, cfg, hash)
    ensures NonceKey(rs[i].subject, rs[i].nonce, hash) == NonceKey(rs[j].subject, rs[j].nonce, hash)
    ensures rs[j].now < rs[i].now + cfg.nonceTtlSeconds * 1000
  {
    var before := After(rs[..j], cfg, hash);
    var pruned := Pruned(before, cfg.maxNonces, rs[j].now);
    var key := NonceKey(rs[j].subject, rs[j].nonce, hash);
    var p :| 0 <= p < |pruned| && pruned[p].key == key;
    LiveMember(before, rs[j].now, pruned[p]);
    i := CacheExplained(rs[..j], pruned[p], cfg, hash);
    assert rs[..j][..i] == rs[..i];
  }
}
