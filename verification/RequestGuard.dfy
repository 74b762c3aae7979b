/** The guards on signed financial requests: fresh timestamp, unused nonce, request rate.

    Both caches are insertion-ordered maps, kept here as sequences of entries, oldest first.
    Each request reads the clock (milliseconds) once; `hash` is any function to non-empty keys. */
module RequestGuard {
  import opened Wrappers
  import opened Strings

  type Key = k: string | k != "" witness "k"

  datatype Record = NonceRecord(expiresAt: int) | RateRecord(resetAt: int, count: int) {
    function Deadline(): int {
      match this
      case NonceRecord(at) => at
      case RateRecord(at, _) => at
    }
  }

  datatype Entry = Entry(key: Key, record: Record)
  type Entries = seq<Entry>

  /** `Allowed`, or the error thrown: `PAY_GATEWAY_RATE_LIMITED`, or the one of that name after
      `PAY_GATEWAY_SIGNATURE_`. */
  datatype Verdict =
    | Allowed | TimestampInvalid | TimestampStale | SignatureInvalid | NonceRequired | NonceReplayed | RateLimited

  datatype ReplayConfig = ReplayConfig(toleranceSeconds: nat, nonceTtlSeconds: nat, maxNonces: nat)
  datatype RateConfig = RateConfig(windowMs: int, maxRequests: int, maxSubjects: nat)

  // ------------------------------------------------------------ specification

  /** The entries whose deadline has not passed, in order. */
  function Live(entries: Entries, now: int): (r: Entries)
    ensures |r| <= |entries|
  {
    if entries == [] then []
    else (if entries[0].record.Deadline() <= now then [] else [entries[0]]) + Live(entries[1..], now)
  }

  /** At most the `max` newest entries. */
  function Newest(entries: Entries, max: nat): Entries {
    if |entries| <= max then entries else entries[|entries| - max..]
  }

  function Pruned(entries: Entries, max: nat, now: int): Entries {
    Newest(Live(entries, now), max)
  }

  predicate Has(entries: Entries, key: Key) {
    exists i :: 0 <= i < |entries| && entries[i].key == key
  }

  /** The position of a key; the length if it is absent. */
  function Find(entries: Entries, key: Key): (n: nat)
    ensures n <= |entries|
    ensures n < |entries| ==> entries[n].key == key
    ensures forall i :: 0 <= i < n ==> entries[i].key != key
  {
    if entries == [] || entries[0].key == key then 0 else 1 + Find(entries[1..], key)
  }

  lemma FindAbsent(entries: Entries, key: Key)
    requires !Has(entries, key)
    ensures Find(entries, key) == |entries|
  {
  }

  function FloorDiv(a: int, b: int): int
    requires b > 0
  {
    a / b
  }

  function AbsReal(x: real): real {
    if x < 0.0 then -x else x
  }

  /** `timestamp` is None when the header is not a finite number. */
  function CheckTimestamp(timestamp: Option<real>, toleranceSeconds: nat, now: int): Verdict {
    match timestamp
    case None => TimestampInvalid
    case Some(at) =>
      if AbsReal(FloorDiv(now, 1000) as real - at) > toleranceSeconds as real then TimestampStale else Allowed
  }

  function Subject(subject: string): string {
    if Trim(subject) == "" then "anonymous" else Trim(subject)
  }

  function NonceKey(subject: string, nonce: string, hash: string -> Key): Key {
    hash(Subject(subject) + ":" + Trim(nonce))
  }

  predicate NonceShaped(nonce: string) {
    12 <= |Trim(nonce)| <= 120
  }

  function CheckKey(cache: Entries, key: Key, cfg: ReplayConfig, now: int): (Entries, Verdict) {
    var pruned := Pruned(cache, cfg.maxNonces, now);
    if Has(pruned, key) then (pruned, NonceReplayed)
    else (pruned + [Entry(key, NonceRecord(now + cfg.nonceTtlSeconds * 1000))], Allowed)
  }

  /** The nonce cache after a nonce check, and its verdict. */
  function CheckNonce(
    cache: Entries, subject: string, nonce: string, cfg: ReplayConfig, now: int, hash: string -> Key)
    : (Entries, Verdict)
  {
    if !NonceShaped(nonce) then (cache, NonceRequired) else CheckKey(cache, NonceKey(subject, nonce, hash), cfg, now)
  }

  function CheckBucket(buckets: Entries, key: Key, cfg: RateConfig, now: int): (Entries, Verdict) {
    var pruned := Pruned(buckets, cfg.maxSubjects, now);
    var n := Find(pruned, key);
    if n == |pruned| then (pruned + [Entry(key, RateRecord(now + cfg.windowMs, 1))], Allowed)
    else if !pruned[n].record.RateRecord? || pruned[n].record.resetAt <= now
    then (pruned[n := Entry(key, RateRecord(now + cfg.windowMs, 1))], Allowed)
    else
      var record := pruned[n].record.(count := pruned[n].record.count + 1);
      (pruned[n := Entry(key, record)], if record.count > cfg.maxRequests then RateLimited else Allowed)
  }

  function CheckRate(
    buckets: Entries, subject: string, cfg: RateConfig, now: int, hash: string -> Key): (Entries, Verdict)
  {
    if cfg.maxRequests <= 0 || cfg.windowMs <= 0 then (buckets, Allowed)
    else CheckBucket(buckets, hash(Subject(subject)), cfg, now)
  }

  // ---------------------------------------------------------- the mutable caches

  lemma {:induction false} LiveSplit(a: Entries, b: Entries, now: int)
    ensures Live(a + b, now) == Live(a, now) + Live(b, now)
  {
    if a == [] {
      assert a + b == b;
    } else {
      assert (a + b)[1..] == a[1..] + b;
      LiveSplit(a[1..], b, now);
    }
  }

  lemma {:induction false} AllLive(entries: Entries, now: int)
    requires forall e <- entries :: e.record.Deadline() > now
    ensures Live(entries, now) == entries
  {
    if entries != [] { AllLive(entries[1..], now); }
  }

  lemma DropExpired(entries: Entries, i: nat, now: int)
    requires i < |entries| && entries[i].record.Deadline() <= now
    ensures Live(entries[..i] + entries[i + 1..], now) == Live(entries, now)
  {
    var rest := entries[i..];
    assert entries == entries[..i] + rest && rest[1..] == entries[i + 1..];
    LiveSplit(entries[..i], rest, now);
    LiveSplit(entries[..i], entries[i + 1..], now);
  }

  /** A module-level `Map`: entries in insertion order. */
  class Cache {
    var entries: Entries

    constructor ()
      ensures entries == []
    {
      entries := [];
    }

    method DeleteExpired(now: int)
      modifies this
      ensures entries == Live(old(entries), now)
    {
      var i := 0;
      while i < |entries|
        invariant 0 <= i <= |entries|
        invariant forall k :: 0 <= k < i ==> entries[k].record.Deadline() > now
        invariant Live(entries, now) == Live(old(entries), now)
        decreases |entries| - i
      {
        if entries[i].record.Deadline() <= now {
          DropExpired(entries, i, now);
          entries := entries[..i] + entries[i + 1..];
        } else {
          i := i + 1;
        }
      }
      AllLive(entries, now);
    }

    method DeleteOldest(maxEntries: nat)
      modifies this
      ensures entries == Newest(old(entries), maxEntries)
    {
      while |entries| > maxEntries
        invariant |entries| <= |old(entries)| && entries == old(entries)[|old(entries)| - |entries|..]
        invariant |old(entries)| <= maxEntries ==> entries == old(entries)
        invariant |old(entries)| > maxEntries ==> |entries| >= maxEntries
      {
        entries := entries[1..];
      }
    }

    /** `pruneExpired` */
    method PruneExpired(maxEntries: nat, now: int)
      modifies this
      ensures entries == Pruned(old(entries), maxEntries, now)
    {
      DeleteExpired(now);
      DeleteOldest(maxEntries);
    }

    method Set(key: Key, record: Record)
      modifies this
      ensures var n := Find(old(entries), key);
        entries ==
          if n < |old(entries)| then old(entries)[n := Entry(key, record)] else old(entries) + [Entry(key, record)]
    {
      var n := Find(entries, key);
      if n < |entries| {
        entries := entries[n := Entry(key, record)];
      } else {
        entries := entries + [Entry(key, record)];
      }
    }
  }

  method AssertKeyUnused(nonceCache: Cache, key: Key, cfg: ReplayConfig, now: int) returns (verdict: Verdict)
    modifies nonceCache
    ensures (nonceCache.entries, verdict) == CheckKey(old(nonceCache.entries), key, cfg, now)
  {
    nonceCache.PruneExpired(cfg.maxNonces, now);
    if Has(nonceCache.entries, key) { return NonceReplayed; }
    FindAbsent(nonceCache.entries, key);
    nonceCache.Set(key, NonceRecord(now + cfg.nonceTtlSeconds * 1000));
    return Allowed;
  }

  method AssertNonceNotReplayed(
    nonceCache: Cache, subject: string, nonce: string, cfg: ReplayConfig, now: int, hash: string -> Key)
    returns (verdict: Verdict)
    modifies nonceCache
    ensures (nonceCache.entries, verdict) == CheckNonce(old(nonceCache.entries), subject, nonce, cfg, now, hash)
  {
    if !NonceShaped(nonce) { return NonceRequired; }
    verdict := AssertKeyUnused(nonceCache, NonceKey(subject, nonce, hash), cfg, now);
  }

  method AssertUnderLimit(rateBuckets: Cache, key: Key, cfg: RateConfig, now: int) returns (verdict: Verdict)
    modifies rateBuckets
    ensures (rateBuckets.entries, verdict) == CheckBucket(old(rateBuckets.entries), key, cfg, now)
  {
    rateBuckets.PruneExpired(cfg.maxSubjects, now);
    var n := Find(rateBuckets.entries, key);
    if n == |rateBuckets.entries| || !rateBuckets.entries[n].record.RateRecord?
       || rateBuckets.entries[n].record.resetAt <= now {
      rateBuckets.Set(key, RateRecord(now + cfg.windowMs, 1));
      return Allowed;
    }
    var existing := rateBuckets.entries[n].record;
    existing := existing.(count := existing.count + 1);
    rateBuckets.Set(key, existing);
    if existing.count > cfg.maxRequests { return RateLimited; }
    return Allowed;
  }

  method AssertFinancialRateLimit(rateBuckets: Cache, subject: string, cfg: RateConfig, now: int, hash: string -> Key)
    returns (verdict: Verdict)
    modifies rateBuckets
    ensures (rateBuckets.entries, verdict) == CheckRate(old(rateBuckets.entries), subject, cfg, now, hash)
  {
    if cfg.maxRequests <= 0 || cfg.windowMs <= 0 { return Allowed; }
    var trimmed := Trim(subject);
    verdict := AssertUnderLimit(rateBuckets, hash(if trimmed == "" then "anonymous" else trimmed), cfg, now);
  }
}
