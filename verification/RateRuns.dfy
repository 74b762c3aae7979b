/** The request rate over whole runs: at most `maxRequests` acceptances a bucket, and at most
    twice that in any interval as long as the window. */
module RateRuns {
  import opened Wrappers
  import opened Counting
  import opened RequestGuard

  datatype Request = Request(subject: string, now: int)

  /** The buckets after the requests, from none. */
  function After(rs: seq<Request>, cfg: RateConfig, hash: string -> Key): Entries {
    if rs == [] then []
    else CheckRate(After(rs[..|rs| - 1], cfg, hash), rs[|rs| - 1].subject, cfg, rs[|rs| - 1].now, hash).0
  }

  /** An acceptance: its time, and the time its bucket was opened. */
  datatype Acceptance = Acceptance(time: int, start: int)

  /** The log of one key's acceptances after one more request. */
  function Logged(
    log: seq<Acceptance>, buckets: Entries, r: Request, key: Key, cfg: RateConfig, hash: string -> Key)
    : seq<Acceptance>
  {
    if hash(Subject(r.subject)) != key || CheckRate(buckets, r.subject, cfg, r.now, hash).1 != Allowed then log
    else
      match Lookup(Pruned(buckets, cfg.maxSubjects, r.now), key)
      case Some(record) => log + [Acceptance(r.now, record.Deadline() - cfg.windowMs)]
      case None => log + [Acceptance(r.now, r.now)]
  }

  /** The accepted requests under one key, in order. */
  function Log(rs: seq<Request>, key: Key, cfg: RateConfig, hash: string -> Key): seq<Acceptance> {
    if rs == [] then []
    else
      var front := rs[..|rs| - 1];
      Logged(Log(front, key, cfg, hash), After(front, cfg, hash), rs[|rs| - 1], key, cfg, hash)
  }

  ghost predicate MonotoneClock(rs: seq<Request>) {
    forall i, j :: 0 <= i <= j < |rs| ==> rs[i].now <= rs[j].now
  }

  /** Pruning never has to drop a bucket that is still open. */
  ghost predicate NoEviction(rs: seq<Request>, cfg: RateConfig, hash: string -> Key) {
    forall k :: 0 <= k < |rs| ==> |Live(After(rs[..k], cfg, hash), rs[k].now)| <= cfg.maxSubjects
  }

  /** Each acceptance is in its bucket. */
  ghost predicate InBuckets(log: seq<Acceptance>, window: int) {
    forall i :: 0 <= i < |log| ==> log[i].start <= log[i].time < log[i].start + window
  }

  /** Buckets are a window apart. */
  ghost predicate Apart(log: seq<Acceptance>, window: int) {
    forall i, j :: 0 <= i < j < |log| ==> log[j].start == log[i].start || log[j].start >= log[i].start + window
  }

  /** `max` acceptances fill a bucket. */
  ghost predicate Filling(log: seq<Acceptance>, max: nat, window: int) {
    forall i, j :: 0 <= i && i + max <= j < |log| ==> log[j].start >= log[i].start + window
  }

  ghost predicate Spaced(log: seq<Acceptance>, max: nat, window: int) {
    InBuckets(log, window) && Apart(log, window) && Filling(log, max, window)
  }

  function Lookup(entries: Entries, key: Key): Option<Record> {
    if entries == [] then None
    else if entries[0].key == key then Some(entries[0].record)
    else Lookup(entries[1..], key)
  }

  lemma {:induction false} LookupFind(entries: Entries, key: Key)
    ensures Lookup(entries, key) == var n := Find(entries, key); if n < |entries| then Some(entries[n].record) else None
  {
    if entries != [] && entries[0].key != key { LookupFind(entries[1..], key); }
  }

  /** What the key's bucket says about the log: it was opened with the latest acceptance that
      opened one, and counts at least the acceptances since. */
  ghost predicate Tracks(bucket: Option<Record>, log: seq<Acceptance>, cfg: RateConfig, clock: int) {
    match bucket
    case Some(RateRecord(resetAt, count)) =>
      && count >= 1 && log != [] && log[|log| - 1].start == resetAt - cfg.windowMs
      && (forall i :: 0 <= i < |log| - count ==> log[i].start + cfg.windowMs <= log[|log| - 1].start)
    case Some(NonceRecord(_)) => false
    case None => log != [] ==> log[|log| - 1].start + cfg.windowMs <= clock
  }

  // ------------------------------------------------------------- cache lookups

  ghost predicate Distinct(entries: Entries) {
    forall i, j :: 0 <= i < j < |entries| ==> entries[i].key != entries[j].key
  }

  lemma {:induction false} LiveMembers(entries: Entries, now: int)
    ensures forall e <- Live(entries, now) :: e in entries && e.record.Deadline() > now
  {
    if entries != [] { LiveMembers(entries[1..], now); }
  }

  lemma {:induction false} LiveDistinct(entries: Entries, now: int)
    requires Distinct(entries)
    ensures Distinct(Live(entries, now))
  {
    if entries != [] {
      LiveDistinct(entries[1..], now);
      LiveMembers(entries[1..], now);
      var rest := Live(entries[1..], now);
      forall i | 0 <= i < |rest| ensures rest[i].key != entries[0].key { assert rest[i] in entries[1..]; }
    }
  }

  lemma {:induction false} AbsentLookup(entries: Entries, key: Key)
    requires forall e <- entries :: e.key != key
    ensures Lookup(entries, key) == None
  {
    if entries != [] { AbsentLookup(entries[1..], key); }
  }

  lemma {:induction false} LiveLookup(entries: Entries, key: Key, now: int)
    requires Distinct(entries)
    ensures Lookup(Live(entries, now), key) ==
      var found := Lookup(entries, key);
      if found.Some? && found.value.Deadline() > now then found else None
  {
    if entries != [] {
      LiveLookup(entries[1..], key, now);
      if entries[0].record.Deadline() > now {
        assert Live(entries, now)[1..] == Live(entries[1..], now);
      } else {
        assert Live(entries, now) == Live(entries[1..], now);
        if entries[0].key == key {
          LiveMembers(entries[1..], now);
          AbsentLookup(Live(entries[1..], now), key);
        }
      }
    }
  }

  lemma {:induction false} AppendedLookup(entries: Entries, e: Entry, key: Key)
    requires Lookup(entries, e.key).None?
    ensures Lookup(entries + [e], key) == if e.key == key then Some(e.record) else Lookup(entries, key)
  {
    if entries != [] {
      assert (entries + [e])[1..] == entries[1..] + [e];
      AppendedLookup(entries[1..], e, key);
    }
  }

  lemma {:induction false} UpdatedLookup(entries: Entries, n: nat, e: Entry, key: Key)
    requires n < |entries| && n == Find(entries, e.key)
    ensures Lookup(entries[n := e], key) == if e.key == key then Some(e.record) else Lookup(entries, key)
  {
    if n > 0 {
      assert entries[n := e][1..] == entries[1..][n - 1 := e];
      UpdatedLookup(entries[1..], n - 1, e, key);
    } else {
      assert entries[n := e][1..] == entries[1..];
    }
  }

  /** What a check does to the buckets, one key at a time. */
  function Bucket(live: Option<Record>, cfg: RateConfig, now: int): (Record, Verdict) {
    match live
    case Some(RateRecord(resetAt, count)) =>
      if resetAt <= now then (RateRecord(now + cfg.windowMs, 1), Allowed)
      else (RateRecord(resetAt, count + 1), if count + 1 > cfg.maxRequests then RateLimited else Allowed)
    case _ => (RateRecord(now + cfg.windowMs, 1), Allowed)
  }

  lemma CheckLookup(buckets: Entries, r: Request, cfg: RateConfig, hash: string -> Key, key: Key)
    requires cfg.maxRequests >= 1 && cfg.windowMs >= 1 && |Live(buckets, r.now)| <= cfg.maxSubjects
    ensures
      var (buckets', verdict) := CheckRate(buckets, r.subject, cfg, r.now, hash);
      var live := Lookup(Live(buckets, r.now), key);
      if hash(Subject(r.subject)) == key
      then Lookup(buckets', key) == Some(Bucket(live, cfg, r.now).0) && verdict == Bucket(live, cfg, r.now).1
      else Lookup(buckets', key) == live
  {
    var live, own := Live(buckets, r.now), hash(Subject(r.subject));
    var n := Find(live, own);
    var buckets' := CheckRate(buckets, r.subject, cfg, r.now, hash).0;
    LookupFind(live, own);
    if n == |live| {
      AppendedLookup(live, buckets'[n], key);
    } else {
      UpdatedLookup(live, n, buckets'[n], key);
    }
  }

  lemma {:induction false} AbsentMembers(entries: Entries, key: Key)
    requires Find(entries, key) == |entries|
    ensures forall i :: 0 <= i < |entries| ==> entries[i].key != key
  {
  }

  lemma AppendDistinct(entries: Entries, e: Entry)
    requires Distinct(entries) && Find(entries, e.key) == |entries|
    ensures Distinct(entries + [e])
  {
    AbsentMembers(entries, e.key);
  }

  lemma UpdateDistinct(entries: Entries, n: nat, e: Entry)
    requires Distinct(entries) && n < |entries| && entries[n].key == e.key
    ensures Distinct(entries[n := e])
  {
    var entries' := entries[n := e];
    forall i, j | 0 <= i < j < |entries'| ensures entries'[i].key != entries'[j].key {
      assert entries[i].key != entries[j].key;
    }
  }

  /** A check replaces one key's record or appends it. */
  lemma CheckShape(buckets: Entries, r: Request, cfg: RateConfig, hash: string -> Key)
    requires |Live(buckets, r.now)| <= cfg.maxSubjects && cfg.maxRequests >= 1 && cfg.windowMs >= 1
    ensures
      var live, own := Live(buckets, r.now), hash(Subject(r.subject));
      var n := Find(live, own);
      exists record: Record :: CheckRate(buckets, r.subject, cfg, r.now, hash).0 ==
        if n == |live| then live + [Entry(own, record)] else live[n := Entry(own, record)]
  {
    var live, own := Live(buckets, r.now), hash(Subject(r.subject));
    var n := Find(live, own);
    var buckets' := CheckRate(buckets, r.subject, cfg, r.now, hash).0;
    var record := buckets'[n].record;
    if n == |live| {
      assert buckets' == live + [Entry(own, record)];
    } else {
      assert buckets' == live[n := Entry(own, record)];
    }
  }

  lemma CheckKeepsDistinct(buckets: Entries, r: Request, cfg: RateConfig, hash: string -> Key)
    requires Distinct(buckets) && |Live(buckets, r.now)| <= cfg.maxSubjects
    ensures Distinct(CheckRate(buckets, r.subject, cfg, r.now, hash).0)
  {
    if cfg.maxRequests >= 1 && cfg.windowMs >= 1 {
      var live, own := Live(buckets, r.now), hash(Subject(r.subject));
      var n := Find(live, own);
      LiveDistinct(buckets, r.now);
      CheckShape(buckets, r, cfg, hash);
      var record: Record :| CheckRate(buckets, r.subject, cfg, r.now, hash).0 ==
        if n == |live| then live + [Entry(own, record)] else live[n := Entry(own, record)];
      if n == |live| { AppendDistinct(live, Entry(own, record)); } else { UpdateDistinct(live, n, Entry(own, record)); }
    }
  }

  // ----------------------------------------------------------------- the bound

  lemma ApartAppend(log: seq<Acceptance>, a: Acceptance, window: int)
    requires window >= 1 && Apart(log, window)
    requires log != [] ==> a.start == log[|log| - 1].start || a.start >= log[|log| - 1].start + window
    ensures Apart(log + [a], window)
  {
    forall i | 0 <= i < |log| ensures a.start == log[i].start || a.start >= log[i].start + window {
      assert log[|log| - 1].start == log[i].start || log[|log| - 1].start >= log[i].start + window;
    }
  }

  lemma FillingAppend(log: seq<Acceptance>, a: Acceptance, max: nat, window: int)
    requires max >= 1 && window >= 1 && Apart(log, window) && Filling(log, max, window)
    requires |log| >= max ==> a.start >= log[|log| - max].start + window
    ensures Filling(log + [a], max, window)
  {
    var n := |log|;
    forall i | 0 <= i && i + max <= n ensures a.start >= log[i].start + window {
      if i < n - max { assert log[n - max].start == log[i].start || log[n - max].start >= log[i].start + window; }
    }
  }

  lemma SpacedAppend(log: seq<Acceptance>, a: Acceptance, max: nat, window: int)
    requires max >= 1 && window >= 1 && Spaced(log, max, window) && a.start <= a.time < a.start + window
    requires log != [] ==> a.start == log[|log| - 1].start || a.start >= log[|log| - 1].start + window
    requires |log| >= max ==> a.start >= log[|log| - max].start + window
    ensures Spaced(log + [a], max, window)
  {
    ApartAppend(log, a, window);
    FillingAppend(log, a, max, window);
  }

  /** An acceptance that opens a bucket. */
  lemma OpeningTracks(log: seq<Acceptance>, cfg: RateConfig, now: int)
    requires cfg.maxRequests >= 1 && cfg.windowMs >= 1
    requires Tracks(None, log, cfg, now) && Spaced(log, cfg.maxRequests, cfg.windowMs)
    ensures Tracks(Some(RateRecord(now + cfg.windowMs, 1)), log + [Acceptance(now, now)], cfg, now)
    ensures Spaced(log + [Acceptance(now, now)], cfg.maxRequests, cfg.windowMs)
  {
    var log' := log + [Acceptance(now, now)];
    forall i | 0 <= i < |log| ensures log'[i].start + cfg.windowMs <= now {
      assert log[i].start == log[|log| - 1].start || log[|log| - 1].start >= log[i].start + cfg.windowMs;
    }
    SpacedAppend(log, Acceptance(now, now), cfg.maxRequests, cfg.windowMs);
  }

  /** An acceptance in an open bucket. */
  lemma CountingTracks(resetAt: int, count: int, log: seq<Acceptance>, cfg: RateConfig, now: int)
    requires cfg.maxRequests >= 1 && cfg.windowMs >= 1 && resetAt > now && count + 1 <= cfg.maxRequests
    requires Tracks(Some(RateRecord(resetAt, count)), log, cfg, now) && Spaced(log, cfg.maxRequests, cfg.windowMs)
    requires log[|log| - 1].time <= now
    ensures var log' := log + [Acceptance(now, resetAt - cfg.windowMs)];
      Tracks(Some(RateRecord(resetAt, count + 1)), log', cfg, now) && Spaced(log', cfg.maxRequests, cfg.windowMs)
  {
    SpacedAppend(log, Acceptance(now, resetAt - cfg.windowMs), cfg.maxRequests, cfg.windowMs);
  }

  /** A rejection in an open bucket. */
  lemma RejectingTracks(resetAt: int, count: int, log: seq<Acceptance>, cfg: RateConfig, now: int)
    requires Tracks(Some(RateRecord(resetAt, count)), log, cfg, now)
    ensures Tracks(Some(RateRecord(resetAt, count + 1)), log, cfg, now)
  {
  }

  /** What the key's bucket and log keep, up to a clock reading. */
  ghost predicate Kept(bucket: Option<Record>, log: seq<Acceptance>, cfg: RateConfig, clock: int)
    requires cfg.maxRequests >= 1
  {
    && Tracks(bucket, log, cfg, clock)
    && Spaced(log, cfg.maxRequests, cfg.windowMs)
    && InTime(log, clock)
  }

  ghost predicate InTime(log: seq<Acceptance>, clock: int) {
    && (forall i, j :: 0 <= i <= j < |log| ==> log[i].time <= log[j].time)
    && (log != [] ==> log[|log| - 1].time <= clock)
  }

  lemma InTimeAppend(log: seq<Acceptance>, a: Acceptance)
    requires InTime(log, a.time)
    ensures InTime(log + [a], a.time)
  {
    forall i | 0 <= i < |log| ensures log[i].time <= a.time {
      assert log[i].time <= log[|log| - 1].time;
    }
  }

  /** The log after a request under its key that found the bucket `live`. */
  function Extended(live: Option<Record>, log: seq<Acceptance>, cfg: RateConfig, now: int): seq<Acceptance> {
    if Bucket(live, cfg, now).1 != Allowed then log
    else match live
      case Some(record) => log + [Acceptance(now, record.Deadline() - cfg.windowMs)]
      case None => log + [Acceptance(now, now)]
  }

  lemma LoggedExtends(
    buckets: Entries, log: seq<Acceptance>, r: Request, key: Key, cfg: RateConfig, hash: string -> Key)
    requires cfg.maxRequests >= 1 && cfg.windowMs >= 1 && |Live(buckets, r.now)| <= cfg.maxSubjects
    ensures Logged(log, buckets, r, key, cfg, hash) ==
      if hash(Subject(r.subject)) == key then Extended(Lookup(Live(buckets, r.now), key), log, cfg, r.now) else log
  {
    CheckLookup(buckets, r, cfg, hash, key);
  }

  lemma OpeningKept(log: seq<Acceptance>, cfg: RateConfig, now: int)
    requires cfg.maxRequests >= 1 && cfg.windowMs >= 1 && Kept(None, log, cfg, now)
    ensures Kept(Some(RateRecord(now + cfg.windowMs, 1)), log + [Acceptance(now, now)], cfg, now)
  {
    OpeningTracks(log, cfg, now);
    InTimeAppend(log, Acceptance(now, now));
  }

  lemma CountingKept(resetAt: int, count: int, log: seq<Acceptance>, cfg: RateConfig, now: int)
    requires cfg.maxRequests >= 1 && cfg.windowMs >= 1 && resetAt > now && count + 1 <= cfg.maxRequests
    requires Kept(Some(RateRecord(resetAt, count)), log, cfg, now)
    ensures Kept(Some(RateRecord(resetAt, count + 1)), log + [Acceptance(now, resetAt - cfg.windowMs)], cfg, now)
  {
    CountingTracks(resetAt, count, log, cfg, now);
    InTimeAppend(log, Acceptance(now, resetAt - cfg.windowMs));
  }

  lemma RejectingKept(resetAt: int, count: int, log: seq<Acceptance>, cfg: RateConfig, now: int)
    requires cfg.maxRequests >= 1 && Kept(Some(RateRecord(resetAt, count)), log, cfg, now)
    ensures Kept(Some(RateRecord(resetAt, count + 1)), log, cfg, now)
  {
    RejectingTracks(resetAt, count, log, cfg, now);
  }

  lemma OpenBucket(resetAt: int, count: int, log: seq<Acceptance>, cfg: RateConfig, now: int)
    requires cfg.maxRequests >= 1 && resetAt > now
    ensures var live := Some(RateRecord(resetAt, count));
      && Some(Bucket(live, cfg, now).0) == Some(RateRecord(resetAt, count + 1))
      && Extended(live, log, cfg, now) ==
           if count + 1 <= cfg.maxRequests then log + [Acceptance(now, resetAt - cfg.windowMs)] else log
  {
  }

  lemma OpenBucketKept(resetAt: int, count: int, log: seq<Acceptance>, cfg: RateConfig, now: int)
    requires cfg.maxRequests >= 1 && cfg.windowMs >= 1 && resetAt > now
    requires Kept(Some(RateRecord(resetAt, count)), log, cfg, now)
    ensures var live := Some(RateRecord(resetAt, count));
      Kept(Some(Bucket(live, cfg, now).0), Extended(live, log, cfg, now), cfg, now)
  {
    OpenBucket(resetAt, count, log, cfg, now);
    if count + 1 <= cfg.maxRequests {
      CountingKept(resetAt, count, log, cfg, now);
    } else {
      RejectingKept(resetAt, count, log, cfg, now);
    }
  }

  lemma BucketKept(live: Option<Record>, log: seq<Acceptance>, cfg: RateConfig, now: int)
    requires cfg.maxRequests >= 1 && cfg.windowMs >= 1
    requires Kept(live, log, cfg, now) && (live.Some? ==> live.value.Deadline() > now)
    ensures Kept(Some(Bucket(live, cfg, now).0), Extended(live, log, cfg, now), cfg, now)
  {
    if live == None {
      OpeningKept(log, cfg, now);
    } else {
      assert live.value.RateRecord?;
      OpenBucketKept(live.value.resetAt, live.value.count, log, cfg, now);
    }
  }

  lemma PruneKept(buckets: Entries, key: Key, log: seq<Acceptance>, cfg: RateConfig, now: int)
    requires cfg.maxRequests >= 1 && Distinct(buckets) && Kept(Lookup(buckets, key), log, cfg, now)
    ensures var live := Lookup(Live(buckets, now), key);
      Kept(live, log, cfg, now) && (live.Some? ==> live.value.Deadline() > now)
  {
    LiveLookup(buckets, key, now);
  }

  lemma FrontEvicts(rs: seq<Request>, cfg: RateConfig, hash: string -> Key)
    requires rs != [] && NoEviction(rs, cfg, hash)
    ensures NoEviction(rs[..|rs| - 1], cfg, hash)
    ensures |Live(After(rs[..|rs| - 1], cfg, hash), rs[|rs| - 1].now)| <= cfg.maxSubjects
  {
    var front := rs[..|rs| - 1];
    forall k | 0 <= k < |front| ensures |Live(After(front[..k], cfg, hash), front[k].now)| <= cfg.maxSubjects {
      assert front[..k] == rs[..k];
    }
  }

  lemma {:induction false} RunDistinct(rs: seq<Request>, cfg: RateConfig, hash: string -> Key)
    requires NoEviction(rs, cfg, hash)
    ensures Distinct(After(rs, cfg, hash))
    decreases |rs|
  {
    if rs != [] {
      FrontEvicts(rs, cfg, hash);
      RunDistinct(rs[..|rs| - 1], cfg, hash);
      CheckKeepsDistinct(After(rs[..|rs| - 1], cfg, hash), rs[|rs| - 1], cfg, hash);
    }
  }

  lemma FrontRun(rs: seq<Request>, cfg: RateConfig, hash: string -> Key)
    requires rs != [] && MonotoneClock(rs) && NoEviction(rs, cfg, hash)
    ensures var front, now := rs[..|rs| - 1], rs[|rs| - 1].now;
      && MonotoneClock(front) && NoEviction(front, cfg, hash)
      && |Live(After(front, cfg, hash), now)| <= cfg.maxSubjects
      && (front != [] ==> front[|front| - 1].now <= now)
  {
    FrontEvicts(rs, cfg, hash);
  }

  /** What every run keeps, seen from one key, at any clock reading not before its last. */
  lemma {:induction false} RunKept(rs: seq<Request>, key: Key, cfg: RateConfig, hash: string -> Key, clock: int)
    requires cfg.maxRequests >= 1 && cfg.windowMs >= 1 && MonotoneClock(rs) && NoEviction(rs, cfg, hash)
    requires rs != [] ==> rs[|rs| - 1].now <= clock
    ensures Kept(Lookup(After(rs, cfg, hash), key), Log(rs, key, cfg, hash), cfg, clock)
    decreases |rs|
  {
    if rs != [] {
      var front, r := rs[..|rs| - 1], rs[|rs| - 1];
      FrontRun(rs, cfg, hash);
      RunKept(front, key, cfg, hash, r.now);
      RunDistinct(front, cfg, hash);
      StepKept(After(front, cfg, hash), Log(front, key, cfg, hash), r, key, cfg, hash);
      LaterKept(Lookup(After(rs, cfg, hash), key), Log(rs, key, cfg, hash), cfg, r.now, clock);
    }
  }

  lemma StepKept(buckets: Entries, log: seq<Acceptance>, r: Request, key: Key, cfg: RateConfig, hash: string -> Key)
    requires cfg.maxRequests >= 1 && cfg.windowMs >= 1 && |Live(buckets, r.now)| <= cfg.maxSubjects
    requires Distinct(buckets) && Kept(Lookup(buckets, key), log, cfg, r.now)
    ensures
      var buckets' := CheckRate(buckets, r.subject, cfg, r.now, hash).0;
      Kept(Lookup(buckets', key), Logged(log, buckets, r, key, cfg, hash), cfg, r.now)
  {
    PruneKept(buckets, key, log, cfg, r.now);
    CheckLookup(buckets, r, cfg, hash, key);
    LoggedExtends(buckets, log, r, key, cfg, hash);
    if hash(Subject(r.subject)) == key { BucketKept(Lookup(Live(buckets, r.now), key), log, cfg, r.now); }
  }

  lemma LaterKept(bucket: Option<Record>, log: seq<Acceptance>, cfg: RateConfig, clock: int, later: int)
    requires cfg.maxRequests >= 1 && Kept(bucket, log, cfg, clock) && clock <= later
    ensures Kept(bucket, log, cfg, later)
  {
  }

  // ------------------------------------------------------------------ counting

  function Times(log: seq<Acceptance>): (r: seq<int>)
    ensures |r| == |log| && forall i :: 0 <= i < |log| ==> r[i] == log[i].time
  {
    seq(|log|, i requires 0 <= i < |log| => log[i].time)
  }

  /** How many acceptances fall in [from, to). */
  function AcceptedIn(log: seq<Acceptance>, from: int, to: int): nat {
    CountIn(Times(log), from, to)
  }

  /** How many acceptances fall in the bucket opened at `start`. */
  function CountBucket(log: seq<Acceptance>, start: int): nat {
    if log == [] then 0
    else CountBucket(log[..|log| - 1], start) + if log[|log| - 1].start == start then 1 else 0
  }

  lemma {:induction false} CountBucketAfter(log: seq<Acceptance>, start: int, k: nat)
    requires k <= |log| && forall i :: 0 <= i < k ==> log[i].start != start
    ensures CountBucket(log, start) <= |log| - k
  {
    if log != [] { CountBucketAfter(log[..|log| - 1], start, if k < |log| then k else k - 1); }
  }

  lemma {:induction false} CountBucketBound(log: seq<Acceptance>, start: int, max: nat, window: int)
    requires window >= 1 && Spaced(log, max, window)
    ensures CountBucket(log, start) <= max
  {
    var last := |log| - 1;
    if log != [] && log[last].start == start {
      if last >= max {
        forall i | 0 <= i < last - max + 1 ensures log[i].start != start {
          assert log[last].start >= log[i].start + window;
        }
      }
      CountBucketAfter(log, start, if last < max then 0 else last - max + 1);
    } else if log != [] {
      CountBucketBound(log[..last], start, max, window);
    }
  }

  lemma WindowBound(log: seq<Acceptance>, max: nat, window: int, from: int, clock: int)
    requires max >= 1 && window >= 1 && Spaced(log, max, window) && InTime(log, clock)
    ensures AcceptedIn(log, from, from + window) <= 2 * max
  {
    forall i, j | 0 <= i && i + 2 * max <= j < |log| && from <= log[i].time
      ensures log[j].time >= from + window
    {
      var k := i + max;
      assert log[k].start >= log[i].start + window && log[j].start >= log[k].start + window;
    }
    CountBound(Times(log), from, from + window, 2 * max);
  }

  lemma {:induction false} KeptBounds(
    bucket: Option<Record>, log: seq<Acceptance>, cfg: RateConfig, from: int, start: int, clock: int)
    requires cfg.maxRequests >= 1 && cfg.windowMs >= 1 && Kept(bucket, log, cfg, clock)
    ensures CountBucket(log, start) <= cfg.maxRequests
    ensures AcceptedIn(log, from, from + cfg.windowMs) <= 2 * cfg.maxRequests
  {
    CountBucketBound(log, start, cfg.maxRequests, cfg.windowMs);
    WindowBound(log, cfg.maxRequests, cfg.windowMs, from, clock);
  }

  /** In every run each bucket of a key gets at most `maxRequests` acceptances, and every
      half-open interval as long as the window at most twice that many. */
  lemma {:induction false} RateBound(
    rs: seq<Request>, key: Key, cfg: RateConfig, hash: string -> Key, from: int, start: int)
    requires cfg.maxRequests >= 1 && cfg.windowMs >= 1 && MonotoneClock(rs) && NoEviction(rs, cfg, hash)
    ensures CountBucket(Log(rs, key, cfg, hash), start) <= cfg.maxRequests
    ensures AcceptedIn(Log(rs, key, cfg, hash), from, from + cfg.windowMs) <= 2 * cfg.maxRequests
  {
    var clock := if rs == [] then 0 else rs[|rs| - 1].now;
    RunKept(rs, key, cfg, hash, clock);
    KeptBounds(Lookup(After(rs, cfg, hash), key), Log(rs, key, cfg, hash), cfg, from, start, clock);
  }
}
