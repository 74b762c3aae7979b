/** How many subjects the rate limit can tell apart: with no more of them than the cache holds it
    limits every run, and with one more there are runs that it does not limit at all. */
module RateCapacity {
  import opened Wrappers
  import opened Strings
  import opened Lists
  import opened RequestGuard
  import opened RateRuns

  function KeysIn(rs: seq<Request>, hash: string -> Key): set<Key> {
    set r | r in rs :: hash(Subject(r.subject))
  }

  /** What `RateRuns.RateBound` promises of one run. */
  ghost predicate Limited(rs: seq<Request>, key: Key, cfg: RateConfig, hash: string -> Key, from: int) {
    && CountBucket(Log(rs, key, cfg, hash), from) <= cfg.maxRequests
    && AcceptedIn(Log(rs, key, cfg, hash), from, from + cfg.windowMs) <= 2 * cfg.maxRequests
  }

  /** Every run of at most `n` subjects is limited. */
  ghost predicate RateProtected(n: nat, cfg: RateConfig, hash: string -> Key) {
    forall rs, key, from :: MonotoneClock(rs) && |KeysIn(rs, hash)| <= n ==> Limited(rs, key, cfg, hash, from)
  }

  // ---------------------------------------------------- few subjects: no eviction

  function EntryKeys(entries: Entries): set<Key> {
    set e | e in entries :: e.key
  }

  lemma {:induction false} DistinctCount(entries: Entries)
    requires Distinct(entries)
    ensures |EntryKeys(entries)| == |entries|
  {
    if entries != [] {
      var front, last := entries[..|entries| - 1], entries[|entries| - 1];
      assert entries == front + [last];
      DistinctCount(front);
      assert EntryKeys(entries) == EntryKeys(front) + {last.key};
      assert last.key !in EntryKeys(front);
    }
  }

  lemma {:induction false} CheckKeys(buckets: Entries, r: Request, cfg: RateConfig, hash: string -> Key)
    ensures EntryKeys(CheckRate(buckets, r.subject, cfg, r.now, hash).0)
         <= EntryKeys(buckets) + {hash(Subject(r.subject))}
  {
    LiveMembers(buckets, r.now);
    assert forall e <- Pruned(buckets, cfg.maxSubjects, r.now) :: e in Live(buckets, r.now);
  }

  lemma {:induction false} KeysOfRun(rs: seq<Request>, hash: string -> Key)
    requires rs != []
    ensures KeysIn(rs, hash) == KeysIn(rs[..|rs| - 1], hash) + {hash(Subject(rs[|rs| - 1].subject))}
  {
    assert rs == rs[..|rs| - 1] + [rs[|rs| - 1]];
  }

  lemma {:induction false} NoEvictionYet(rs: seq<Request>, cfg: RateConfig, hash: string -> Key)
    requires rs != [] && NoEviction(rs[..|rs| - 1], cfg, hash)
    requires |After(rs[..|rs| - 1], cfg, hash)| <= cfg.maxSubjects
    ensures NoEviction(rs, cfg, hash)
  {
    var front := rs[..|rs| - 1];
    forall k | 0 <= k < |rs| ensures |Live(After(rs[..k], cfg, hash), rs[k].now)| <= cfg.maxSubjects {
      assert k < |front| ==> front[..k] == rs[..k] && front[k] == rs[k];
    }
  }

  lemma {:induction false} FewSubjects(rs: seq<Request>, cfg: RateConfig, hash: string -> Key)
    requires |KeysIn(rs, hash)| <= cfg.maxSubjects
    ensures NoEviction(rs, cfg, hash) && EntryKeys(After(rs, cfg, hash)) <= KeysIn(rs, hash)
    decreases |rs|
  {
    if rs != [] {
      var front := rs[..|rs| - 1];
      KeysOfRun(rs, hash);
      SubsetCount(KeysIn(front, hash), KeysIn(rs, hash));
      FewSubjects(front, cfg, hash);
      RunDistinct(front, cfg, hash);
      DistinctCount(After(front, cfg, hash));
      SubsetCount(EntryKeys(After(front, cfg, hash)), KeysIn(front, hash));
      NoEvictionYet(rs, cfg, hash);
      CheckKeys(After(front, cfg, hash), rs[|rs| - 1], cfg, hash);
    }
  }

  // ------------------------------------------ one subject too many: subjects in turn

  function Name(k: nat): string {
    seq(k + 1, _ => 'a')
  }

  /** `i` requests at the same instant, by `m` subjects in turn. */
  function InTurn(m: nat, i: nat): seq<Request>
    requires m >= 1
  {
    seq(i, j requires j >= 0 => Request(Name(j % m), 0))
  }

  /** A bucket opened for each of them. */
  function Opened(m: nat, i: nat, cfg: RateConfig, hash: string -> Key): Entries
    requires m >= 1
  {
    seq(i, j requires j >= 0 => Entry(hash(Name(j % m)), RateRecord(cfg.windowMs, 1)))
  }

  ghost predicate Injective(hash: string -> Key) {
    forall a, b :: hash(a) == hash(b) ==> a == b
  }

  lemma NameIsSubject(k: nat)
    ensures Subject(Name(k)) == Name(k)
  {
    TrimmedIsFixed(Name(k));
  }

  lemma TurnsDiffer(m: nat, i: nat, j: nat)
    requires j < i < j + m
    ensures i % m != j % m
  {
    var q := i / m - j / m;
    assert i % m - j % m == i - j - m * q;
    if q >= 1 {
      assert m * q >= m;
    } else {
      assert m * q <= 0;
    }
  }

  lemma NextTurn(m: nat, i: nat)
    requires m >= 1
    ensures (i + 1) % m == if i % m == m - 1 then 0 else i % m + 1
  {
    var q := (i + 1) / m - i / m;
    assert (i + 1) % m == i % m + 1 - m * q;
    assert m * q < 2 * m && 0 - m < m * q;
    assert q < 2 && -1 < q;
  }

  lemma {:induction false} OpenedNext(m: nat, i: nat, cfg: RateConfig, hash: string -> Key)
    requires m >= 1
    ensures Opened(m, i + 1, cfg, hash) ==
      Opened(m, i, cfg, hash) + [Entry(hash(Name(i % m)), RateRecord(cfg.windowMs, 1))]
  {
  }

  lemma {:induction false} NewestAppend(entries: Entries, max: nat, e: Entry)
    ensures Newest(entries, max) + [e] == Newest(entries + [e], max + 1)
    ensures Newest(Newest(entries, max + 1), max) == Newest(entries, max)
  {
  }

  lemma {:induction false} NotAmongNewest(m: nat, i: nat, max: nat, cfg: RateConfig, hash: string -> Key)
    requires m == max + 1 && Injective(hash)
    ensures Find(Newest(Opened(m, i, cfg, hash), max), hash(Name(i % m))) == |Newest(Opened(m, i, cfg, hash), max)|
  {
    var all := Opened(m, i, cfg, hash);
    var newest, key := Newest(all, max), hash(Name(i % m));
    forall k | 0 <= k < |newest| ensures newest[k].key != key {
      var j := |all| - |newest| + k;
      assert newest[k] == all[j];
      TurnsDiffer(m, i, j);
      assert |Name(j % m)| != |Name(i % m)|;
    }
    FindAbsent(newest, key);
  }

  lemma {:induction false} AllOpen(m: nat, i: nat, max: nat, cfg: RateConfig, hash: string -> Key)
    requires m >= 1 && cfg.windowMs >= 1
    ensures Live(Newest(Opened(m, i, cfg, hash), max), 0) == Newest(Opened(m, i, cfg, hash), max)
  {
    AllLive(Newest(Opened(m, i, cfg, hash), max), 0);
  }

  /** When a subject's turn comes again, its bucket is evicted just before the check. */
  lemma {:induction false} TurnAccepted(m: nat, i: nat, cfg: RateConfig, hash: string -> Key)
    requires m == cfg.maxSubjects + 1 && cfg.maxRequests >= 1 && cfg.windowMs >= 1 && Injective(hash)
    ensures CheckRate(Newest(Opened(m, i, cfg, hash), m), Name(i % m), cfg, 0, hash)
         == (Newest(Opened(m, i + 1, cfg, hash), m), Allowed)
    ensures Lookup(Pruned(Newest(Opened(m, i, cfg, hash), m), cfg.maxSubjects, 0), hash(Name(i % m))) == None
  {
    var all, key := Opened(m, i, cfg, hash), hash(Name(i % m));
    AllOpen(m, i, m, cfg, hash);
    NewestAppend(all, cfg.maxSubjects, Entry(key, RateRecord(cfg.windowMs, 1)));
    OpenedNext(m, i, cfg, hash);
    NotAmongNewest(m, i, cfg.maxSubjects, cfg, hash);
    NameIsSubject(i % m);
    LookupFind(Newest(all, cfg.maxSubjects), key);
  }

  lemma {:induction false} AfterTurns(m: nat, i: nat, cfg: RateConfig, hash: string -> Key)
    requires m == cfg.maxSubjects + 1 && cfg.maxRequests >= 1 && cfg.windowMs >= 1 && Injective(hash)
    ensures After(InTurn(m, i), cfg, hash) == Newest(Opened(m, i, cfg, hash), m)
  {
    if i > 0 {
      assert InTurn(m, i)[..i - 1] == InTurn(m, i - 1);
      AfterTurns(m, i - 1, cfg, hash);
      TurnAccepted(m, i - 1, cfg, hash);
    }
  }

  /** How many of the first `i` turns are the first subject's. */
  function Turns(m: nat, i: nat): nat
    requires m >= 1
  {
    if i == 0 then 0 else Turns(m, i - 1) + if (i - 1) % m == 0 then 1 else 0
  }

  lemma {:induction false} TurnsCount(m: nat, i: nat)
    requires m >= 1
    ensures Turns(m, i) * m == if i % m == 0 then i else i - i % m + m
  {
    if i > 0 {
      TurnsCount(m, i - 1);
      NextTurn(m, i - 1);
      assert (Turns(m, i - 1) + 1) * m == Turns(m, i - 1) * m + m;
    }
  }

  lemma {:induction false} ManyTurns(m: nat, bound: nat) returns (i: nat)
    requires m >= 1
    ensures Turns(m, i) > bound
  {
    i := (bound + 1) * m;
    TurnsCount(m, i);
    Scaled(Turns(m, i), bound + 1, m);
  }

  lemma Scaled(a: nat, b: nat, m: nat)
    requires m >= 1 && a * m >= b * m
    ensures a >= b
  {
    assert (a - b) * m >= 0;
  }

  lemma {:induction false} TurnLogged(log: seq<Acceptance>, m: nat, i: nat, cfg: RateConfig, hash: string -> Key)
    requires m == cfg.maxSubjects + 1 && cfg.maxRequests >= 1 && cfg.windowMs >= 1 && Injective(hash)
    ensures Logged(log, Newest(Opened(m, i, cfg, hash), m), Request(Name(i % m), 0), hash(Name(0)), cfg, hash)
         == if i % m == 0 then log + [Acceptance(0, 0)] else log
  {
    TurnAccepted(m, i, cfg, hash);
    NameIsSubject(i % m);
    assert i % m != 0 ==> |Name(i % m)| != |Name(0)|;
  }

  lemma {:induction false} AcceptedNext(log: seq<Acceptance>, a: Acceptance, cfg: RateConfig)
    requires 0 <= a.time < cfg.windowMs
    ensures AcceptedIn(log + [a], 0, cfg.windowMs) == AcceptedIn(log, 0, cfg.windowMs) + 1
  {
    var times := Times(log + [a]);
    assert times[..|log|] == Times(log);
  }

  /** The first subject's requests are all accepted. */
  lemma {:induction false} AllAccepted(m: nat, i: nat, cfg: RateConfig, hash: string -> Key)
    requires m == cfg.maxSubjects + 1 && cfg.maxRequests >= 1 && cfg.windowMs >= 1 && Injective(hash)
    ensures AcceptedIn(Log(InTurn(m, i), hash(Name(0)), cfg, hash), 0, cfg.windowMs) == Turns(m, i)
  {
    if i > 0 {
      assert InTurn(m, i)[..i - 1] == InTurn(m, i - 1);
      AllAccepted(m, i - 1, cfg, hash);
      AfterTurns(m, i - 1, cfg, hash);
      var log := Log(InTurn(m, i - 1), hash(Name(0)), cfg, hash);
      TurnLogged(log, m, i - 1, cfg, hash);
      AcceptedNext(log, Acceptance(0, 0), cfg);
    }
  }

  lemma {:induction false} TurnKeys(m: nat, i: nat, hash: string -> Key)
    requires m >= 1
    ensures |KeysIn(InTurn(m, i), hash)| <= m
  {
    var keys := set k: nat | k < m :: hash(Name(k));
    forall r | r in InTurn(m, i) ensures hash(Subject(r.subject)) in keys {
      var j :| 0 <= j < i && r == InTurn(m, i)[j];
      NameIsSubject(j % m);
    }
    SubsetCount(KeysIn(InTurn(m, i), hash), keys);
    NameKeys(m, hash);
  }

  lemma {:induction false} NameKeys(m: nat, hash: string -> Key)
    ensures |set k: nat | k < m :: hash(Name(k))| <= m
  {
    var keys := set k: nat | k < m :: hash(Name(k));
    if m > 0 {
      NameKeys(m - 1, hash);
      var fewer := set k: nat | k < m - 1 :: hash(Name(k));
      assert keys == fewer + {hash(Name(m - 1))};
    }
  }

  /** Subjects in turn, one more than the cache holds: a subject's acceptances in one window have no bound. */
  lemma {:induction false} InTurnUnlimited(bound: nat, cfg: RateConfig, hash: string -> Key) returns (rs: seq<Request>)
    requires cfg.maxRequests >= 1 && cfg.windowMs >= 1 && Injective(hash)
    ensures MonotoneClock(rs) && |KeysIn(rs, hash)| <= cfg.maxSubjects + 1
    ensures AcceptedIn(Log(rs, hash(Name(0)), cfg, hash), 0, cfg.windowMs) > bound
  {
    var m := cfg.maxSubjects + 1;
    var i := ManyTurns(m, bound);
    rs := InTurn(m, i);
    TurnKeys(m, i, hash);
    AllAccepted(m, i, cfg, hash);
  }

  /** The exact condition: the limit holds in every run of at most `n` subjects if and only if the cache holds `n`. */
  lemma {:induction false} RateProtectedIff(n: nat, cfg: RateConfig, hash: string -> Key)
    requires cfg.maxRequests >= 1 && cfg.windowMs >= 1 && Injective(hash)
    ensures RateProtected(n, cfg, hash) <==> n <= cfg.maxSubjects
  {
    if n <= cfg.maxSubjects {
      forall rs, key, from | MonotoneClock(rs) && |KeysIn(rs, hash)| <= n ensures Limited(rs, key, cfg, hash, from) {
        FewSubjects(rs, cfg, hash);
        RateBound(rs, key, cfg, hash, from, from);
      }
    } else {
      var rs := InTurnUnlimited(2 * cfg.maxRequests, cfg, hash);
      assert !Limited(rs, hash(Name(0)), cfg, hash, 0);
    }
  }
}
