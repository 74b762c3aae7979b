/** Which signed requests are accepted, exactly: told by the requests of the run and their times, not by the
    cache. */
module ReplayVerdicts {
  import opened Strings
  import opened RequestGuard
  import opened ReplayRuns

  /** The entries of all accepted requests, oldest first. */
  function All(rs: seq<Request>, cfg: ReplayConfig, hash: string -> Key): Entries {
    if rs == [] then []
    else
      var n := |rs| - 1;
      All(rs[..n], cfg, hash) + if Accepted(rs, n, cfg, hash) then [NonceEntry(rs[n], cfg, hash)] else []
  }

  lemma {:induction false} AcceptedPrefix(rs: seq<Request>, n: nat, i: nat, cfg: ReplayConfig, hash: string -> Key)
    requires i < n <= |rs|
    ensures Accepted(rs[..n], i, cfg, hash) == Accepted(rs, i, cfg, hash)
  {
    assert rs[..n][..i] == rs[..i];
  }

  lemma {:induction false} AcceptancesPrefix(
    rs: seq<Request>, n: nat, i: nat, j: nat, cfg: ReplayConfig, hash: string -> Key)
    requires i <= j <= n <= |rs|
    ensures Acceptances(rs[..n], i, j, cfg, hash) == Acceptances(rs, i, j, cfg, hash)
    decreases j
  {
    if i < j {
      AcceptancesPrefix(rs, n, i, j - 1, cfg, hash);
      AcceptedPrefix(rs, n, j - 1, cfg, hash);
    }
  }

  /** Each entry is that of a request with as many acceptances after it as there are entries. */
  lemma {:induction false} EntryOf(rs: seq<Request>, q: nat, cfg: ReplayConfig, hash: string -> Key) returns (i: nat)
    requires q < |All(rs, cfg, hash)|
    ensures i < |rs| && Accepted(rs, i, cfg, hash) && All(rs, cfg, hash)[q] == NonceEntry(rs[i], cfg, hash)
    ensures Acceptances(rs, i + 1, |rs|, cfg, hash) == |All(rs, cfg, hash)| - 1 - q
    decreases |rs|
  {
    var n := |rs| - 1;
    if q < |All(rs[..n], cfg, hash)| {
      i := EntryOf(rs[..n], q, cfg, hash);
      AcceptedPrefix(rs, n, i, cfg, hash);
      AcceptancesPrefix(rs, n, i + 1, n, cfg, hash);
    } else {
      i := n;
    }
  }

  ghost predicate Ascending(entries: Entries) {
    forall a, b :: 0 <= a < b < |entries| ==> entries[a].record.Deadline() <= entries[b].record.Deadline()
  }

  lemma {:induction false} AllAscending(rs: seq<Request>, cfg: ReplayConfig, hash: string -> Key)
    requires MonotoneClock(rs)
    ensures Ascending(All(rs, cfg, hash))
    ensures forall a :: 0 <= a < |All(rs, cfg, hash)| ==>
      rs != [] && All(rs, cfg, hash)[a].record.Deadline() <= rs[|rs| - 1].now + cfg.nonceTtlSeconds * 1000
  {
    if rs != [] {
      var n := |rs| - 1;
      AllAscending(rs[..n], cfg, hash);
      forall a | 0 <= a < |All(rs[..n], cfg, hash)|
        ensures All(rs[..n], cfg, hash)[a].record.Deadline() <= rs[n].now + cfg.nonceTtlSeconds * 1000
      {
        assert rs[..n] != [] && rs[..n][n - 1] == rs[n - 1] && rs[n - 1].now <= rs[n].now;
      }
    }
  }

  ghost predicate Suffix(a: Entries, b: Entries) {
    |a| <= |b| && a == b[|b| - |a|..]
  }

  lemma {:induction false} LiveIsSuffix(entries: Entries, now: int)
    requires Ascending(entries)
    ensures Suffix(Live(entries, now), entries)
  {
    if entries != [] {
      assert forall i :: 0 <= i < |entries| - 1 ==> entries[1..][i] == entries[i + 1];
      if entries[0].record.Deadline() <= now {
        LiveIsSuffix(entries[1..], now);
      } else {
        forall e | e in entries ensures e.record.Deadline() > now {
          var i :| 0 <= i < |entries| && entries[i] == e;
          assert i > 0 ==> entries[0].record.Deadline() <= entries[i].record.Deadline();
        }
        AllLive(entries, now);
      }
    }
  }

  lemma PrunedIsSuffix(entries: Entries, max: nat, now: int)
    requires Ascending(entries)
    ensures Suffix(Pruned(entries, max, now), entries) && |Pruned(entries, max, now)| <= max
  {
    LiveIsSuffix(entries, now);
  }

  lemma SuffixTwice(a: Entries, b: Entries, c: Entries)
    requires Suffix(a, b) && Suffix(b, c)
    ensures Suffix(a, c)
  {
  }

  lemma SuffixAscending(a: Entries, b: Entries)
    requires Suffix(a, b) && Ascending(b)
    ensures Ascending(a)
  {
  }

  lemma SuffixAdds(a: Entries, b: Entries, e: Entry)
    requires Suffix(a, b)
    ensures Suffix(a + [e], b + [e])
  {
    var skip := |b| - |a|;
    assert (b + [e])[skip..] == b[skip..] + [e];
  }

  lemma CheckKeepsSuffix(entries: Entries, all: Entries, r: Request, cfg: ReplayConfig, hash: string -> Key)
    requires Suffix(entries, all) && Ascending(all)
    ensures
      var (entries', verdict) := Check(entries, r, cfg, hash);
      Suffix(entries', all + if verdict == Allowed then [NonceEntry(r, cfg, hash)] else [])
  {
    SuffixAscending(entries, all);
    PrunedIsSuffix(entries, cfg.maxNonces, r.now);
    var pruned := Pruned(entries, cfg.maxNonces, r.now);
    SuffixTwice(pruned, entries, all);
    SuffixAdds(pruned, all, NonceEntry(r, cfg, hash));
    CheckAdds(entries, r, cfg, hash);
    assert all + [] == all;
  }

  /** The cache holds the newest of the accepted. */
  lemma {:induction false} CacheIsSuffix(rs: seq<Request>, cfg: ReplayConfig, hash: string -> Key)
    requires MonotoneClock(rs)
    ensures Suffix(After(rs, cfg, hash), All(rs, cfg, hash))
  {
    if rs != [] {
      var n := |rs| - 1;
      CacheIsSuffix(rs[..n], cfg, hash);
      AllAscending(rs[..n], cfg, hash);
      CheckKeepsSuffix(After(rs[..n], cfg, hash), All(rs[..n], cfg, hash), rs[n], cfg, hash);
    }
  }

  lemma PrunedCache(rs: seq<Request>, cfg: ReplayConfig, now: int, hash: string -> Key)
    requires MonotoneClock(rs)
    ensures Suffix(Pruned(After(rs, cfg, hash), cfg.maxNonces, now), All(rs, cfg, hash))
    ensures |Pruned(After(rs, cfg, hash), cfg.maxNonces, now)| <= cfg.maxNonces
  {
    var cache, all := After(rs, cfg, hash), All(rs, cfg, hash);
    CacheIsSuffix(rs, cfg, hash);
    AllAscending(rs, cfg, hash);
    SuffixAscending(cache, all);
    PrunedIsSuffix(cache, cfg.maxNonces, now);
    SuffixTwice(Pruned(cache, cfg.maxNonces, now), cache, all);
  }

  /** An earlier request with the same key was accepted less than a lifetime before, and fewer than the cache
      holds since. */
  predicate StillKnown(rs: seq<Request>, i: nat, j: nat, cfg: ReplayConfig, hash: string -> Key)
    requires j < |rs|
  {
    && i < j && Accepted(rs, i, cfg, hash)
    && NonceKey(rs[i].subject, rs[i].nonce, hash) == NonceKey(rs[j].subject, rs[j].nonce, hash)
    && rs[j].now < rs[i].now + 1000 * cfg.nonceTtlSeconds && Acceptances(rs, i + 1, j, cfg, hash) < cfg.maxNonces
  }

  /** The header is a number within the tolerance of the clock's second; the signature is right; the nonce has
      12 to 120 characters within white space. */
  predicate InOrder(r: Request, cfg: ReplayConfig) {
    && r.timestamp.Some?
    && -(cfg.toleranceSeconds as real) <= (r.now / 1000) as real - r.timestamp.value <= cfg.toleranceSeconds as real
    && r.signed && 12 <= |Trim(r.nonce)| && |Trim(r.nonce)| <= 120
  }

  lemma {:induction false} KnownIsCached(rs: seq<Request>, i: nat, j: nat, cfg: ReplayConfig, hash: string -> Key)
    requires j < |rs| && MonotoneClock(rs) && StillKnown(rs, i, j, cfg, hash)
    ensures Has(Pruned(After(rs[..j], cfg, hash), cfg.maxNonces, rs[j].now),
                NonceKey(rs[j].subject, rs[j].nonce, hash))
  {
    var e, after := NonceEntry(rs[i], cfg, hash), Acceptances(rs, i + 1, j, cfg, hash);
    AcceptedNonceHeld(rs, i, j, cfg, hash);
    PruneHolds(After(rs[..j], cfg, hash), e, after, cfg.maxNonces, rs[j].now);
  }

  lemma {:induction false} CachedIsKnown(rs: seq<Request>, j: nat, cfg: ReplayConfig, hash: string -> Key)
    returns (i: nat)
    requires j < |rs| && MonotoneClock(rs)
    requires Has(Pruned(After(rs[..j], cfg, hash), cfg.maxNonces, rs[j].now),
                 NonceKey(rs[j].subject, rs[j].nonce, hash))
    ensures StillKnown(rs, i, j, cfg, hash)
  {
    var all := All(rs[..j], cfg, hash);
    var pruned := Pruned(After(rs[..j], cfg, hash), cfg.maxNonces, rs[j].now);
    PrunedCache(rs[..j], cfg, rs[j].now, hash);
    var p :| 0 <= p < |pruned| && pruned[p].key == NonceKey(rs[j].subject, rs[j].nonce, hash);
    LiveMember(After(rs[..j], cfg, hash), rs[j].now, pruned[p]);
    i := EntryOf(rs[..j], |all| - |pruned| + p, cfg, hash);
    AcceptedPrefix(rs, j, i, cfg, hash);
    AcceptancesPrefix(rs, j, i + 1, j, cfg, hash);
  }

  /** In every run on a clock that does not go back, a request is accepted if and only if it is in order and no
      request with its key is still known. */
  lemma {:induction false} AcceptedIff(rs: seq<Request>, j: nat, cfg: ReplayConfig, hash: string -> Key)
    requires j < |rs| && MonotoneClock(rs)
    ensures Accepted(rs, j, cfg, hash) <==>
      InOrder(rs[j], cfg) && forall i: nat :: i < j ==> !StillKnown(rs, i, j, cfg, hash)
  {
    var pruned := Pruned(After(rs[..j], cfg, hash), cfg.maxNonces, rs[j].now);
    var key := NonceKey(rs[j].subject, rs[j].nonce, hash);
    if Has(pruned, key) {
      var i := CachedIsKnown(rs, j, cfg, hash);
    } else {
      forall i: nat | i < j ensures !StillKnown(rs, i, j, cfg, hash) {
        if StillKnown(rs, i, j, cfg, hash) { KnownIsCached(rs, i, j, cfg, hash); }
      }
    }
  }

  /** What a request is told: the first of these that holds. */
  lemma {:induction false} VerdictMeans(rs: seq<Request>, j: nat, cfg: ReplayConfig, hash: string -> Key)
    requires j < |rs| && MonotoneClock(rs)
    ensures
      var r := rs[j];
      Check(After(rs[..j], cfg, hash), r, cfg, hash).1 ==
        if r.timestamp.None? then TimestampInvalid
        else if (r.now / 1000) as real - r.timestamp.value > cfg.toleranceSeconds as real
             || r.timestamp.value - (r.now / 1000) as real > cfg.toleranceSeconds as real then TimestampStale
        else if !r.signed then SignatureInvalid
        else if |Trim(r.nonce)| < 12 || |Trim(r.nonce)| > 120 then NonceRequired
        else if exists i: nat :: i < j && StillKnown(rs, i, j, cfg, hash) then NonceReplayed
        else Allowed
  {
    AcceptedIff(rs, j, cfg, hash);
  }

  // ------------------------------------------------------------------------ keys

  /** Without a subject requests count as anonymous. */
  function Named(subject: string): string {
    if Trim(subject) == "" then "anonymous" else Trim(subject)
  }

  lemma {:induction false} ColonSplits(a: string, b: string, c: string, d: string)
    requires a + ":" + b == c + ":" + d && ':' !in b && ':' !in d
    ensures a == c && b == d
  {
    var s := a + ":" + b;
    assert s[|a|] == ':' && s[|c|] == ':';
    assert forall k :: |a| < k < |s| ==> s[k] == b[k - |a| - 1];
    assert forall k :: |c| < k < |s| ==> s[k] == d[k - |c| - 1];
    assert |a| == |c|;
    assert a == s[..|a|] && c == s[..|c|] && b == s[|a| + 1..] && d == s[|c| + 1..];
  }

  /** If digests do not collide, two requests share a key if and only if their subjects and nonces are the same
      up to white space around them, provided that the nonces have no colon. */
  lemma {:induction false} SameKeyIff(subject: string, nonce: string, subject': string, nonce': string,
    hash: string -> Key)
    requires forall a, b :: hash(a) == hash(b) ==> a == b
    requires ':' !in Trim(nonce) && ':' !in Trim(nonce')
    ensures NonceKey(subject, nonce, hash) == NonceKey(subject', nonce', hash) <==>
      Named(subject) == Named(subject') && Trim(nonce) == Trim(nonce')
  {
    if NonceKey(subject, nonce, hash) == NonceKey(subject', nonce', hash) {
      ColonSplits(Named(subject), Trim(nonce), Named(subject'), Trim(nonce'));
    }
  }

  /** With a colon in a nonce two different subjects share a key. */
  lemma ColonsMixUp(hash: string -> Key)
    ensures NonceKey("pay:shop", "nonce-0123456789", hash) == NonceKey("pay", "shop:nonce-0123456789", hash)
    ensures Named("pay:shop") != Named("pay")
  {
    TrimmedIsFixed("pay:shop");
    TrimmedIsFixed("nonce-0123456789");
    TrimmedIsFixed("pay");
    TrimmedIsFixed("shop:nonce-0123456789");
    assert "pay:shop" + ":" + "nonce-0123456789" == "pay" + ":" + "shop:nonce-0123456789";
  }
}
