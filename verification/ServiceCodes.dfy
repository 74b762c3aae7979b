/** Allocation of service codes: a free candidate turns up within one more than there are services,
    and a service is found again under its code exactly when slugging leaves that code alone. */
module ServiceCodes {
  import opened Lists
  import opened Slugs
  import opened DeveloperPortalStore

  function DecimalValue(s: string): int {
    if s == "" then 0 else 10 * DecimalValue(s[..|s| - 1]) + (s[|s| - 1] as int - '0' as int)
  }

  lemma {:induction false} DecimalReads(n: nat)
    ensures DecimalValue(Decimal(n)) == n
  {
    var s := Decimal(n);
    if n < 10 {
      assert s[..|s| - 1] == "";
    } else {
      DecimalReads(n / 10);
      assert s[..|s| - 1] == Decimal(n / 10);
    }
  }

  lemma {:induction false} CandidatesDiffer(base: string, j: nat, k: nat)
    requires 1 <= j < k
    ensures Candidate(base, j) != Candidate(base, k)
  {
    if Candidate(base, j) == Candidate(base, k) {
      assert j > 1;
      assert Candidate(base, j)[|base| + 1..] == Decimal(j) && Candidate(base, k)[|base| + 1..] == Decimal(k);
      DecimalReads(j);
      DecimalReads(k);
    }
  }

  // ------------------------------------------------------------------ pigeonhole

  ghost function Candidates(base: string, k: nat): set<string> {
    if k == 0 then {} else Candidates(base, k - 1) + {Candidate(base, k)}
  }

  lemma {:induction false} InCandidates(base: string, k: nat, c: string)
    requires c in Candidates(base, k)
    ensures exists j :: 1 <= j <= k && c == Candidate(base, j)
  {
    if c != Candidate(base, k) { InCandidates(base, k - 1, c); }
  }

  lemma {:induction false} CandidatesCount(base: string, k: nat)
    ensures |Candidates(base, k)| == k
  {
    if k > 0 {
      CandidatesCount(base, k - 1);
      if Candidate(base, k) in Candidates(base, k - 1) {
        InCandidates(base, k - 1, Candidate(base, k));
        var j :| 1 <= j <= k - 1 && Candidate(base, k) == Candidate(base, j);
        CandidatesDiffer(base, j, k);
      }
    }
  }

  ghost function Codes(services: seq<Service>): set<string> {
    if services == [] then {} else {services[0].serviceCode} + Codes(services[1..])
  }

  lemma {:induction false} CodesCount(services: seq<Service>)
    ensures |Codes(services)| <= |services|
  {
    if services != [] { CodesCount(services[1..]); }
  }

  lemma {:induction false} TakenIsCode(services: seq<Service>, code: string)
    ensures Taken(services, code) <==> code in Codes(services)
  {
    if services != [] {
      TakenIsCode(services[1..], code);
      if i :| 0 <= i < |services| && services[i].serviceCode == code {
        if i > 0 { assert services[1..][i - 1].serviceCode == code; }
      }
      if i :| 0 <= i < |services| - 1 && services[1..][i].serviceCode == code {
        assert services[i + 1].serviceCode == code;
      }
      if services[0].serviceCode == code { assert Taken(services, code); }
    }
  }

  /** The candidates up to `k` are not all taken unless there are as many services. */
  lemma {:induction false} AllTaken(services: seq<Service>, base: string, k: nat)
    requires forall j :: 1 <= j <= k ==> Taken(services, Candidate(base, j))
    ensures k <= |services|
  {
    AllCodes(services, base, k);
    CandidatesCount(base, k);
    CodesCount(services);
    SubsetCount(Candidates(base, k), Codes(services));
  }

  lemma {:induction false} AllCodes(services: seq<Service>, base: string, k: nat)
    requires forall j :: 1 <= j <= k ==> Taken(services, Candidate(base, j))
    ensures Candidates(base, k) <= Codes(services)
  {
    if k > 0 {
      AllCodes(services, base, k - 1);
      TakenIsCode(services, Candidate(base, k));
    }
  }

  // ------------------------------------------------------------------- allocation

  /** `code` is the first free candidate, the `k`-th. */
  ghost predicate FirstFreeAt(services: seq<Service>, base: string, code: string, k: nat) {
    && 1 <= k <= |services| + 1 && code == Candidate(base, k) && !Taken(services, code)
    && forall j :: 1 <= j < k ==> Taken(services, Candidate(base, j))
  }

  lemma {:induction false} FirstFreeIsFree(services: seq<Service>, base: string, k: nat) returns (found: nat)
    requires 1 <= k <= |services| + 1 && forall j :: 1 <= j < k ==> Taken(services, Candidate(base, j))
    ensures FirstFreeAt(services, base, FirstFree(services, base, k), found)
    decreases |services| + 1 - k
  {
    if !Taken(services, Candidate(base, k)) {
      found := k;
    } else {
      AllTaken(services, base, k);
      found := FirstFreeIsFree(services, base, k + 1);
    }
  }

  ghost predicate AllTakenBelow(services: seq<Service>, base: string, k: int) {
    forall j :: 1 <= j < k ==> Taken(services, Candidate(base, j))
  }

  lemma {:induction false} NextTry(services: seq<Service>, base: string, k: nat)
    requires k >= 1 && AllTakenBelow(services, base, k) && Taken(services, Candidate(base, k))
    ensures k <= |services| && AllTakenBelow(services, base, k + 1)
    ensures FirstFree(services, base, k) == FirstFree(services, base, k + 1)
  {
    AllTaken(services, base, k);
  }

  lemma {:induction false} TriesEnd(services: seq<Service>, base: string, k: nat)
    requires 1 <= k <= |services| + 1 && AllTakenBelow(services, base, k) && !Taken(services, Candidate(base, k))
    ensures FirstFreeAt(services, base, Candidate(base, k), k) && FirstFree(services, base, k) == Candidate(base, k)
  {
  }

  /** The loop of `nextServiceCode`: it ends within one more candidate than there are services, with
      the first candidate that no service has. */
  method NextServiceCode(services: seq<Service>, seed: string) returns (candidate: string)
    ensures candidate == NextCode(services, seed)
    ensures exists tries :: FirstFreeAt(services, Slug(seed), candidate, tries)
  {
    var base := Slug(seed);
    candidate := base;
    var index := 2;
    while Taken(services, candidate)
      invariant 2 <= index <= |services| + 2
      invariant candidate == Candidate(base, index - 1)
      invariant AllTakenBelow(services, base, index - 1)
      invariant NextCode(services, seed) == FirstFree(services, base, index - 1)
      decreases |services| + 2 - index
    {
      NextTry(services, base, index - 1);
      candidate := base + "-" + Decimal(index);
      index := index + 1;
    }
    TriesEnd(services, base, index - 1);
  }

  /** The codes of all services are different. */
  ghost predicate DistinctCodes(services: seq<Service>) {
    forall i, j :: 0 <= i < j < |services| ==> services[i].serviceCode != services[j].serviceCode
  }

  lemma {:induction false} NewCodeIsFree(services: seq<Service>, seed: string)
    ensures !Taken(services, NextCode(services, seed))
  {
    var k := FirstFreeIsFree(services, Slug(seed), 1);
  }

  // ---------------------------------------------------------------------- lookup

  lemma {:induction false} DecimalIsCode(n: nat)
    ensures Decimal(n) != "" && forall i :: 0 <= i < |Decimal(n)| ==> IsCodeChar(Decimal(n)[i])
  {
    if n >= 10 { DecimalIsCode(n / 10); }
  }

  lemma {:induction false} CandidateCanonical(base: string, k: nat)
    requires Shaped(base) && base != "" && base[0] != '-' && k >= 2
    ensures Canonical(Candidate(base, k)) <==> base[|base| - 1] != '-'
  {
    DecimalIsCode(k);
    var c := Candidate(base, k);
    assert forall i :: 0 <= i < |base| ==> c[i] == base[i];
    assert c[|base|] == '-';
    assert forall i :: |base| < i < |c| ==> c[i] == Decimal(k)[i - |base| - 1];
    if base[|base| - 1] == '-' { assert c[|base| - 1] == '-' && c[|base|] == '-'; }
  }

  /** A candidate is found again under its own code exactly when the seed's slug does not end in a
      hyphen and slug and suffix fit the length limit. */
  lemma {:induction false} CandidateFoundIff(seed: string, k: nat)
    requires k >= 1
    ensures var base := Slug(seed);
      Slug(Candidate(base, k)) == Candidate(base, k) <==> base[|base| - 1] != '-' && |Candidate(base, k)| <= MAX_CODE
  {
    var base := Slug(seed);
    SlugIsShaped(seed);
    SlugFixedIff(Candidate(base, k));
    if k >= 2 { CandidateCanonical(base, k); }
  }

  lemma {:induction false} IndexOfDistinct(services: seq<Service>, n: nat)
    requires DistinctCodes(services) && n < |services|
    ensures IndexOf(services, services[n].serviceCode) == n
  {
    if n > 0 {
      assert services[0].serviceCode != services[n].serviceCode;
      IndexOfDistinct(services[1..], n - 1);
    }
  }

  /** Looking a service up by its code finds that service if and only if slugging leaves the code alone. */
  lemma {:induction false} LookupFindsIff(services: seq<Service>, n: nat)
    requires DistinctCodes(services) && n < |services|
    ensures Lookup(services, services[n].serviceCode) == n <==> Slug(services[n].serviceCode) == services[n].serviceCode
  {
    IndexOfDistinct(services, n);
  }

  /** A service whose code is too long is found under no text at all. */
  lemma {:induction false} OverlongNeverFound(services: seq<Service>, n: nat, x: string)
    requires n < |services| && |services[n].serviceCode| > MAX_CODE
    ensures Lookup(services, x) != n
  {
    SlugIsShaped(x);
  }
}
