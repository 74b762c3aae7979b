/** What the two consent queries say, and what the passing of time and of revocations does to their answer. */
module ConsentLaws {
  import opened Wrappers
  import opened Environments
  import opened Lists
  import opened Slugs
  import opened ConsentReceiptStore

  // ---------------------------------------------------------- what a query means

  /** The receipt answers the question, whatever its status. */
  ghost predicate Answers(r: Receipt, q: Question) {
    && (Normalize(q.serviceCode) == "" || r.serviceCode == Normalize(q.serviceCode))
    && (q.subjectId == "" || r.subjectId == q.subjectId)
    && (q.environment.None? || r.environment == q.environment.value)
    && Within(q.scopes, r.scopes)
  }

  ghost predicate Held(receipts: seq<Receipt>, q: Question, status: Status, now: int) {
    exists i :: 0 <= i < |receipts| && Answers(receipts[i], q) && receipts[i].StatusAt(now) == status
  }

  // -------------------------------------------------------------------- sorting

  ghost predicate Descending(receipts: seq<Receipt>, key: SortKey) {
    forall i, j :: 0 <= i < j < |receipts| ==> key.Of(receipts[j]) <= key.Of(receipts[i])
  }

  lemma {:induction false} InsertMembers(r: Receipt, sorted: seq<Receipt>, key: SortKey, x: Receipt)
    ensures x in Insert(r, sorted, key) <==> x == r || x in sorted
  {
    if sorted != [] && key.Of(sorted[0]) > key.Of(r) { InsertMembers(r, sorted[1..], key, x); }
  }

  lemma {:induction false} SortedMembers(receipts: seq<Receipt>, key: SortKey, x: Receipt)
    ensures x in Sorted(receipts, key) <==> x in receipts
  {
    if receipts != [] {
      SortedMembers(receipts[1..], key, x);
      InsertMembers(receipts[0], Sorted(receipts[1..], key), key, x);
    }
  }

  lemma {:induction false} InsertDescending(r: Receipt, sorted: seq<Receipt>, key: SortKey)
    requires Descending(sorted, key)
    ensures Descending(Insert(r, sorted, key), key)
  {
    if sorted != [] && key.Of(sorted[0]) > key.Of(r) {
      var rest := Insert(r, sorted[1..], key);
      InsertDescending(r, sorted[1..], key);
      forall j | 0 <= j < |rest| ensures key.Of(rest[j]) <= key.Of(sorted[0]) {
        InsertMembers(r, sorted[1..], key, rest[j]);
      }
    }
  }

  lemma {:induction false} SortedDescending(receipts: seq<Receipt>, key: SortKey)
    ensures Descending(Sorted(receipts, key), key)
  {
    if receipts != [] {
      SortedDescending(receipts[1..], key);
      InsertDescending(receipts[0], Sorted(receipts[1..], key), key);
    }
  }

  // ------------------------------------------------------------ what is selected

  lemma {:induction false} FilteredSound(
    receipts: seq<Receipt>, code: string, filters: Filters, now: int, x: Receipt) returns (i: nat)
    requires x in Filtered(receipts, code, filters, now)
    ensures i < |receipts| && receipts[i].Parsed(now) == x && Passes(x, code, filters)
  {
    var r := receipts[0].Parsed(now);
    if x == r && Passes(r, code, filters) {
      i := 0;
    } else {
      i := FilteredSound(receipts[1..], code, filters, now, x);
      i := i + 1;
    }
  }

  lemma {:induction false} FilteredComplete(receipts: seq<Receipt>, code: string, filters: Filters, now: int, i: nat)
    requires i < |receipts| && Passes(receipts[i].Parsed(now), code, filters)
    ensures receipts[i].Parsed(now) in Filtered(receipts, code, filters, now)
  {
    if i > 0 { FilteredComplete(receipts[1..], code, filters, now, i - 1); }
  }

  lemma {:induction false} CandidatesSound(
    listed: seq<Receipt>, required: seq<string>, environment: Option<Environment>, now: int, x: Receipt)
    returns (i: nat)
    requires x in Candidates(listed, required, environment, now)
    ensures i < |listed| && listed[i].Parsed(now) == x && Covers(x, required, environment)
  {
    var r := listed[0].Parsed(now);
    if x == r && Covers(r, required, environment) {
      i := 0;
    } else {
      i := CandidatesSound(listed[1..], required, environment, now, x);
      i := i + 1;
    }
  }

  lemma {:induction false} CandidatesComplete(
    listed: seq<Receipt>, required: seq<string>, environment: Option<Environment>, now: int, i: nat)
    requires i < |listed| && Covers(listed[i].Parsed(now), required, environment)
    ensures listed[i].Parsed(now) in Candidates(listed, required, environment, now)
  {
    if i > 0 { CandidatesComplete(listed[1..], required, environment, now, i - 1); }
  }

  lemma ListSound(receipts: seq<Receipt>, filters: Filters, now: int, x: Receipt) returns (i: nat)
    requires x in List(receipts, filters, now)
    ensures i < |receipts| && receipts[i].Parsed(now) == x && Passes(x, Normalize(filters.serviceCode), filters)
  {
    SortedMembers(Filtered(receipts, Normalize(filters.serviceCode), filters, now), ByCreation, x);
    i := FilteredSound(receipts, Normalize(filters.serviceCode), filters, now, x);
  }

  lemma ListComplete(receipts: seq<Receipt>, filters: Filters, now: int, i: nat)
    requires i < |receipts| && Passes(receipts[i].Parsed(now), Normalize(filters.serviceCode), filters)
    ensures receipts[i].Parsed(now) in List(receipts, filters, now)
  {
    FilteredComplete(receipts, Normalize(filters.serviceCode), filters, now, i);
    SortedMembers(
      Filtered(receipts, Normalize(filters.serviceCode), filters, now), ByCreation, receipts[i].Parsed(now));
  }

  /** A status that was derived earlier does not change what is derived later. */
  lemma ParsedTwice(r: Receipt, t: int, now: int)
    ensures r.Parsed(t).Parsed(now) == r.Parsed(now)
  {
  }

  lemma AnswersPassing(r: Receipt, q: Question, status: Option<Status>, t: int)
    ensures Answers(r, q) && (status.None? || r.StatusAt(t) == status.value) <==>
      Passes(r.Parsed(t), Normalize(q.serviceCode), Filters(q.serviceCode, q.subjectId, status)) &&
      Covers(r.Parsed(t), Unique(q.scopes), q.environment)
  {
    UniqueLaws(q.scopes);
  }

  lemma HasActiveConsentMeans(receipts: seq<Receipt>, q: Question, now: int)
    ensures HasActiveConsent(receipts, q, now) <==> Held(receipts, q, Active, now)
  {
    var filters, required := Filters(q.serviceCode, q.subjectId, Some(Active)), Unique(q.scopes);
    var listed := List(receipts, filters, now);
    if x :| x in listed && Covers(x, required, q.environment) {
      var i := ListSound(receipts, filters, now, x);
      AnswersPassing(receipts[i], q, Some(Active), now);
    }
    if i :| 0 <= i < |receipts| && Answers(receipts[i], q) && receipts[i].StatusAt(now) == Active {
      AnswersPassing(receipts[i], q, Some(Active), now);
      ListComplete(receipts, filters, now, i);
    }
  }

  lemma RankedSound(receipts: seq<Receipt>, q: Question, now: int, listedAt: int, x: Receipt) returns (i: nat)
    requires x in Ranked(receipts, q, now, listedAt)
    ensures i < |receipts| && receipts[i].Parsed(now) == x && Answers(receipts[i], q)
  {
    var filters, required := Filters(q.serviceCode, q.subjectId, None), Unique(q.scopes);
    var listed := List(receipts, filters, listedAt);
    SortedMembers(Candidates(listed, required, q.environment, now), ByExpiry, x);
    var j := CandidatesSound(listed, required, q.environment, now, x);
    i := ListSound(receipts, filters, listedAt, listed[j]);
    ParsedTwice(receipts[i], listedAt, now);
    AnswersPassing(receipts[i], q, None, listedAt);
  }

  lemma RankedComplete(receipts: seq<Receipt>, q: Question, now: int, listedAt: int, i: nat)
    requires i < |receipts| && Answers(receipts[i], q)
    ensures receipts[i].Parsed(now) in Ranked(receipts, q, now, listedAt)
  {
    var filters, required := Filters(q.serviceCode, q.subjectId, None), Unique(q.scopes);
    var listed := List(receipts, filters, listedAt);
    AnswersPassing(receipts[i], q, None, listedAt);
    ListComplete(receipts, filters, listedAt, i);
    var j :| 0 <= j < |listed| && listed[j] == receipts[i].Parsed(listedAt);
    ParsedTwice(receipts[i], listedAt, now);
    CandidatesComplete(listed, required, q.environment, now, j);
    SortedMembers(Candidates(listed, required, q.environment, now), ByExpiry, receipts[i].Parsed(now));
  }

  lemma {:induction false} FirstIsFirst(receipts: seq<Receipt>, status: Status, j: nat)
    requires j < |receipts| && receipts[j].status == status
    ensures First(receipts, status) <= j
  {
    if j > 0 && receipts[0].status != status { FirstIsFirst(receipts[1..], status, j - 1); }
  }

  lemma FirstIsHeld(receipts: seq<Receipt>, q: Question, now: int, listedAt: int, status: Status)
    requires First(Ranked(receipts, q, now, listedAt), status) < |Ranked(receipts, q, now, listedAt)|
    ensures Held(receipts, q, status, now)
  {
    var ranked := Ranked(receipts, q, now, listedAt);
    var i := RankedSound(receipts, q, now, listedAt, ranked[First(ranked, status)]);
  }

  lemma HeldIsFound(
    receipts: seq<Receipt>, q: Question, now: int, listedAt: int, status: Status, i: nat) returns (j: nat)
    requires i < |receipts| && Answers(receipts[i], q) && receipts[i].StatusAt(now) == status
    ensures var ranked := Ranked(receipts, q, now, listedAt);
      First(ranked, status) <= j < |ranked| && ranked[j] == receipts[i].Parsed(now)
  {
    var ranked := Ranked(receipts, q, now, listedAt);
    RankedComplete(receipts, q, now, listedAt, i);
    j :| 0 <= j < |ranked| && ranked[j] == receipts[i].Parsed(now);
    FirstIsFirst(ranked, status, j);
  }

  lemma FirstMeans(receipts: seq<Receipt>, q: Question, now: int, listedAt: int, status: Status)
    ensures var ranked := Ranked(receipts, q, now, listedAt);
      First(ranked, status) < |ranked| <==> Held(receipts, q, status, now)
  {
    var ranked := Ranked(receipts, q, now, listedAt);
    if First(ranked, status) < |ranked| { FirstIsHeld(receipts, q, now, listedAt, status); }
    if i :| 0 <= i < |receipts| && Answers(receipts[i], q) && receipts[i].StatusAt(now) == status {
      var j := HeldIsFound(receipts, q, now, listedAt, status, i);
    }
  }

  /** The evaluation says exactly what is held: an active receipt, else a revoked one, else an expired one. */
  lemma EvaluationMeans(receipts: seq<Receipt>, q: Question, days: int, now: int, listedAt: int)
    ensures
      var e := EvaluateConsent(receipts, q, days, now, listedAt);
      && (e.allowed <==> Held(receipts, q, Active, now))
      && (e.standing == NowRevoked <==> !Held(receipts, q, Active, now) && Held(receipts, q, Revoked, now))
      && (e.standing == NowExpired <==>
            !Held(receipts, q, Active, now) && !Held(receipts, q, Revoked, now) && Held(receipts, q, Expired, now))
      && (e.standing == Missing <==> forall status :: !Held(receipts, q, status, now))
  {
    FirstMeans(receipts, q, now, listedAt, Active);
    FirstMeans(receipts, q, now, listedAt, Revoked);
    FirstMeans(receipts, q, now, listedAt, Expired);
  }

  /** The two queries agree, whenever the evaluation listed the receipts. */
  lemma QueriesAgree(receipts: seq<Receipt>, q: Question, days: int, now: int, listedAt: int)
    ensures EvaluateConsent(receipts, q, days, now, listedAt).allowed == HasActiveConsent(receipts, q, now)
  {
    EvaluationMeans(receipts, q, days, now, listedAt);
    HasActiveConsentMeans(receipts, q, now);
  }

  /** `r` is the receipt at some position, its status derived, and answers the question. */
  ghost predicate FromStore(receipts: seq<Receipt>, q: Question, now: int, r: Receipt) {
    exists i :: 0 <= i < |receipts| && receipts[i].Parsed(now) == r && Answers(receipts[i], q)
  }

  /** No receipt with the status that answers the question expires later. */
  ghost predicate NoneExpiresAfter(receipts: seq<Receipt>, q: Question, status: Status, now: int, expiry: int) {
    forall i :: 0 <= i < |receipts| && Answers(receipts[i], q) && receipts[i].StatusAt(now) == status ==>
      receipts[i].expiresAt <= expiry
  }

  lemma HeldExpiresNoLater(receipts: seq<Receipt>, q: Question, status: Status, now: int, listedAt: int, i: nat)
    requires i < |receipts| && Answers(receipts[i], q) && receipts[i].StatusAt(now) == status
    ensures var ranked := Ranked(receipts, q, now, listedAt); var n := First(ranked, status);
      n < |ranked| && receipts[i].expiresAt <= ranked[n].expiresAt
  {
    var ranked := Ranked(receipts, q, now, listedAt);
    var j := HeldIsFound(receipts, q, now, listedAt, status, i);
    SortedDescending(
      Candidates(
        List(receipts, Filters(q.serviceCode, q.subjectId, None), listedAt), Unique(q.scopes), q.environment, now),
      ByExpiry);
    DescendingAt(ranked, First(ranked, status), j);
  }

  lemma DescendingAt(ranked: seq<Receipt>, n: nat, j: nat)
    requires Descending(ranked, ByExpiry) && n <= j < |ranked|
    ensures ranked[j].expiresAt <= ranked[n].expiresAt
  {
    assert n < j ==> ByExpiry.Of(ranked[j]) <= ByExpiry.Of(ranked[n]);
  }

  /** The first of a status is one from the store, and expires last among those. */
  lemma FirstIsLatest(receipts: seq<Receipt>, q: Question, status: Status, now: int, listedAt: int)
    requires First(Ranked(receipts, q, now, listedAt), status) < |Ranked(receipts, q, now, listedAt)|
    ensures var ranked := Ranked(receipts, q, now, listedAt);
      var chosen := ranked[First(ranked, status)];
      FromStore(receipts, q, now, chosen) && NoneExpiresAfter(receipts, q, status, now, chosen.expiresAt)
  {
    var ranked := Ranked(receipts, q, now, listedAt);
    var source := RankedSound(receipts, q, now, listedAt, ranked[First(ranked, status)]);
    forall i | 0 <= i < |receipts| && Answers(receipts[i], q) && receipts[i].StatusAt(now) == status
      ensures receipts[i].expiresAt <= ranked[First(ranked, status)].expiresAt
    {
      HeldExpiresNoLater(receipts, q, status, now, listedAt, i);
    }
  }

  /** The window for renewal, in milliseconds; a negative one is empty. */
  function Window(days: int): int {
    if days < 0 then 0 else days * 24 * 60 * 60 * 1000
  }

  lemma WindowDays(days: int)
    ensures Window(days) == Days(if days < 0 then 0 else days)
  {
  }

  lemma JudgedByFirst(candidates: seq<Receipt>, days: int, now: int)
    ensures
      var e := Judged(candidates, days, now);
      var active, revoked, expired := First(candidates, Active), First(candidates, Revoked), First(candidates, Expired);
      if active < |candidates| then
        && e.receipt == Some(candidates[active])
        && (e.renewalRequired <==> candidates[active].expiresAt - now <= Window(days))
        && e.standing == (if e.renewalRequired then ExpiringSoon else Allowed)
      else
        && e.renewalRequired
        && e.receipt == if revoked < |candidates| then Some(candidates[revoked])
             else if expired < |candidates| then Some(candidates[expired]) else None
  {
    WindowDays(days);
    var active := First(candidates, Active);
    if active < |candidates| {
      assert now >= candidates[active].expiresAt - Window(days) <==> candidates[active].expiresAt - now <= Window(days);
    }
  }

  /** The receipt an evaluation returns comes from the store, has the status that decided, and is one of the
      latest expiry among those. Renewal is asked for exactly if access is denied or the expiry is within the
      window, and only in the latter case is an allowed one said to expire soon. */
  lemma ChosenIsLatest(receipts: seq<Receipt>, q: Question, days: int, now: int, listedAt: int)
    ensures
      var e := EvaluateConsent(receipts, q, days, now, listedAt);
      && (e.receipt.None? <==> e.standing == Missing)
      && (e.receipt.Some? ==>
            var chosen := e.receipt.value;
            && chosen.status == (if e.allowed then Active else if e.standing == NowRevoked then Revoked else Expired)
            && FromStore(receipts, q, now, chosen)
            && NoneExpiresAfter(receipts, q, chosen.status, now, chosen.expiresAt))
      && (e.renewalRequired <==> !e.allowed || e.receipt.value.expiresAt - now <= Window(days))
      && (e.allowed ==> e.standing == if e.renewalRequired then ExpiringSoon else Allowed)
  {
    var ranked := Ranked(receipts, q, now, listedAt);
    JudgedByFirst(ranked, days, now);
    if First(ranked, Active) < |ranked| { FirstIsLatest(receipts, q, Active, now, listedAt); }
    if First(ranked, Revoked) < |ranked| { FirstIsLatest(receipts, q, Revoked, now, listedAt); }
    if First(ranked, Expired) < |ranked| { FirstIsLatest(receipts, q, Expired, now, listedAt); }
  }

  // ------------------------------------------------------------- what a call stores

  /** New evidence adds a receipt of what was given, each scope once, active from now on; evidence already held
      for the service adds nothing and returns the receipt held. */
  lemma CreateMeans(receipts: seq<Receipt>, input: ReceiptInput, freshId: string, now: int)
    ensures
      var (receipts', r) := Create(receipts, input, freshId, now);
      var n := IndexOfEvidence(receipts, Normalize(input.serviceCode), input.evidenceHash);
      if n < |receipts| then receipts' == receipts && r == receipts[n].(status := receipts[n].StatusAt(now))
      else
        && receipts' == receipts + [r]
        && r == Receipt(freshId, Normalize(input.serviceCode), input.environment, input.subjectId,
                        input.externalSubjectId, r.scopes, input.evidenceHash, input.expiresAt, Active, now, None)
        && NoRepeats(r.scopes) && forall x :: x in r.scopes <==> x in input.scopes
  {
    UniqueLaws(input.scopes);
  }

  /** A revocation marks its receipt with the time, once; it returns the receipt as it then is. */
  lemma RevokeMeans(receipts: seq<Receipt>, id: string, now: int)
    ensures
      var (receipts', r) := Revoke(receipts, id, now);
      var n := IndexOf(receipts, id);
      if n == |receipts| then r.Err? && receipts' == receipts
      else
        && r.Ok? && r.value.status == Revoked
        && if receipts[n].revokedAt.Some? || receipts[n].status == Revoked
           then receipts' == receipts && r.value == receipts[n].(status := Revoked)
           else
             && receipts' == receipts[n := r.value]
             && r.value == receipts[n].(status := Revoked, revokedAt := Some(now))
  {
  }

  // ------------------------------------------------------------------- whole runs

  datatype Op = Creating(input: ReceiptInput, freshId: string, now: int) | Revoking(id: string, now: int)

  function Step(receipts: seq<Receipt>, op: Op): seq<Receipt> {
    match op
    case Creating(input, freshId, now) => Create(receipts, input, freshId, now).0
    case Revoking(id, now) => Revoke(receipts, id, now).0
  }

  function Run(receipts: seq<Receipt>, ops: seq<Op>): seq<Receipt>
    decreases ops
  {
    if ops == [] then receipts else Run(Step(receipts, ops[0]), ops[1..])
  }

  predicate EvidenceHeld(receipts: seq<Receipt>, op: Op) {
    op.Creating? ==> IndexOfEvidence(receipts, Normalize(op.input.serviceCode), op.input.evidenceHash) < |receipts|
  }

  /** Every creation of the run repeats evidence the store already holds. */
  ghost predicate NoNewEvidence(receipts: seq<Receipt>, ops: seq<Op>)
    decreases ops
  {
    ops == [] || (EvidenceHeld(receipts, ops[0]) && NoNewEvidence(Step(receipts, ops[0]), ops[1..]))
  }

  /** The later form of a receipt: at most it has been revoked. */
  ghost predicate Becomes(r: Receipt, r': Receipt) {
    && r' == r.(status := r'.status, revokedAt := r'.revokedAt)
    && (r.Gone() ==> r'.Gone())
  }

  ghost predicate Grown(receipts: seq<Receipt>, later: seq<Receipt>) {
    |receipts| <= |later| && forall i :: 0 <= i < |receipts| ==> Becomes(receipts[i], later[i])
  }

  lemma AppendedGrows(receipts: seq<Receipt>, r: Receipt)
    ensures Grown(receipts, receipts) && Grown(receipts, receipts + [r])
  {
    assert forall i :: 0 <= i < |receipts| ==> Becomes(receipts[i], receipts[i]);
  }

  lemma ReplacedGrows(receipts: seq<Receipt>, n: nat, r: Receipt)
    requires n < |receipts| && Becomes(receipts[n], r)
    ensures Grown(receipts, receipts[n := r])
  {
  }

  lemma StepGrows(receipts: seq<Receipt>, op: Op)
    ensures Grown(receipts, Step(receipts, op))
    ensures EvidenceHeld(receipts, op) ==> |Step(receipts, op)| == |receipts|
  {
    if op.Creating? {
      AppendedGrows(receipts, NewReceipt(op.input, op.freshId, op.now));
    } else {
      var n := IndexOf(receipts, op.id);
      if receipts != [] { AppendedGrows(receipts, receipts[0]); }
      if n < |receipts| { ReplacedGrows(receipts, n, receipts[n].(status := Revoked, revokedAt := Some(op.now))); }
    }
  }

  /** Receipts are never dropped, replaced or revived. */
  lemma {:induction false} RunGrows(receipts: seq<Receipt>, ops: seq<Op>)
    ensures Grown(receipts, Run(receipts, ops))
    ensures NoNewEvidence(receipts, ops) ==> |Run(receipts, ops)| == |receipts|
    decreases ops
  {
    if ops != [] {
      var next, last := Step(receipts, ops[0]), Run(receipts, ops);
      StepGrows(receipts, ops[0]);
      RunGrows(next, ops[1..]);
      forall i | 0 <= i < |receipts| ensures Becomes(receipts[i], last[i]) {
        assert Becomes(receipts[i], next[i]) && Becomes(next[i], last[i]);
      }
    }
  }

  lemma HeldEarlier(receipts: seq<Receipt>, later: seq<Receipt>, q: Question, t: int, t': int)
    requires Grown(receipts, later) && |later| == |receipts| && t <= t' && Held(later, q, Active, t')
    ensures Held(receipts, q, Active, t)
  {
    var i :| 0 <= i < |later| && Answers(later[i], q) && later[i].StatusAt(t') == Active;
    assert Becomes(receipts[i], later[i]);
  }

  /** A denied question stays denied, as time passes and receipts are revoked, until new evidence comes. */
  lemma DeniedStaysDenied(receipts: seq<Receipt>, q: Question, ops: seq<Op>, now: int, later: int)
    requires NoNewEvidence(receipts, ops) && now <= later && !HasActiveConsent(receipts, q, now)
    ensures !HasActiveConsent(Run(receipts, ops), q, later)
  {
    RunGrows(receipts, ops);
    HasActiveConsentMeans(receipts, q, now);
    HasActiveConsentMeans(Run(receipts, ops), q, later);
    if Held(Run(receipts, ops), q, Active, later) { HeldEarlier(receipts, Run(receipts, ops), q, now, later); }
  }

  ghost predicate DistinctIds(receipts: seq<Receipt>) {
    forall i, j :: 0 <= i < j < |receipts| ==> receipts[i].consentId != receipts[j].consentId
  }

  ghost predicate DistinctEvidence(receipts: seq<Receipt>) {
    forall i, j :: 0 <= i < j < |receipts| ==>
      receipts[i].serviceCode != receipts[j].serviceCode || receipts[i].evidenceHash != receipts[j].evidenceHash
  }

  lemma {:induction false} IndexOfAbsent(receipts: seq<Receipt>, id: string)
    requires IndexOf(receipts, id) == |receipts|
    ensures forall i :: 0 <= i < |receipts| ==> receipts[i].consentId != id
  {
    if receipts != [] { IndexOfAbsent(receipts[1..], id); }
  }

  lemma {:induction false} IndexOfEvidenceAbsent(receipts: seq<Receipt>, code: string, evidence: string)
    requires IndexOfEvidence(receipts, code, evidence) == |receipts|
    ensures forall i :: 0 <= i < |receipts| ==> receipts[i].serviceCode != code || receipts[i].evidenceHash != evidence
  {
    if receipts != [] { IndexOfEvidenceAbsent(receipts[1..], code, evidence); }
  }

  lemma {:induction false} IndexOfPresent(receipts: seq<Receipt>, i: nat)
    requires i < |receipts| && DistinctIds(receipts)
    ensures IndexOf(receipts, receipts[i].consentId) == i
  {
    if i > 0 {
      assert receipts[0].consentId != receipts[i].consentId;
      IndexOfPresent(receipts[1..], i - 1);
    }
  }

  predicate FreshIn(receipts: seq<Receipt>, op: Op) {
    op.Creating? ==> IndexOf(receipts, op.freshId) == |receipts|
  }

  ghost predicate FreshRun(receipts: seq<Receipt>, ops: seq<Op>)
    decreases ops
  {
    ops == [] || (FreshIn(receipts, ops[0]) && FreshRun(Step(receipts, ops[0]), ops[1..]))
  }

  /** No two receipts share an id, or a service and its evidence. */
  lemma {:induction false} RunKeepsDistinct(receipts: seq<Receipt>, ops: seq<Op>)
    requires FreshRun(receipts, ops) && DistinctIds(receipts) && DistinctEvidence(receipts)
    ensures DistinctIds(Run(receipts, ops)) && DistinctEvidence(Run(receipts, ops))
    decreases ops
  {
    if ops != [] {
      StepKeepsDistinct(receipts, ops[0]);
      RunKeepsDistinct(Step(receipts, ops[0]), ops[1..]);
    }
  }

  lemma AppendKeepsDistinct(receipts: seq<Receipt>, r: Receipt)
    requires DistinctIds(receipts) && DistinctEvidence(receipts)
    requires IndexOf(receipts, r.consentId) == |receipts|
    requires IndexOfEvidence(receipts, r.serviceCode, r.evidenceHash) == |receipts|
    ensures DistinctIds(receipts + [r]) && DistinctEvidence(receipts + [r])
  {
    IndexOfAbsent(receipts, r.consentId);
    IndexOfEvidenceAbsent(receipts, r.serviceCode, r.evidenceHash);
  }

  lemma GrownKeepsDistinct(receipts: seq<Receipt>, later: seq<Receipt>)
    requires DistinctIds(receipts) && DistinctEvidence(receipts) && Grown(receipts, later) && |later| == |receipts|
    ensures DistinctIds(later) && DistinctEvidence(later)
  {
    forall i, j | 0 <= i < j < |later|
      ensures later[i].consentId != later[j].consentId
      ensures later[i].serviceCode != later[j].serviceCode || later[i].evidenceHash != later[j].evidenceHash
    {
      assert Becomes(receipts[i], later[i]) && Becomes(receipts[j], later[j]);
    }
  }

  lemma StepKeepsDistinct(receipts: seq<Receipt>, op: Op)
    requires FreshIn(receipts, op) && DistinctIds(receipts) && DistinctEvidence(receipts)
    ensures DistinctIds(Step(receipts, op)) && DistinctEvidence(Step(receipts, op))
  {
    if op.Creating? {
      if !EvidenceHeld(receipts, op) { AppendKeepsDistinct(receipts, NewReceipt(op.input, op.freshId, op.now)); }
    } else {
      StepGrows(receipts, op);
      GrownKeepsDistinct(receipts, Step(receipts, op));
    }
  }

  /** Once revoked, a receipt reads as revoked after every later run. */
  lemma RevokedStaysRevoked(receipts: seq<Receipt>, i: nat, ops: seq<Op>, now: int)
    requires i < |receipts| && receipts[i].Gone() && DistinctIds(receipts) && DistinctEvidence(receipts)
    requires FreshRun(receipts, ops)
    ensures var later := Get(Run(receipts, ops), receipts[i].consentId, now); later.Ok? && later.value.status == Revoked
  {
    RunGrows(receipts, ops);
    RunKeepsDistinct(receipts, ops);
    assert Becomes(receipts[i], Run(receipts, ops)[i]);
    IndexOfPresent(Run(receipts, ops), i);
  }

  lemma {:induction false} IndexOfEvidencePresent(receipts: seq<Receipt>, i: nat)
    requires i < |receipts| && DistinctEvidence(receipts)
    ensures IndexOfEvidence(receipts, receipts[i].serviceCode, receipts[i].evidenceHash) == i
  {
    if i > 0 {
      assert receipts[0].serviceCode != receipts[i].serviceCode || receipts[0].evidenceHash != receipts[i].evidenceHash;
      IndexOfEvidencePresent(receipts[1..], i - 1);
    }
  }

  /** Evidence presented again after its receipt was revoked gets the revoked receipt back, and changes nothing. */
  lemma SameEvidenceDoesNotRevive(
    receipts: seq<Receipt>, i: nat, ops: seq<Op>, again: ReceiptInput, freshId: string, now: int)
    requires i < |receipts| && receipts[i].Gone() && DistinctIds(receipts) && DistinctEvidence(receipts)
    requires FreshRun(receipts, ops)
    requires Normalize(again.serviceCode) == receipts[i].serviceCode && again.evidenceHash == receipts[i].evidenceHash
    ensures var (last, receipt) := Create(Run(receipts, ops), again, freshId, now);
      last == Run(receipts, ops) && receipt.consentId == receipts[i].consentId && receipt.status == Revoked
  {
    RunGrows(receipts, ops);
    RunKeepsDistinct(receipts, ops);
    assert Becomes(receipts[i], Run(receipts, ops)[i]);
    IndexOfEvidencePresent(Run(receipts, ops), i);
  }
}
