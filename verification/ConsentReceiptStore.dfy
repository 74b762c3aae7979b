/** Consent receipts: who allowed which service to do what, until when.

    The map of receipts is insertion-ordered, so it is kept as a sequence. ISO times, all in the
    same format, are compared as milliseconds. Fresh ids and the clock are parameters. */
module ConsentReceiptStore {
  import opened Wrappers
  import opened Environments
  import opened Lists
  import opened Slugs

  datatype Status = Active | Revoked | Expired

  datatype Receipt = Receipt(
    consentId: string, serviceCode: string, environment: Environment, subjectId: string,
    externalSubjectId: Option<string>, scopes: seq<string>, evidenceHash: string,
    expiresAt: int, status: Status, createdAt: int, revokedAt: Option<int>)
  {
    /** Revoked, whatever the time. */
    predicate Gone() {
      revokedAt.Some? || status == Revoked
    }

    /** `deriveStatus` */
    function StatusAt(now: int): Status {
      if Gone() then Revoked else if expiresAt <= now then Expired else Active
    }

    /** `parseReceipt` */
    function Parsed(now: int): Receipt {
      this.(status := StatusAt(now))
    }
  }

  datatype ReceiptInput = ReceiptInput(
    serviceCode: string, environment: Environment, subjectId: string, externalSubjectId: Option<string>,
    scopes: seq<string>, evidenceHash: string, expiresAt: int)

  /** An empty string means that the filter is not applied. */
  datatype Filters = Filters(serviceCode: string, subjectId: string, status: Option<Status>)

  datatype Question = Question(
    serviceCode: string, subjectId: string, scopes: seq<string>, environment: Option<Environment>)

  datatype Standing = Allowed | ExpiringSoon | NowRevoked | NowExpired | Missing
  datatype Evaluation = Evaluation(standing: Standing, allowed: bool, renewalRequired: bool, receipt: Option<Receipt>)

  // ----------------------------------------------------------------- the store

  function IndexOf(receipts: seq<Receipt>, id: string): (n: nat)
    ensures n <= |receipts|
    ensures n < |receipts| ==> receipts[n].consentId == id
  {
    if receipts == [] || receipts[0].consentId == id then 0 else 1 + IndexOf(receipts[1..], id)
  }

  /** The first receipt of the service with the evidence; the length if there is none. */
  function IndexOfEvidence(receipts: seq<Receipt>, code: string, evidence: string): (n: nat)
    ensures n <= |receipts|
    ensures n < |receipts| ==> receipts[n].serviceCode == code && receipts[n].evidenceHash == evidence
  {
    if receipts == [] || (receipts[0].serviceCode == code && receipts[0].evidenceHash == evidence) then 0
    else 1 + IndexOfEvidence(receipts[1..], code, evidence)
  }

  function NewReceipt(input: ReceiptInput, freshId: string, now: int): Receipt {
    Receipt(freshId, Normalize(input.serviceCode), input.environment, input.subjectId, input.externalSubjectId,
            Unique(input.scopes), input.evidenceHash, input.expiresAt, Active, now, None)
  }

  function Create(receipts: seq<Receipt>, input: ReceiptInput, freshId: string, now: int): (seq<Receipt>, Receipt) {
    var receipt := NewReceipt(input, freshId, now);
    var n := IndexOfEvidence(receipts, receipt.serviceCode, receipt.evidenceHash);
    if n < |receipts| then (receipts, receipts[n].Parsed(now)) else (receipts + [receipt], receipt)
  }

  function Get(receipts: seq<Receipt>, id: string, now: int): Result<Receipt> {
    var n := IndexOf(receipts, id);
    if n < |receipts| then Ok(receipts[n].Parsed(now)) else Err("CONSENT_RECEIPT_NOT_FOUND")
  }

  function Revoke(receipts: seq<Receipt>, id: string, now: int): (seq<Receipt>, Result<Receipt>) {
    var n := IndexOf(receipts, id);
    if n == |receipts| then (receipts, Err("CONSENT_RECEIPT_NOT_FOUND"))
    else if receipts[n].Gone() then (receipts, Ok(receipts[n].Parsed(now)))
    else
      var receipt := receipts[n].(status := Revoked, revokedAt := Some(now));
      (receipts[n := receipt], Ok(receipt))
  }

  /** `ConsentReceiptStore` in memory mode. */
  class Store {
    var receipts: seq<Receipt>

    constructor ()
      ensures receipts == []
    {
      receipts := [];
    }

    method CreateReceipt(input: ReceiptInput, freshId: string, now: int) returns (r: Receipt)
      modifies this
      ensures (receipts, r) == Create(old(receipts), input, freshId, now)
    {
      r := Receipt(freshId, Normalize(input.serviceCode), input.environment, input.subjectId, input.externalSubjectId,
                   Unique(input.scopes), input.evidenceHash, input.expiresAt, Active, now, None);
      var n := IndexOfEvidence(receipts, r.serviceCode, r.evidenceHash);
      if n < |receipts| { return receipts[n].Parsed(now); }
      receipts := receipts + [r];
    }

    method RevokeReceipt(id: string, now: int) returns (r: Result<Receipt>)
      modifies this
      ensures (receipts, r) == Revoke(old(receipts), id, now)
    {
      r := Get(receipts, id, now);
      if r.Err? { return; }
      var existing := r.value;
      if existing.status == Revoked { return; }
      var receipt := existing.(status := Revoked, revokedAt := Some(now));
      receipts := receipts[IndexOf(receipts, id) := receipt];
      r := Ok(receipt);
    }
  }

  // --------------------------------------------------------------- the queries

  datatype SortKey = ByCreation | ByExpiry {
    function Of(r: Receipt): int {
      match this
      case ByCreation => r.createdAt
      case ByExpiry => r.expiresAt
    }
  }

  function Insert(r: Receipt, sorted: seq<Receipt>, key: SortKey): seq<Receipt> {
    if sorted == [] || key.Of(sorted[0]) <= key.Of(r) then [r] + sorted
    else [sorted[0]] + Insert(r, sorted[1..], key)
  }

  /** Stable sort, greatest key first. */
  function Sorted(receipts: seq<Receipt>, key: SortKey): seq<Receipt> {
    if receipts == [] then [] else Insert(receipts[0], Sorted(receipts[1..], key), key)
  }

  predicate Passes(r: Receipt, code: string, filters: Filters) {
    && (code == "" || r.serviceCode == code)
    && (filters.subjectId == "" || r.subjectId == filters.subjectId)
    && (filters.status.None? || r.status == filters.status.value)
  }

  function Filtered(receipts: seq<Receipt>, code: string, filters: Filters, now: int): seq<Receipt> {
    if receipts == [] then []
    else
      var r := receipts[0].Parsed(now);
      (if Passes(r, code, filters) then [r] else []) + Filtered(receipts[1..], code, filters, now)
  }

  /** `list`, through `filterReceipts` */
  function List(receipts: seq<Receipt>, filters: Filters, now: int): seq<Receipt> {
    Sorted(Filtered(receipts, Normalize(filters.serviceCode), filters, now), ByCreation)
  }

  predicate Covers(r: Receipt, required: seq<string>, environment: Option<Environment>) {
    && (environment.None? || r.environment == environment.value)
    && (forall s <- required :: s in r.scopes)
  }

  /** `hasActiveConsent` */
  predicate HasActiveConsent(receipts: seq<Receipt>, q: Question, now: int) {
    var required := Unique(q.scopes);
    exists r <- List(receipts, Filters(q.serviceCode, q.subjectId, Some(Active)), now) ::
      Covers(r, required, q.environment)
  }

  function Candidates(
    listed: seq<Receipt>, required: seq<string>, environment: Option<Environment>, now: int): seq<Receipt>
  {
    if listed == [] then []
    else
      var r := listed[0].Parsed(now);
      (if Covers(r, required, environment) then [r] else []) + Candidates(listed[1..], required, environment, now)
  }

  function First(receipts: seq<Receipt>, status: Status): (n: nat)
    ensures n <= |receipts|
    ensures n < |receipts| ==> receipts[n].status == status
  {
    if receipts == [] || receipts[0].status == status then 0 else 1 + First(receipts[1..], status)
  }

  function Days(n: int): int {
    n * 86_400_000
  }

  /** The receipts an evaluation considers, latest expiry first. */
  function Ranked(receipts: seq<Receipt>, q: Question, now: int, listedAt: int): seq<Receipt> {
    var listed := List(receipts, Filters(q.serviceCode, q.subjectId, None), listedAt);
    Sorted(Candidates(listed, Unique(q.scopes), q.environment, now), ByExpiry)
  }

  /** The answer that the candidates give. */
  function Judged(candidates: seq<Receipt>, renewalWindowDays: int, now: int): Evaluation {
    var days := if renewalWindowDays < 0 then 0 else renewalWindowDays;
    var active, revoked, expired := First(candidates, Active), First(candidates, Revoked), First(candidates, Expired);
    if active < |candidates| then
      var soon := now >= candidates[active].expiresAt - Days(days);
      Evaluation(if soon then ExpiringSoon else Allowed, true, soon, Some(candidates[active]))
    else if revoked < |candidates| then Evaluation(NowRevoked, false, true, Some(candidates[revoked]))
    else if expired < |candidates| then Evaluation(NowExpired, false, true, Some(candidates[expired]))
    else Evaluation(Missing, false, true, None)
  }

  /** `evaluateConsent`; the listing reads the clock itself, at `listedAt`. */
  function EvaluateConsent(
    receipts: seq<Receipt>, q: Question, renewalWindowDays: int, now: int, listedAt: int): Evaluation
  {
    Judged(Ranked(receipts, q, now, listedAt), renewalWindowDays, now)
  }
}
