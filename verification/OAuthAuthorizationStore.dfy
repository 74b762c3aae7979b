/** Authorization requests and the single-use codes that approved ones are turned into.

    Random values and requests are known by their hash; `hash` and `s256` (the two encodings of the
    digest) are any functions. An UPDATE with its WHERE clause is one atomic step. */
module OAuthAuthorizationStore {
  import opened Environments

  datatype Status = PendingIdentity | PendingConsent | Approved | Denied

  /** A row of the authorization table; the subject is empty until one is stored. */
  datatype Authorization = Authorization(
    requestId: string, serviceCode: string, environment: Environment, redirectUri: string,
    requestedScopes: seq<string>, clientState: string, codeChallenge: string,
    approvalTokenHash: string, subjectId: string, status: Status, expiresAt: int)

  datatype Code = Code(
    serviceCode: string, environment: Environment, redirectUri: string, scopes: seq<string>,
    subjectId: string, consentId: string, codeChallenge: string, expiresAt: int, consumed: bool)

  datatype Error =
    | StateInvalid | RequestInvalid | SubjectRequired | CodeInvalid | CodeClientMismatch | PkceVerifierInvalid

  datatype Outcome<+T> = Done(value: T) | Failed(error: Error)

  /** The two tables; `byState` is the unique index on the hashed upstream state. */
  datatype Rows = Rows(requests: map<string, Authorization>, byState: map<string, string>, codes: map<string, Code>) {

    predicate Waiting(id: string, status: Status, now: int) {
      id in requests && requests[id].status == status && requests[id].expiresAt > now
    }

    function Create(r: Authorization, stateHash: string): Rows {
      this.(requests := requests[r.requestId := r.(status := PendingIdentity, subjectId := "")],
            byState := byState[stateHash := r.requestId])
    }

    function CompleteIdentity(stateHash: string, subjectId: string, now: int): (Rows, Outcome<Authorization>) {
      if stateHash !in byState || !Waiting(byState[stateHash], PendingIdentity, now) then (this, Failed(StateInvalid))
      else
        var id := byState[stateHash];
        var r := requests[id].(subjectId := subjectId, status := PendingConsent);
        (this.(requests := requests[id := r]), Done(r))
    }

    function ReplacePendingSubject(id: string, subjectId: string, now: int): (Rows, Outcome<Authorization>) {
      if !Waiting(id, PendingConsent, now) then (this, Failed(RequestInvalid))
      else
        var r := requests[id].(subjectId := subjectId);
        (this.(requests := requests[id := r]), Done(r))
    }

    function Decide(id: string, tokenHash: string, approve: bool, now: int): (Rows, Outcome<Authorization>) {
      if !Waiting(id, PendingConsent, now) || requests[id].approvalTokenHash != tokenHash then
        (this, Failed(RequestInvalid))
      else
        var r := requests[id].(status := if approve then Approved else Denied);
        (this.(requests := requests[id := r]), Done(r))
    }

    function IssueCode(
      r: Authorization, consentId: string, codeHash: string, ttlSeconds: int, now: int): (Rows, Outcome<string>)
    {
      if r.subjectId == "" then (this, Failed(SubjectRequired))
      else
        var code := Code(r.serviceCode, r.environment, r.redirectUri, r.requestedScopes, r.subjectId, consentId,
                         r.codeChallenge, now + ttlSeconds * 1000, false);
        (this.(codes := codes[codeHash := code]), Done(codeHash))
    }

    function ConsumeCode(
      codeHash: string, serviceCode: string, redirectUri: string, challenge: string, now: int): (Rows, Outcome<Code>)
    {
      if codeHash !in codes || codes[codeHash].consumed || codes[codeHash].expiresAt <= now then
        (this, Failed(CodeInvalid))
      else if codes[codeHash].serviceCode != serviceCode || codes[codeHash].redirectUri != redirectUri then
        (this, Failed(CodeClientMismatch))
      else if codes[codeHash].codeChallenge != challenge then (this, Failed(PkceVerifierInvalid))
      else
        var code := codes[codeHash].(consumed := true);
        (this.(codes := codes[codeHash := code]), Done(code))
    }
  }

  class Store {
    const hash: string -> string
    const s256: string -> string
    var requests: map<string, Authorization>
    var byState: map<string, string>
    var codes: map<string, Code>

    constructor (hash: string -> string, s256: string -> string)
      ensures this.hash == hash && this.s256 == s256
      ensures View() == Rows(map[], map[], map[])
    {
      this.hash, this.s256 := hash, s256;
      requests, byState, codes := map[], map[], map[];
    }

    ghost function View(): Rows
      reads this
    {
      Rows(requests, byState, codes)
    }

    /** The request id, the state and the approval token are freshly drawn. */
    method CreateRequest(input: Authorization, upstreamState: string, approvalToken: string)
      requires input.requestId !in requests && hash(upstreamState) !in byState
      modifies this
      ensures View() == old(View()).Create(input.(approvalTokenHash := hash(approvalToken)), hash(upstreamState))
    {
      var row := input.(approvalTokenHash := hash(approvalToken), status := PendingIdentity, subjectId := "");
      requests := requests[input.requestId := row];
      byState := byState[hash(upstreamState) := input.requestId];
    }

    method CompleteIdentity(upstreamState: string, subjectId: string, now: int) returns (r: Outcome<Authorization>)
      modifies this
      ensures (View(), r) == old(View()).CompleteIdentity(hash(upstreamState), subjectId, now)
    {
      if hash(upstreamState) !in byState { return Failed(StateInvalid); }
      var id := byState[hash(upstreamState)];
      if id !in requests || requests[id].status != PendingIdentity || requests[id].expiresAt <= now {
        return Failed(StateInvalid);
      }
      requests := requests[id := requests[id].(subjectId := subjectId, status := PendingConsent)];
      r := Done(requests[id]);
    }

    method ReplacePendingSubject(requestId: string, subjectId: string, now: int) returns (r: Outcome<Authorization>)
      modifies this
      ensures (View(), r) == old(View()).ReplacePendingSubject(requestId, subjectId, now)
    {
      if requestId !in requests || requests[requestId].status != PendingConsent
         || requests[requestId].expiresAt <= now {
        return Failed(RequestInvalid);
      }
      requests := requests[requestId := requests[requestId].(subjectId := subjectId)];
      r := Done(requests[requestId]);
    }

    method Decide(requestId: string, approvalToken: string, approve: bool, now: int) returns (r: Outcome<Authorization>)
      modifies this
      ensures (View(), r) == old(View()).Decide(requestId, hash(approvalToken), approve, now)
    {
      if requestId !in requests || requests[requestId].approvalTokenHash != hash(approvalToken)
         || requests[requestId].status != PendingConsent || requests[requestId].expiresAt <= now {
        return Failed(RequestInvalid);
      }
      requests := requests[requestId := requests[requestId].(status := if approve then Approved else Denied)];
      r := Done(requests[requestId]);
    }

    method IssueCode(
      record: Authorization, consentId: string, newCode: string, ttlSeconds: int, now: int) returns (r: Outcome<string>)
      requires hash(newCode) !in codes
      modifies this
      ensures View() == old(View()).IssueCode(record, consentId, hash(newCode), ttlSeconds, now).0
      ensures r == if record.subjectId == "" then Failed(SubjectRequired) else Done(newCode)
    {
      if record.subjectId == "" { return Failed(SubjectRequired); }
      var row := Code(record.serviceCode, record.environment, record.redirectUri, record.requestedScopes,
                      record.subjectId, consentId, record.codeChallenge, now + ttlSeconds * 1000, false);
      codes := codes[hash(newCode) := row];
      r := Done(newCode);
    }

    method ConsumeCode(
      code: string, serviceCode: string, redirectUri: string, verifier: string, now: int) returns (r: Outcome<Code>)
      modifies this
      ensures (View(), r) == old(View()).ConsumeCode(hash(code), serviceCode, redirectUri, s256(verifier), now)
    {
      var challenge := s256(verifier);
      if hash(code) !in codes { return Failed(CodeInvalid); }
      var row := codes[hash(code)];
      if row.consumed || row.expiresAt <= now { return Failed(CodeInvalid); }
      if row.serviceCode != serviceCode || row.redirectUri != redirectUri { return Failed(CodeClientMismatch); }
      if row.codeChallenge != challenge { return Failed(PkceVerifierInvalid); }
      codes := codes[hash(code) := row.(consumed := true)];
      r := Done(codes[hash(code)]);
    }
  }
}
