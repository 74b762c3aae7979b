/** Signed headers between the gateway and its core: what is signed, and what a receiver accepts. */
module InternalSigner {
  import opened Wrappers
  import opened Strings
  import opened Json
  import opened CanonicalJson
  import opened CanonicalJsonLaws
  import opened SparseJson

  /** What the signer takes from the platform. */
  datatype Platform = Platform(
    sha256: Text -> string,
    hmac: (string, string) -> string,
    fromHex: string -> seq<int>,
    toIso: int -> string,
    parseDate: string -> Option<int>,
    upper: string -> string,
    less: Order)
  {
    /** Dates survive being written, and no digest or date is the empty string. */
    ghost predicate Sound() {
      && StrictTotalOrder(less)
      && (forall t :: parseDate(toIso(t)) == Some(t) && toIso(t) != "")
      && (forall key, text :: hmac(key, text) != "")
    }

    /** No two texts are known to the receiver by the same digest or code. */
    ghost predicate CollisionFree(secret: string) {
      && (forall a, b :: sha256(a) == sha256(b) ==> a == b)
      && (forall a, b :: fromHex(hmac(secret, a)) == fromHex(hmac(secret, b)) ==> a == b)
    }
  }

  datatype HeaderValue = One(text: string) | Many(texts: seq<string>)

  /** The headers by the part of their name after `x-worker-`, and the two others set. */
  datatype HeaderName =
    | ContentType | WorkerId | WorkerScopes | RequestId | Timestamp | Nonce | Signature | KeyId | Other(name: string)

  type Headers = map<HeaderName, HeaderValue>

  datatype Request = Request(verb: string, path: string, body: Value)
  datatype Signer = Signer(workerId: string, scopes: seq<string>, secret: string, keyId: string)

  datatype Verdict = Accepted | Rejected(error: string)

  function HashBody(body: Value, p: Platform): string {
    p.sha256(StableSerialize(body, p.less))
  }

  function CanonicalPayload(request: Request, workerId: string, scopes: string, timestamp: string, nonce: string,
                            requestId: string, p: Platform): string
  {
    Join(
      [p.upper(request.verb), request.path, workerId, scopes, timestamp, nonce, requestId, HashBody(request.body, p)],
      '\n')
  }

  /** `buildSignedInternalHeaders`, with its clock and its two random ids as parameters. */
  function BuildHeaders(
    request: Request, signer: Signer, now: int, nonce: string, requestId: string, p: Platform): Result<Headers>
  {
    if signer.secret == "" then Err("WORKER_SIGNING_SECRET_REQUIRED")
    else
      var scopes := Join(signer.scopes, ',');
      var payload := CanonicalPayload(request, signer.workerId, scopes, p.toIso(now), nonce, requestId, p);
      var headers := map[
        ContentType := One("application/json"),
        WorkerId := One(signer.workerId),
        WorkerScopes := One(scopes),
        RequestId := One(requestId),
        Timestamp := One(p.toIso(now)),
        Nonce := One(nonce),
        Signature := One(p.hmac(signer.secret, payload))];
      Ok(if signer.keyId == "" then headers else headers[KeyId := One(signer.keyId)])
  }

  function HeaderText(headers: Headers, key: HeaderName): string {
    if key !in headers then ""
    else match headers[key]
      case One(text) => text
      case Many(texts) => Join(texts, ',')
  }

  function TrimAll(parts: seq<string>): (r: seq<string>)
    ensures |r| == |parts| && forall i :: 0 <= i < |r| ==> r[i] == Trim(parts[i])
  {
    if parts == [] then [] else [Trim(parts[0])] + TrimAll(parts[1..])
  }

  predicate ScopeSigned(scopes: string, required: string) {
    required == "" || required in TrimAll(Split(scopes, ','))
  }

  function ToleranceMs(toleranceSeconds: int): int {
    (if toleranceSeconds == 0 then 300 else toleranceSeconds) * 1000
  }

  function Abs(n: int): int {
    if n < 0 then -n else n
  }

  /** `verifySignedInternalHeaders`; a tolerance of 0 means the default. */
  function Verify(
    request: Request, headers: Headers, secret: string, required: string, toleranceSeconds: int, now: int, p: Platform)
    : Verdict
  {
    if secret == "" then Rejected("WORKER_SIGNING_SECRET_REQUIRED")
    else
      var workerId, scopes := HeaderText(headers, WorkerId), HeaderText(headers, WorkerScopes);
      var timestamp, nonce := HeaderText(headers, Timestamp), HeaderText(headers, Nonce);
      var requestId, signature := HeaderText(headers, RequestId), HeaderText(headers, Signature);
      if workerId == "" || scopes == "" || timestamp == "" || nonce == "" || requestId == "" || signature == ""
      then Rejected("INTERNAL_SIGNATURE_HEADERS_MISSING")
      else if !ScopeSigned(scopes, required) then Rejected("INTERNAL_SIGNATURE_SCOPE_MISSING")
      else match p.parseDate(timestamp)
        case None => Rejected("INTERNAL_SIGNATURE_TIMESTAMP_INVALID")
        case Some(signedAt) =>
          if Abs(now - signedAt) > ToleranceMs(toleranceSeconds) then Rejected("INTERNAL_SIGNATURE_TIMESTAMP_STALE")
          else
            var payload := CanonicalPayload(request, workerId, scopes, timestamp, nonce, requestId, p);
            if p.fromHex(p.hmac(secret, payload)) != p.fromHex(signature) then Rejected("INTERNAL_SIGNATURE_INVALID")
            else Accepted
  }

  /** Every header that was built arrives as built; others may be added. */
  ghost predicate Delivered(built: Headers, received: Headers) {
    forall k <- built :: k in received && received[k] == built[k]
  }

  /** For scopes without commas, the scope check is membership up to surrounding white space. */
  lemma ScopeSignedIff(scopes: seq<string>, required: string)
    requires scopes != [] && forall s <- scopes :: ',' !in s
    ensures ScopeSigned(Join(scopes, ','), required) <==>
      required == "" || exists s :: s in scopes && Trim(s) == required
  {
    SplitJoin(scopes, ',');
    var trimmed := TrimAll(scopes);
    if required in trimmed {
      var i :| 0 <= i < |trimmed| && trimmed[i] == required;
      assert scopes[i] in scopes && Trim(scopes[i]) == required;
    }
    if exists s :: s in scopes && Trim(s) == required {
      var s :| s in scopes && Trim(s) == required;
      var i :| 0 <= i < |scopes| && scopes[i] == s;
      assert trimmed[i] == required;
    }
  }

  lemma HeadersRead(
    request: Request, signer: Signer, signedAt: int, nonce: string, requestId: string, headers: Headers, p: Platform)
    requires signer.secret != ""
    requires Delivered(BuildHeaders(request, signer, signedAt, nonce, requestId, p).value, headers)
    ensures HeaderText(headers, WorkerId) == signer.workerId
    ensures HeaderText(headers, WorkerScopes) == Join(signer.scopes, ',')
    ensures HeaderText(headers, Timestamp) == p.toIso(signedAt) && HeaderText(headers, Nonce) == nonce
    ensures HeaderText(headers, RequestId) == requestId
    ensures HeaderText(headers, Signature) == p.hmac(signer.secret,
      CanonicalPayload(request, signer.workerId, Join(signer.scopes, ','), p.toIso(signedAt), nonce, requestId, p))
  {
    var built := BuildHeaders(request, signer, signedAt, nonce, requestId, p).value;
    assert forall k :: k in built ==> HeaderText(headers, k) == HeaderText(built, k);
  }

  /** What a receiver of built headers decides, for any body it was sent. */
  lemma VerifyBuilt(request: Request, signer: Signer, signedAt: int, nonce: string, requestId: string, headers: Headers,
                    body: Value, required: string, toleranceSeconds: int, now: int, p: Platform)
    requires p.Sound() && signer.secret != "" && nonce != "" && requestId != ""
    requires Delivered(BuildHeaders(request, signer, signedAt, nonce, requestId, p).value, headers)
    ensures
      var sent := CanonicalPayload(
        request, signer.workerId, Join(signer.scopes, ','), p.toIso(signedAt), nonce, requestId, p);
      var got := CanonicalPayload(
        request.(body := body), signer.workerId, Join(signer.scopes, ','), p.toIso(signedAt), nonce, requestId, p);
      Verify(request.(body := body), headers, signer.secret, required, toleranceSeconds, now, p) == Accepted <==>
        && signer.workerId != "" && Join(signer.scopes, ',') != ""
        && ScopeSigned(Join(signer.scopes, ','), required)
        && Abs(now - signedAt) <= ToleranceMs(toleranceSeconds)
        && p.fromHex(p.hmac(signer.secret, got)) == p.fromHex(p.hmac(signer.secret, sent))
  {
    HeadersRead(request, signer, signedAt, nonce, requestId, headers, p);
  }

  /** Signed headers verify against the body as received: parsed from its JSON text, its keys
      in any order. The rest of the condition is what the receiver checks besides. */
  lemma SignedHeadersSurviveTheWire(
    request: Request, signer: Signer, signedAt: int, nonce: string, requestId: string, headers: Headers,
    body: Value, required: string, toleranceSeconds: int, now: int, p: Platform)
    requires p.Sound() && signer.secret != "" && nonce != "" && requestId != ""
    requires Delivered(BuildHeaders(request, signer, signedAt, nonce, requestId, p).value, headers)
    requires WellFormed(request.body) && WellFormed(body)
    requires ParseText(Stringify(request.body)).Some?
    requires SameContent(ParseText(Stringify(request.body)).value, Wire(body))
    ensures Verify(request.(body := body), headers, signer.secret, required, toleranceSeconds, now, p) == Accepted <==>
        && signer.workerId != "" && Join(signer.scopes, ',') != ""
        && ScopeSigned(Join(signer.scopes, ','), required)
        && Abs(now - signedAt) <= ToleranceMs(toleranceSeconds)
  {
    SerializedAlikeAfterWire(request.body, body, p.less);
    VerifyBuilt(request, signer, signedAt, nonce, requestId, headers, body, required, toleranceSeconds, now, p);
  }

  lemma {:induction false} JoinedLast(parts: seq<string>, a: string, b: string, separator: char)
    requires Join(parts + [a], separator) == Join(parts + [b], separator)
    ensures a == b
  {
    if parts != [] {
      var front := parts[0] + [separator];
      assert (parts + [a])[1..] == parts[1..] + [a] && (parts + [b])[1..] == parts[1..] + [b];
      var x, y := Join(parts[1..] + [a], separator), Join(parts[1..] + [b], separator);
      assert front + x == front + y;
      assert x == (front + x)[|front|..] && y == (front + y)[|front|..];
      JoinedLast(parts[1..], a, b, separator);
    }
  }

  /** If digests do not collide, the receiver accepts no body that serializes differently. */
  lemma OnlyTheSignedBodyVerifies(
    request: Request, signer: Signer, signedAt: int, nonce: string, requestId: string, headers: Headers,
    body: Value, required: string, toleranceSeconds: int, now: int, p: Platform)
    requires p.Sound() && p.CollisionFree(signer.secret) && signer.secret != "" && nonce != "" && requestId != ""
    requires Delivered(BuildHeaders(request, signer, signedAt, nonce, requestId, p).value, headers)
    requires Verify(request.(body := body), headers, signer.secret, required, toleranceSeconds, now, p) == Accepted
    ensures StableSerialize(body, p.less) == StableSerialize(request.body, p.less)
  {
    VerifyBuilt(request, signer, signedAt, nonce, requestId, headers, body, required, toleranceSeconds, now, p);
    var parts := [p.upper(request.verb), request.path, signer.workerId, Join(signer.scopes, ','), p.toIso(signedAt),
                  nonce, requestId];
    var a, b := HashBody(body, p), HashBody(request.body, p);
    assert parts + [a] == [parts[0], parts[1], parts[2], parts[3], parts[4], parts[5], parts[6], a];
    assert parts + [b] == [parts[0], parts[1], parts[2], parts[3], parts[4], parts[5], parts[6], b];
    JoinedLast(parts, a, b, '\n');
  }

  /** If digests do not collide, the receiver of built headers accepts exactly the bodies with the content that
      was sent, an array of one null being taken as empty. */
  lemma AcceptedBodiesIff(
    request: Request, signer: Signer, signedAt: int, nonce: string, requestId: string, headers: Headers,
    body: Value, required: string, toleranceSeconds: int, now: int, p: Platform)
    requires p.Sound() && p.CollisionFree(signer.secret) && signer.secret != "" && nonce != "" && requestId != ""
    requires Delivered(BuildHeaders(request, signer, signedAt, nonce, requestId, p).value, headers)
    requires WellFormed(request.body) && WellFormed(body)
    ensures Verify(request.(body := body), headers, signer.secret, required, toleranceSeconds, now, p) == Accepted <==>
      && signer.workerId != "" && Join(signer.scopes, ',') != ""
      && ScopeSigned(Join(signer.scopes, ','), required)
      && Abs(now - signedAt) <= ToleranceMs(toleranceSeconds)
      && SameContent(Collapse(Wire(body)), Collapse(Wire(request.body)))
  {
    SerializedAlikeIff(body, request.body, p.less);
    VerifyBuilt(request, signer, signedAt, nonce, requestId, headers, body, required, toleranceSeconds, now, p);
    if Verify(request.(body := body), headers, signer.secret, required, toleranceSeconds, now, p) == Accepted {
      OnlyTheSignedBodyVerifies(
        request, signer, signedAt, nonce, requestId, headers, body, required, toleranceSeconds, now, p);
    }
  }
}
