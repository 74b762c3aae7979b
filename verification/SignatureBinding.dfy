/** What a signature of the internal signer binds: under one secret, only the request and the headers that were
    signed verify. */
module SignatureBinding {
  import opened Strings
  import opened CanonicalJson
  import opened InternalSigner

  /** Exactly the headers that a signer sets; the key's id only if there is one. */
  lemma BuiltExactly(request: Request, signer: Signer, now: int, nonce: string, requestId: string, p: Platform)
    ensures
      var r := BuildHeaders(request, signer, now, nonce, requestId, p);
      && (r.Err? <==> signer.secret == "")
      && (r.Ok? ==>
            && r.value.Keys == {ContentType, WorkerId, WorkerScopes, RequestId, Timestamp, Nonce, Signature}
                               + (if signer.keyId == "" then {} else {KeyId})
            && r.value[ContentType] == One("application/json")
            && (signer.keyId != "" ==> r.value[KeyId] == One(signer.keyId)))
  {
  }

  /** A header that came several times is read as one, with commas. */
  lemma SeveralAreJoined(headers: Headers, key: HeaderName, a: string, b: string)
    requires key in headers && headers[key] == Many([a, b])
    ensures HeaderText(headers, key) == a + "," + b
  {
    assert [a, b][1..] == [b];
    assert Join([a, b], ',') == a + [','] + Join([b], ',');
    assert "," == [','];
  }

  /** The headers that a receiver reads. */
  predicate AllThere(headers: Headers) {
    && HeaderText(headers, WorkerId) != "" && HeaderText(headers, WorkerScopes) != ""
    && HeaderText(headers, Timestamp) != "" && HeaderText(headers, Nonce) != ""
    && HeaderText(headers, RequestId) != "" && HeaderText(headers, Signature) != ""
  }

  /** Whatever headers arrive: they are accepted if and only if there is a secret, all six are there, the
      required scope is signed, the time is within the tolerance, 300 seconds if none is given, and the code is
      that of what is read. */
  lemma AcceptedIff(
    request: Request, headers: Headers, secret: string, required: string, toleranceSeconds: int, now: int, p: Platform)
    ensures Verify(request, headers, secret, required, toleranceSeconds, now, p) == Accepted <==>
      var signedAt := p.parseDate(HeaderText(headers, Timestamp));
      var tolerance := 1000 * if toleranceSeconds == 0 then 300 else toleranceSeconds;
      && secret != "" && AllThere(headers) && ScopeSigned(HeaderText(headers, WorkerScopes), required)
      && signedAt.Some? && -tolerance <= now - signedAt.value <= tolerance
      && p.fromHex(HeaderText(headers, Signature)) ==
           p.fromHex(p.hmac(secret, CanonicalPayload(
             request, HeaderText(headers, WorkerId), HeaderText(headers, WorkerScopes), HeaderText(headers, Timestamp),
             HeaderText(headers, Nonce), HeaderText(headers, RequestId), p)))
  {
  }

  /** Why headers are refused: the first of these that holds. */
  lemma RefusedFor(
    request: Request, headers: Headers, secret: string, required: string, toleranceSeconds: int, now: int, p: Platform)
    ensures
      var verdict := Verify(request, headers, secret, required, toleranceSeconds, now, p);
      verdict != Accepted ==> verdict == Rejected(
        if secret == "" then "WORKER_SIGNING_SECRET_REQUIRED"
        else if !AllThere(headers) then "INTERNAL_SIGNATURE_HEADERS_MISSING"
        else if !ScopeSigned(HeaderText(headers, WorkerScopes), required) then "INTERNAL_SIGNATURE_SCOPE_MISSING"
        else if p.parseDate(HeaderText(headers, Timestamp)).None? then "INTERNAL_SIGNATURE_TIMESTAMP_INVALID"
        else
          var seconds := if toleranceSeconds == 0 then 300 else toleranceSeconds;
          if -1000 * seconds <= now - p.parseDate(HeaderText(headers, Timestamp)).value <= 1000 * seconds
          then "INTERNAL_SIGNATURE_INVALID" else "INTERNAL_SIGNATURE_TIMESTAMP_STALE")
  {
  }

  /** What is signed, part by part. */
  function Parts(request: Request, workerId: string, scopes: string, timestamp: string, nonce: string,
                 requestId: string, p: Platform): seq<string>
  {
    [p.upper(request.verb), request.path, workerId, scopes, timestamp, nonce, requestId, HashBody(request.body, p)]
  }

  predicate OneLine(parts: seq<string>) {
    forall part <- parts :: '\n' !in part
  }

  /** If digests do not collide and no part has a line break, a receiver that accepts a code accepts it for
      the method, the path, the worker, the scopes, the time, the nonce, the request's id and the body that the
      code was made for. */
  lemma OnlySignedPartsVerify(
    request: Request, headers: Headers, secret: string, required: string, toleranceSeconds: int, now: int,
    signed: Request, workerId: string, scopes: string, timestamp: string, nonce: string, requestId: string,
    p: Platform)
    requires p.CollisionFree(secret)
    requires HeaderText(headers, Signature) ==
      p.hmac(secret, CanonicalPayload(signed, workerId, scopes, timestamp, nonce, requestId, p))
    requires OneLine(Parts(signed, workerId, scopes, timestamp, nonce, requestId, p))
    requires OneLine(Parts(
      request, HeaderText(headers, WorkerId), HeaderText(headers, WorkerScopes), HeaderText(headers, Timestamp),
      HeaderText(headers, Nonce), HeaderText(headers, RequestId), p))
    requires Verify(request, headers, secret, required, toleranceSeconds, now, p) == Accepted
    ensures p.upper(request.verb) == p.upper(signed.verb) && request.path == signed.path
    ensures HeaderText(headers, WorkerId) == workerId && HeaderText(headers, WorkerScopes) == scopes
    ensures HeaderText(headers, Timestamp) == timestamp && HeaderText(headers, Nonce) == nonce
    ensures HeaderText(headers, RequestId) == requestId
    ensures StableSerialize(request.body, p.less) == StableSerialize(signed.body, p.less)
  {
    var read := Parts(
      request, HeaderText(headers, WorkerId), HeaderText(headers, WorkerScopes), HeaderText(headers, Timestamp),
      HeaderText(headers, Nonce), HeaderText(headers, RequestId), p);
    var sent := Parts(signed, workerId, scopes, timestamp, nonce, requestId, p);
    AcceptedIff(request, headers, secret, required, toleranceSeconds, now, p);
    SamePayload(read, sent);
    assert read[0] == sent[0] && read[1] == sent[1] && read[2] == sent[2] && read[3] == sent[3];
    assert read[4] == sent[4] && read[5] == sent[5] && read[6] == sent[6] && read[7] == sent[7];
  }

  lemma SamePayload(read: seq<string>, sent: seq<string>)
    requires read != [] && sent != [] && OneLine(read) && OneLine(sent) && Join(read, '\n') == Join(sent, '\n')
    ensures read == sent
  {
    SplitJoin(read, '\n');
    SplitJoin(sent, '\n');
  }
}
