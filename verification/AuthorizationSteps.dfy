/** When each step up to the redeemed code is taken, and what it leaves, exactly and in terms of the rows. */
module AuthorizationSteps {
  import opened Wrappers
  import opened Lists
  import opened AuthorizationFlow
  import Slugs
  import Requests = OAuthAuthorizationStore
  import Consents = ConsentReceiptStore

  /** A pushed request is used if and only if the client's id finds a service, the request is its own, not used
      before and not expired. */
  lemma UriUsedIff(g: Gateway, uriHash: string, clientId: string, now: int)
    ensures
      var (g', event) := AuthorizeStep(g, UseUri(uriHash, clientId, now));
      var service := Slugs.Slug(clientId);
      if && service in g.services && uriHash in g.pushes && g.pushes[uriHash].serviceCode == service
         && !g.pushes[uriHash].consumed && now < g.pushes[uriHash].expiresAt
      then event == UriUsed(uriHash) && g' == g.(pushes := g.pushes[uriHash := g.pushes[uriHash].(consumed := true)])
      else event == Refused && g' == g
  {
  }

  /** The row of a new request: what was asked for, each scope once, for the service that the client's id finds. */
  ghost predicate Opens(row: Requests.Authorization, r: Requests.Authorization, code: string) {
    && row == r.(serviceCode := code, requestedScopes := row.requestedScopes, status := Requests.PendingIdentity,
                 subjectId := "")
    && NoRepeats(row.requestedScopes) && forall x :: x in row.requestedScopes <==> x in r.requestedScopes
  }

  /** A request is stored if and only if the client's id finds an active service with the environment and the
      redirect URI, and scopes are asked for that are all granted to it. */
  lemma CreatedIff(g: Gateway, clientId: string, r: Requests.Authorization, stateHash: string)
    ensures
      var (g', event) := CreateStep(g, clientId, r, stateHash);
      var code := Slugs.Slug(clientId);
      if && code in g.services && g.services[code].active && r.environment in g.services[code].environments
         && r.redirectUri in g.services[code].redirectUrls
         && r.requestedScopes != [] && forall x <- r.requestedScopes :: x in g.services[code].scopesGranted
      then
        && event == Quiet && r.requestId in g'.rows.requests && Opens(g'.rows.requests[r.requestId], r, code)
        && g'.rows.byState == g.rows.byState[stateHash := r.requestId]
        && g'.rows.requests == g.rows.requests[r.requestId := g'.rows.requests[r.requestId]]
      else event == Refused && g' == g
  {
    UniqueLaws(r.requestedScopes);
    if r.requestedScopes != [] { assert r.requestedScopes[0] in Unique(r.requestedScopes); }
  }

  /** The callback claims a request if and only if the state is its own, and it awaits its identity and has not
      expired; only the request and the callback change. */
  lemma ClaimedIff(g: Gateway, stateHash: string, placeholder: string, now: int)
    ensures
      var (g', event) := ClaimStep(g, stateHash, placeholder, now);
      if && stateHash in g.rows.byState && g.rows.byState[stateHash] in g.rows.requests
         && g.rows.requests[g.rows.byState[stateHash]].status == Requests.PendingIdentity
         && now < g.rows.requests[g.rows.byState[stateHash]].expiresAt
      then
        var id := g.rows.byState[stateHash];
        var row := g.rows.requests[id].(subjectId := placeholder, status := Requests.PendingConsent);
        event == Quiet && g' == g.(rows := g.rows.(requests := g.rows.requests[id := row]),
                                   callbacks := g.callbacks + {id})
      else event == Refused && g' == g
  {
  }

  /** A request is decided if and only if it awaits consent, has not expired, and the approval token is its
      own; an approval is then in hand with the request as it was. */
  lemma DecidedIff(g: Gateway, id: string, tokenHash: string, approve: bool, now: int)
    ensures
      var (g', event) := DecideStep(g, id, tokenHash, approve, now);
      if && id in g.rows.requests && g.rows.requests[id].status == Requests.PendingConsent
         && now < g.rows.requests[id].expiresAt && g.rows.requests[id].approvalTokenHash == tokenHash
      then
        var row := g.rows.requests[id].(status := if approve then Requests.Approved else Requests.Denied);
        && event == Decided(id, approve) && g'.rows == g.rows.(requests := g.rows.requests[id := row])
        && g'.approvals == if approve then g.approvals[id := Approved(row)] else g.approvals
      else event == Refused && g' == g
  {
  }

  /** The consent recorded for an approval under new evidence is the request's. */
  lemma RecordedConsent(g: Gateway, id: string, freshId: string, evidence: string, expiresAt: int, now: int)
    requires id in g.approvals && g.approvals[id].Approved?
    requires
      var code := Slugs.Normalize(g.approvals[id].record.serviceCode);
      Consents.IndexOfEvidence(g.receipts, code, evidence) == |g.receipts|
    ensures
      var g' := RecordConsentStep(g, id, freshId, evidence, expiresAt, now).0;
      var r := g.approvals[id].record;
      && |g'.receipts| == |g.receipts| + 1 && g'.receipts[..|g.receipts|] == g.receipts
      && var receipt := g'.receipts[|g.receipts|];
      && receipt.consentId == freshId && receipt.serviceCode == Slugs.Normalize(r.serviceCode)
      && receipt.environment == r.environment && receipt.subjectId == r.subjectId && receipt.externalSubjectId == None
      && (forall x :: x in receipt.scopes <==> x in r.requestedScopes) && receipt.evidenceHash == evidence
      && receipt.expiresAt == expiresAt && receipt.createdAt == now && receipt.revokedAt == None
      && receipt.status == Consents.Active
      && id in g'.approvals && g'.approvals[id] == Consented(r, freshId)
  {
    UniqueLaws(g.approvals[id].record.requestedScopes);
  }

  /** A code is issued for a consented approval if and only if it has a subject; it carries the request. */
  lemma IssuedIff(g: Gateway, id: string, codeHash: string, ttl: int, now: int)
    requires id in g.approvals && g.approvals[id].Consented?
    ensures
      var (g', event) := IssueCodeStep(g, id, codeHash, ttl, now);
      var r := g.approvals[id].record;
      && g'.approvals == g.approvals - {id}
      && if r.subjectId == "" then event == Refused && g'.rows == g.rows
         else
           && event == CodeIssued(id, codeHash) && codeHash in g'.rows.codes
           && g'.rows.codes[codeHash] ==
                Requests.Code(r.serviceCode, r.environment, r.redirectUri, r.requestedScopes, r.subjectId,
                              g.approvals[id].consentId, r.codeChallenge, now + 1000 * ttl, false)
  {
  }

  /** A code is redeemed if and only if the client's id finds an active service, the code is known, not
      consumed and not expired, and service, redirect URI and challenge are the code's; it is consumed, and
      nothing else changes. */
  lemma RedeemedIff(g: Gateway, codeHash: string, clientId: string, redirectUri: string, challenge: string, now: int)
    ensures
      var (g', event) := RedeemStep(g, codeHash, clientId, redirectUri, challenge, now);
      var service := Slugs.Slug(clientId);
      if && service in g.services && g.services[service].active
         && codeHash in g.rows.codes && !g.rows.codes[codeHash].consumed && now < g.rows.codes[codeHash].expiresAt
         && g.rows.codes[codeHash].serviceCode == service && g.rows.codes[codeHash].redirectUri == redirectUri
         && g.rows.codes[codeHash].codeChallenge == challenge
      then
        var code := g.rows.codes[codeHash].(consumed := true);
        && event == CodeRedeemed(codeHash, code)
        && g' == g.(rows := g.rows.(codes := g.rows.codes[codeHash := code]),
                    redeemed := g.redeemed[codeHash := code])
      else event == Refused && g' == g
  {
  }

  /** Why a code is refused: it is unknown, used or expired, another client's, or the verifier is wrong. */
  lemma RefusedCode(
    rows: Requests.Rows, codeHash: string, service: string, redirectUri: string, challenge: string, now: int)
    ensures
      var (rows', r) := rows.ConsumeCode(codeHash, service, redirectUri, challenge, now);
      var error :=
        if codeHash !in rows.codes || rows.codes[codeHash].consumed || rows.codes[codeHash].expiresAt <= now
        then Requests.CodeInvalid
        else if rows.codes[codeHash].serviceCode != service || rows.codes[codeHash].redirectUri != redirectUri
        then Requests.CodeClientMismatch else Requests.PkceVerifierInvalid;
      r.Failed? ==> rows' == rows && r.error == error
  {
  }

  /** A rotation is begun if and only if the client's id finds an active service, the token is its own, not
      expired, not consumed and not revoked, nor its family; a consumed one revokes the family. */
  lemma BegunIff(g: Gateway, op: TokenOp)
    requires op.Rotate?
    ensures
      var (g', event) := RotateStep(g, op);
      var service, tokens := Slugs.Slug(op.clientId), g.refresh.tokens;
      if && service in g.services && g.services[service].active && op.h in tokens
         && tokens[op.h].context.serviceCode == service && op.now < tokens[op.h].expiresAt && !tokens[op.h].revoked
         && tokens[op.h].context.familyId !in g.refresh.revokedFamilies
      then
        var family := tokens[op.h].context.familyId;
        if tokens[op.h].consumed
        then
          event == Refused && g' == g.(
            refresh := g.refresh.(revokedFamilies := g.refresh.revokedFamilies + {family}))
        else
          && event == Quiet && g'.rotations == g.rotations[op.next := tokens[op.h].context]
          && g'.refresh.revokedFamilies == g.refresh.revokedFamilies
      else event == Refused && g' == g
  {
  }
}
