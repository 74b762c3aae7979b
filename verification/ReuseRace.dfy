/** What the detection of a reused refresh token does to the access tokens of its family: it ends exactly those
    whose claims were recorded before it. A refresh that was under way mints one that it does not end. */
module ReuseRace {
  import opened Wrappers
  import opened Lists
  import opened Strings
  import opened AuthorizationFlow
  import opened AccessTokenRevocation
  import Slugs
  import Portal = DeveloperPortalStore
  import Consents = ConsentReceiptStore
  import Refreshing = RefreshTokenStore

  /** Nothing is known against the id. */
  ghost predicate Unrevoked(s: Revocations, jti: string) {
    jti !in s.revoked && forall j <- s.expiresAt :: Trim(j) != jti
  }

  ghost predicate HandedOver(claims: seq<Refreshing.Claims>, jti: string) {
    exists i :: 0 <= i < |claims| && claims[i].jti == jti
  }

  lemma {:induction false} StaysUnrevoked(s: Revocations, claims: seq<Refreshing.Claims>, jti: string)
    requires Unrevoked(s, jti) && forall i :: 0 <= i < |claims| ==> Trim(claims[i].jti) != jti
    ensures Unrevoked(RecordAll(s, claims), jti)
    decreases claims
  {
    if claims != [] { StaysUnrevoked(s.Record(claims[0].jti, claims[0].exp), claims[1..], jti); }
  }

  /** A token that nothing else is known against is refused after the reuse, over any number of restarts, if
      and only if its claims were handed over, or it has expired. */
  lemma {:induction false} RefusedIffHandedOver(
    s: Revocations, claims: seq<Refreshing.Claims>, jti: string, exp: int, now: int,
    ops: seq<AccessTokenRevocation.Op>, later: int)
    requires IsTrimmed(jti) && jti != "" && Unrevoked(s, jti)
    requires forall i :: 0 <= i < |claims| ==>
      IsTrimmed(claims[i].jti) && (claims[i].jti == jti ==> claims[i].exp == exp)
    requires Timed(ops, now, later)
    requires forall i :: 0 <= i < |ops| && ops[i].Recording? ==> Trim(ops[i].jti) != jti
    ensures AccessTokenRevocation.Run(RecordAll(s, claims), ops).Verifies(jti, exp, later) <==>
      exp > later / 1000 && !HandedOver(claims, jti)
  {
    TrimmedIsFixed(jti);
    if HandedOver(claims, jti) {
      var i :| 0 <= i < |claims| && claims[i].jti == jti;
      assert jti !in s.expiresAt;
      RecordAllInForce(s, claims, i, now);
      RunInForce(RecordAll(s, claims), ops, jti, exp, now, later);
    } else {
      forall i | 0 <= i < |claims| ensures Trim(claims[i].jti) != jti { TrimmedIsFixed(claims[i].jti); }
      StaysUnrevoked(s, claims, jti);
      OnlyRevokedAreRefused(RecordAll(s, claims), ops, jti);
    }
  }

  // ------------------------------------------------------------- the interleaving

  /** The refresh token can be rotated by the client at the time. */
  ghost predicate Rotatable(g: Gateway, h: string, clientId: string, now: int) {
    && Slugs.Slug(clientId) in g.services && g.services[Slugs.Slug(clientId)].active && h in g.refresh.tokens
    && var token := g.refresh.tokens[h];
    && token.context.serviceCode == Slugs.Slug(clientId) && token.expiresAt > now && !token.revoked && !token.consumed
    && token.context.familyId !in g.refresh.revokedFamilies
  }

  /** The family's consent, service and key are in order for a refresh, and for a use of what it mints. */
  ghost predicate InOrder(g: Gateway, context: Refreshing.Context, key: Portal.ApiKey, now: int) {
    && context.serviceCode in g.services && Slugs.Slug(context.serviceCode) == context.serviceCode
    && var service, consent := g.services[context.serviceCode], Consents.Get(g.receipts, context.consentId, now);
    && service.active && context.environment in service.environments && consent.Ok?
    && Stands(consent.value, context.serviceCode, context.environment, context.subjectId)
    && context.scopes != [] && Within(context.scopes, service.scopesGranted)
    && Within(context.scopes, consent.value.scopes)
    && key in service.keys && key.environment == context.environment && Portal.Usable(key, key.fingerprint, now)
  }

  /** A refresh begins, and the token it consumed is presented again: the reuse is detected, and the claims
      recorded so far are handed over. */
  lemma {:induction false} ReuseDuringRefresh(
    g: Gateway, h: string, clientId: string, next: string, nextToken: string, next': string, nextToken': string,
    now: int, later: int) returns (g1: Gateway, g2: Gateway)
    requires Rotatable(g, h, clientId, now) && g.refresh.tokens[h].expiresAt > later
    requires next !in g.refresh.tokens && next' !in g.refresh.tokens && next != next'
    ensures
      var context := g.refresh.tokens[h].context;
      && RotateStep(g, Rotate(h, clientId, next, nextToken, now)) == (g1, Quiet)
      && RotateStep(g1, Rotate(h, clientId, next', nextToken', later)) == (g2, Refused)
      && g1.refresh.Rotate(h, Slugs.Slug(clientId), next', nextToken', later).1 ==
           Refreshing.ReuseDetected(context, g.refresh.ClaimsOf(context.familyId))
      && context.familyId in g2.refresh.revokedFamilies
      && g2 == g.(refresh := g2.refresh, rotations := g.rotations[next := context])
  {
    g1 := RotateStep(g, Rotate(h, clientId, next, nextToken, now)).0;
    g2 := RotateStep(g1, Rotate(h, clientId, next', nextToken', later)).0;
  }

  /** The refresh that was under way still mints an access token, which is admitted. */
  lemma {:induction false} FinishedAfterReuse(
    g: Gateway, next: string, key: Portal.ApiKey, jti: string, exp: int, now: int, used: int)
    returns (g': Gateway, token: AccessToken)
    requires next in g.rotations && InOrder(g, g.rotations[next], key, now) && InOrder(g, g.rotations[next], key, used)
    requires exp > used / 1000
    ensures FinishRefreshStep(g, FinishRefresh(next, [], Some(key), jti, exp, now)) == (g', Minted(token, ByRefresh))
    ensures jti in g'.tokens && g'.tokens[jti] == token && token.exp == exp && token.family == Some(g.rotations[next])
    ensures Admission(g', token, true, "", used) == Admitted
  {
    var context := g.rotations[next];
    assert Unique<string>([]) == [];
    UniqueLaws(context.scopes);
    assert context.scopes[0] in Unique(context.scopes);
    g' := FinishRefreshStep(g, FinishRefresh(next, [], Some(key), jti, exp, now)).0;
    token := g'.tokens[jti];
    assert Opens(key, token, used);
  }

  /** The interleaving that fails: between the rotation and the mint of one refresh, the consumed token is
      presented again. The family is revoked and the claims handed over are recorded, but the token minted
      afterwards is admitted until it expires. */
  lemma {:induction false} MintAfterReuse(
    g: Gateway, h: string, clientId: string, next: string, nextToken: string, next': string, nextToken': string,
    key: Portal.ApiKey, jti: string, exp: int, now: int, later: int, used: int, s: Revocations)
    returns (g2: Gateway, g3: Gateway, token: AccessToken)
    requires Rotatable(g, h, clientId, now) && g.refresh.tokens[h].expiresAt > later
    requires next !in g.refresh.tokens && next' !in g.refresh.tokens && next != next'
    requires InOrder(g, g.refresh.tokens[h].context, key, later) && InOrder(g, g.refresh.tokens[h].context, key, used)
    requires IsTrimmed(jti) && jti != "" && Unrevoked(s, jti) && exp > used / 1000 && later <= used
    requires var claims := g.refresh.ClaimsOf(g.refresh.tokens[h].context.familyId);
      !HandedOver(claims, jti) && forall i :: 0 <= i < |claims| ==> IsTrimmed(claims[i].jti)
    ensures
      var family := g.refresh.tokens[h].context.familyId;
      var usable := RecordAll(s, g.refresh.ClaimsOf(family)).Verifies(jti, exp, used);
      && g2 == RotateStep(RotateStep(g, Rotate(h, clientId, next, nextToken, now)).0,
                          Rotate(h, clientId, next', nextToken', later)).0
      && FinishRefreshStep(g2, FinishRefresh(next, [], Some(key), jti, exp, later)) == (g3, Minted(token, ByRefresh))
      && family in g3.refresh.revokedFamilies && usable && Admission(g3, token, usable, "", used) == Admitted
  {
    var claims := g.refresh.ClaimsOf(g.refresh.tokens[h].context.familyId);
    var g1, second := ReuseDuringRefresh(g, h, clientId, next, nextToken, next', nextToken', now, later);
    g2 := second;
    g3, token := FinishedAfterReuse(g2, next, key, jti, exp, later, used);
    RefusedIffHandedOver(s, claims, jti, exp, later, [], used);
  }
}
