/** Scopes only narrow on the way from a grant to an access token, so the checks at use hold; and
    a revoked consent ends every use and every refresh of the tokens tied to it. */
module ScopeAttenuation {
  import opened Wrappers
  import opened Lists
  import opened AuthorizationFlow
  import opened AuthorizationProgress
  import opened AuthorizationOrigin
  import ConsentLaws
  import Slugs
  import Portal = DeveloperPortalStore
  import Requests = OAuthAuthorizationStore
  import Consents = ConsentReceiptStore
  import Refreshing = RefreshTokenStore

  /** A redeemed code is held as it is stored. */
  ghost predicate RedeemedSound(redeemed: CodeTable, codes: CodeTable) {
    forall h <- redeemed :: redeemed[h].consumed && h in codes && codes[h] == redeemed[h]
  }

  /** A family's context stays within the code it was issued for. */
  ghost predicate ContextSound(context: Refreshing.Context, familyCode: map<string, string>, codes: CodeTable) {
    && context.familyId in familyCode && familyCode[context.familyId] in codes
    && var code := codes[familyCode[context.familyId]];
    && context.serviceCode == code.serviceCode && context.environment == code.environment
    && context.subjectId == code.subjectId && context.consentId == code.consentId
    && context.scopes != [] && Within(context.scopes, code.scopes)
  }

  ghost predicate FamiliesSound(
    tokens: map<string, Refreshing.MemoryToken>, familyCode: map<string, string>, codes: CodeTable)
  {
    forall h <- tokens :: ContextSound(tokens[h].context, familyCode, codes)
  }

  ghost predicate RotationsSound(
    rotations: map<string, Refreshing.Context>, familyCode: map<string, string>, codes: CodeTable)
  {
    forall h <- rotations :: ContextSound(rotations[h], familyCode, codes)
  }

  ghost predicate ConsentCovers(receipts: seq<Consents.Receipt>, consentId: string, scopes: seq<string>) {
    var n := Consents.IndexOf(receipts, consentId);
    n < |receipts| && Within(scopes, receipts[n].scopes)
  }

  /** An access token stays within its family. */
  ghost predicate Descends(token: AccessToken, context: Refreshing.Context) {
    && Within(token.scopes, context.scopes) && token.serviceCode == context.serviceCode
    && token.environment == context.environment
    && token.subjectId == context.subjectId && token.consentId == context.consentId
  }

  /** The token's key is one of its service's. */
  predicate KeyListed(token: AccessToken, services: map<string, Service>) {
    token.serviceCode in services
      && (token.key.None? || token.key.value.fingerprint in Fingerprints(services[token.serviceCode]))
  }

  ghost predicate TokenSound(
      token: AccessToken, familyCode: map<string, string>, codes: CodeTable, receipts: seq<Consents.Receipt>,
      services: map<string, Service>)
  {
    && token.scopes != [] && Granted(services, token.serviceCode, token.scopes) && KeyListed(token, services)
    && ConsentCovers(receipts, token.consentId, token.scopes)
    && (token.family.Some? ==>
      ContextSound(token.family.value, familyCode, codes) && Descends(token, token.family.value))
  }

  ghost predicate TokensSound(
      tokens: map<string, AccessToken>, familyCode: map<string, string>, codes: CodeTable,
      receipts: seq<Consents.Receipt>, services: map<string, Service>)
  {
    forall jti <- tokens :: TokenSound(tokens[jti], familyCode, codes, receipts, services)
  }

  ghost predicate Attenuated(g: Gateway) {
    && RedeemedSound(g.redeemed, g.rows.codes)
    && FamiliesSound(g.refresh.tokens, g.history.familyCode, g.rows.codes)
    && RotationsSound(g.rotations, g.history.familyCode, g.rows.codes)
    && TokensSound(g.tokens, g.history.familyCode, g.rows.codes, g.receipts, g.services)
  }

  // ----------------------------------------------------------------- as time passes

  lemma ContextLater(
    context: Refreshing.Context, familyCode: map<string, string>, familyCode': map<string, string>, codes: CodeTable,
    codes': CodeTable)
    requires ContextSound(context, familyCode, codes) && Extends(familyCode, familyCode') && CodesLater(codes, codes')
    ensures ContextSound(context, familyCode', codes')
  {
    var h := familyCode[context.familyId];
    assert familyCode'[context.familyId] == h && CodeLater(codes[h], codes'[h]);
  }

  lemma GrantLater(
    services: map<string, Service>, services': map<string, Service>, service: string, scopes: seq<string>)
    requires Granted(services, service, scopes) && service in services'
    requires Within(services[service].scopesGranted, services'[service].scopesGranted)
    ensures Granted(services', service, scopes)
  {
  }

  lemma CoversLater(
    receipts: seq<Consents.Receipt>, later: seq<Consents.Receipt>, consentId: string, scopes: seq<string>)
    requires ConsentLaws.Grown(receipts, later) && ConsentCovers(receipts, consentId, scopes)
    ensures ConsentCovers(later, consentId, scopes)
  {
    IndexOfGrown(receipts, later, consentId);
    var n := Consents.IndexOf(receipts, consentId);
    assert ConsentLaws.Becomes(receipts[n], later[n]);
  }

  ghost predicate ServicesLater(services: map<string, Service>, services': map<string, Service>) {
    forall s <- services :: s in services' && ServiceLater(services[s], services'[s])
  }

  lemma TokenLater(
      token: AccessToken, familyCode: map<string, string>, familyCode': map<string, string>,
      codes: CodeTable, codes': CodeTable, receipts: seq<Consents.Receipt>, receipts': seq<Consents.Receipt>,
      services: map<string, Service>, services': map<string, Service>)
    requires TokenSound(token, familyCode, codes, receipts, services)
    requires Extends(familyCode, familyCode') && CodesLater(codes, codes') && ConsentLaws.Grown(receipts, receipts')
    requires ServicesLater(services, services')
    ensures TokenSound(token, familyCode', codes', receipts', services')
  {
    GrantLater(services, services', token.serviceCode, token.scopes);
    CoversLater(receipts, receipts', token.consentId, token.scopes);
    if token.family.Some? { ContextLater(token.family.value, familyCode, familyCode', codes, codes'); }
  }

  /** What one step may do to everything an attenuation depends on. */
  ghost predicate Later(g: Gateway, g': Gateway) {
    && Extends(g.history.familyCode, g'.history.familyCode) && CodesLater(g.rows.codes, g'.rows.codes)
    && ConsentLaws.Grown(g.receipts, g'.receipts) && ServicesLater(g.services, g'.services)
  }

  lemma SameServices(services: map<string, Service>)
    ensures ServicesLater(services, services)
  {
  }

  lemma ServicesProgress(g: Gateway, op: Op, s256: string -> string, life: Refreshing.Lifetimes)
    requires Possible(g, op)
    ensures ServicesLater(g.services, Step(g, op, s256, life).0.services)
  {
    SameServices(g.services);
    match op
    case Authorizing(a) => AuthorizeFrame(g, a);
    case Deciding(d) => DecisionFrame(g, d);
    case Tokens(t) => TokenFrame(g, t, s256, life);
    case Other(o) => OtherServices(g, o, life);
  }

  lemma OtherServices(g: Gateway, op: OtherOp, life: Refreshing.Lifetimes)
    requires PossibleOther(g, op)
    ensures ServicesLater(g.services, OtherStep(g, op, life).0.services)
  {
    SameServices(g.services);
  }

  lemma FamilyCodeGrows(g: Gateway, op: Op, s256: string -> string, life: Refreshing.Lifetimes)
    requires Possible(g, op)
    ensures Extends(g.history.familyCode, Step(g, op, s256, life).0.history.familyCode)
  {
    match op
    case Authorizing(a) => AuthorizeFrame(g, a);
    case Deciding(d) => DecisionFrame(g, d);
    case Tokens(t) => TokenFamilyCodeGrows(g, t, s256, life);
    case Other(o) => OtherFrame(g, o, life);
  }

  lemma TokenFamilyCodeGrows(g: Gateway, op: TokenOp, s256: string -> string, life: Refreshing.Lifetimes)
    requires PossibleToken(g, op)
    ensures Extends(g.history.familyCode, TokenStep(g, op, s256, life).0.history.familyCode)
  {
    match op
    case Redeem(codeHash, clientId, redirectUri, verifier, now) =>
      RedeemFrame(g, codeHash, clientId, redirectUri, s256(verifier), now);
    case Grant(_, _, _, _, _, _, _, _, _) =>
    case Rotate(_, _, _, _, _) => RotateFrame(g, op);
    case FinishRefresh(_, _, _, _, _, _) => FinishRefreshFrame(g, op);
    case Exchange(_, _, _, _, _, _, _, _, _) => ExchangeFrame(g, op);
  }

  lemma StepLater(g: Gateway, op: Op, s256: string -> string, life: Refreshing.Lifetimes)
    requires Possible(g, op)
    ensures Later(g, Step(g, op, s256, life).0)
  {
    FamilyCodeGrows(g, op, s256, life);
    CodesProgress(g, op, s256, life);
    ReceiptsProgress(g, op, s256, life);
    ServicesProgress(g, op, s256, life);
  }

  /** What was sound before the step is sound against the stores after it. */
  lemma AttenuatedLater(g: Gateway, g': Gateway)
    requires Attenuated(g) && Later(g, g')
    ensures RedeemedSound(g.redeemed, g'.rows.codes)
    ensures FamiliesSound(g.refresh.tokens, g'.history.familyCode, g'.rows.codes)
    ensures RotationsSound(g.rotations, g'.history.familyCode, g'.rows.codes)
    ensures TokensSound(g.tokens, g'.history.familyCode, g'.rows.codes, g'.receipts, g'.services)
  {
    forall h | h in g.redeemed
      ensures g.redeemed[h].consumed && h in g'.rows.codes && g'.rows.codes[h] == g.redeemed[h]
    {
      assert CodeLater(g.rows.codes[h], g'.rows.codes[h]);
    }
    forall h | h in g.refresh.tokens
      ensures ContextSound(g.refresh.tokens[h].context, g'.history.familyCode, g'.rows.codes)
    {
      ContextLater(
        g.refresh.tokens[h].context, g.history.familyCode, g'.history.familyCode, g.rows.codes, g'.rows.codes);
    }
    forall h | h in g.rotations ensures ContextSound(g.rotations[h], g'.history.familyCode, g'.rows.codes) {
      ContextLater(g.rotations[h], g.history.familyCode, g'.history.familyCode, g.rows.codes, g'.rows.codes);
    }
    forall jti | jti in g.tokens
      ensures TokenSound(g.tokens[jti], g'.history.familyCode, g'.rows.codes, g'.receipts, g'.services)
    {
      TokenLater(
        g.tokens[jti], g.history.familyCode, g'.history.familyCode, g.rows.codes, g'.rows.codes, g.receipts,
        g'.receipts, g.services, g'.services);
    }
  }

  // ------------------------------------------------------------ the token endpoint

  lemma RedeemKeepsAttenuated(
    g: Gateway, codeHash: string, clientId: string, redirectUri: string, challenge: string, now: int)
    requires Attenuated(g)
    ensures Attenuated(RedeemStep(g, codeHash, clientId, redirectUri, challenge, now).0)
  {
    var g' := RedeemStep(g, codeHash, clientId, redirectUri, challenge, now).0;
    RedeemFrame(g, codeHash, clientId, redirectUri, challenge, now);
    SameServices(g.services);
    ConsentLaws.RunGrows(g.receipts, []);
    var r := g.rows.ConsumeCode(codeHash, Slugs.Slug(clientId), redirectUri, challenge, now).1;
    if g' != g {
      ChangedCode(g.rows.codes, codeHash, r.value);
      assert g'.rows.codes == g.rows.codes[codeHash := r.value];
      AttenuatedLater(g, g');
    }
  }

  lemma NarrowedWithin(requested: seq<string>, held: seq<string>)
    requires held != [] && Within(Narrowed(requested, held), held)
    ensures Narrowed(requested, held) != [] && Within(Narrowed(requested, held), held)
    ensures Unique(Narrowed(requested, held)) != []
    ensures Within(Unique(Narrowed(requested, held)), Narrowed(requested, held))
  {
    var scopes := Narrowed(requested, held);
    UniqueLaws(scopes);
    assert scopes[0] in Unique(scopes);
  }

  /** The code's scopes are granted to its service and covered by its consent. */
  lemma CodeIsBacked(c: Requests.Code, id: string, g: Gateway)
    requires CodeFor(c, id, g.rows.requests, g.history.shown, g.receipts)
    requires RequestsGranted(g.rows.requests, g.services)
    ensures c.scopes != [] && Granted(g.services, c.serviceCode, c.scopes)
    ensures ConsentCovers(g.receipts, c.consentId, c.scopes)
  {
  }

  lemma SubsetIsBacked(scopes: seq<string>, held: seq<string>, service: string, consentId: string, g: Gateway)
    requires Within(scopes, held) && Granted(g.services, service, held) && ConsentCovers(g.receipts, consentId, held)
    ensures Granted(g.services, service, scopes) && ConsentCovers(g.receipts, consentId, scopes)
  {
  }

  /** A token minted for a redeemed code, and the family opened with it. */
  lemma GrantedTokenSound(
    g: Gateway, g': Gateway, codeHash: string, context: Refreshing.Context, token: AccessToken, requested: seq<string>)
    requires Attenuated(g) && Origins(g) && Later(g, g') && codeHash in g.redeemed
    requires var code := g.redeemed[codeHash];
      && Within(Narrowed(requested, code.scopes), code.scopes)
      && context == Refreshing.Context(context.familyId, code.serviceCode, code.environment, code.subjectId,
                                       code.consentId, Narrowed(requested, code.scopes), context.identityIssuer)
      && token == AccessToken(code.serviceCode, code.environment, code.subjectId, Unique(context.scopes),
                              code.consentId, token.exp, token.key, Some(context))
    requires KeyListed(token, g.services) && g'.history.familyCode == g.history.familyCode[context.familyId := codeHash]
    requires g'.rows.codes == g.rows.codes && g'.receipts == g.receipts && g'.services == g.services
    ensures ContextSound(context, g'.history.familyCode, g'.rows.codes)
    ensures TokenSound(token, g'.history.familyCode, g'.rows.codes, g'.receipts, g'.services)
  {
    var code := g.redeemed[codeHash];
    assert g.rows.codes[codeHash] == code;
    CodeIsBacked(code, g.history.issuedFor[codeHash], g);
    NarrowedWithin(requested, code.scopes);
    SubsetIsBacked(token.scopes, code.scopes, code.serviceCode, code.consentId, g);
  }

  lemma PutToken(g: Gateway, g': Gateway, jti: string, token: AccessToken)
    requires TokensSound(g.tokens, g'.history.familyCode, g'.rows.codes, g'.receipts, g'.services)
    requires TokenSound(token, g'.history.familyCode, g'.rows.codes, g'.receipts, g'.services)
    ensures TokensSound(g.tokens[jti := token], g'.history.familyCode, g'.rows.codes, g'.receipts, g'.services)
  {
  }

  lemma IssuedFamilies(
      m: Refreshing.Memory, context: Refreshing.Context, h: string, now: int, life: Refreshing.Lifetimes,
      familyCode: map<string, string>, codes: CodeTable)
    requires FamiliesSound(m.tokens, familyCode, codes) && ContextSound(context, familyCode, codes)
    ensures FamiliesSound(m.Issue(context, h, now, life).tokens, familyCode, codes)
  {
  }

  /** What a grant mints and opens. */
  lemma GrantShape(g: Gateway, op: TokenOp, life: Refreshing.Lifetimes)
    requires op.Grant? && GrantStep(g, op, life).1.Minted?
    ensures
      var (g', event) := GrantStep(g, op, life);
      && op.codeHash in g.redeemed && op.key.Some? && event.token.key == Some(RefOf(op.key.value))
      && var code := g.redeemed[op.codeHash];
      && Within(Narrowed(op.requested, code.scopes), code.scopes)
      && var context := Refreshing.Context(
           op.family, code.serviceCode, code.environment, code.subjectId, code.consentId,
           Narrowed(op.requested, code.scopes), op.issuer);
      && event.token == AccessToken(
           code.serviceCode, code.environment, code.subjectId, Unique(context.scopes), code.consentId, op.exp,
           event.token.key, Some(context))
      && g' == g.(redeemed := g.redeemed - {op.codeHash}, tokens := g.tokens[op.jti := event.token],
                  refresh := g.refresh.Issue(context, op.refreshHash, op.now, life),
                  history := g.history.(familyCode := g.history.familyCode[op.family := op.codeHash]))
  {
  }

  lemma GrantLaterShape(g: Gateway, g': Gateway, family: string, codeHash: string)
    requires family !in g.history.familyCode && g'.history.familyCode == g.history.familyCode[family := codeHash]
    requires g'.rows.codes == g.rows.codes && g'.receipts == g.receipts && g'.services == g.services
    ensures Later(g, g')
  {
    SameServices(g.services);
    SameCodes(g.rows.codes);
    ConsentLaws.RunGrows(g.receipts, []);
  }

  lemma DropRedeemed(redeemed: CodeTable, h: string, codes: CodeTable)
    requires RedeemedSound(redeemed, codes)
    ensures RedeemedSound(redeemed - {h}, codes)
  {
  }

  lemma MintKeepsAttenuated(
    g: Gateway, g': Gateway, op: TokenOp, context: Refreshing.Context, token: AccessToken, life: Refreshing.Lifetimes)
    requires Attenuated(g) && Origins(g) && op.Grant? && PossibleToken(g, op) && op.codeHash in g.redeemed
    requires var code := g.redeemed[op.codeHash];
      && Within(Narrowed(op.requested, code.scopes), code.scopes)
      && context == Refreshing.Context(
           op.family, code.serviceCode, code.environment, code.subjectId, code.consentId,
           Narrowed(op.requested, code.scopes), op.issuer)
      && token == AccessToken(
           code.serviceCode, code.environment, code.subjectId, Unique(context.scopes), code.consentId, op.exp,
           token.key, Some(context))
    requires KeyListed(token, g.services)
    requires g' == g.(redeemed := g.redeemed - {op.codeHash}, tokens := g.tokens[op.jti := token],
                      refresh := g.refresh.Issue(context, op.refreshHash, op.now, life),
                      history := g.history.(familyCode := g.history.familyCode[op.family := op.codeHash]))
    ensures Attenuated(g')
  {
    GrantLaterShape(g, g', op.family, op.codeHash);
    AttenuatedLater(g, g');
    DropRedeemed(g.redeemed, op.codeHash, g.rows.codes);
    GrantedTokenSound(g, g', op.codeHash, context, token, op.requested);
    IssuedFamilies(g.refresh, context, op.refreshHash, op.now, life, g'.history.familyCode, g.rows.codes);
    PutToken(g, g', op.jti, token);
  }

  lemma GrantKeepsAttenuated(g: Gateway, op: TokenOp, life: Refreshing.Lifetimes)
    requires Attenuated(g) && Origins(g) && op.Grant? && PossibleToken(g, op)
    ensures Attenuated(GrantStep(g, op, life).0)
  {
    var (g', event) := GrantStep(g, op, life);
    DropRedeemed(g.redeemed, op.codeHash, g.rows.codes);
    if event.Minted? {
      GrantShape(g, op, life);
      MintKeepsAttenuated(g, g', op, event.token.family.value, event.token, life);
    }
  }

  /** A rotation moves a context to the new token; it makes no new one. */
  lemma RotatedFamilies(
      m: Refreshing.Memory, h: string, service: string, next: string, nextToken: string, now: int,
      familyCode: map<string, string>, codes: CodeTable)
    requires FamiliesSound(m.tokens, familyCode, codes)
    ensures var (m', r) := m.Rotate(h, service, next, nextToken, now);
      FamiliesSound(m'.tokens, familyCode, codes) && (r.Rotated? ==> ContextSound(r.context, familyCode, codes))
  {
  }

  lemma RotateKeepsAttenuated(g: Gateway, op: TokenOp)
    requires Attenuated(g) && op.Rotate? && PossibleToken(g, op)
    ensures Attenuated(RotateStep(g, op).0)
  {
    RotatedFamilies(
      g.refresh, op.h, Slugs.Slug(op.clientId), op.next, op.nextToken, op.now, g.history.familyCode, g.rows.codes);
  }

  /** A token minted for a rotated refresh token. */
  lemma RefreshedTokenSound(
    g: Gateway, context: Refreshing.Context, token: AccessToken, requested: seq<string>, now: int)
    requires Attenuated(g) && Origins(g) && ContextSound(context, g.history.familyCode, g.rows.codes)
    requires Consents.Get(g.receipts, context.consentId, now).Ok? && KeyListed(token, g.services)
    requires Within(Narrowed(requested, context.scopes), context.scopes)
    requires Within(Narrowed(requested, context.scopes), Consents.Get(g.receipts, context.consentId, now).value.scopes)
    requires token == AccessToken(
      context.serviceCode, context.environment, context.subjectId, Unique(Narrowed(requested, context.scopes)),
      context.consentId, token.exp, token.key, Some(context))
    ensures TokenSound(token, g.history.familyCode, g.rows.codes, g.receipts, g.services)
  {
    var h := g.history.familyCode[context.familyId];
    var code := g.rows.codes[h];
    CodeIsBacked(code, g.history.issuedFor[h], g);
    NarrowedWithin(requested, context.scopes);
    assert Within(token.scopes, code.scopes);
    SubsetIsBacked(token.scopes, code.scopes, code.serviceCode, code.consentId, g);
  }

  lemma FinishRefreshKeepsAttenuated(g: Gateway, op: TokenOp)
    requires Attenuated(g) && Origins(g) && op.FinishRefresh? && PossibleToken(g, op)
    ensures Attenuated(FinishRefreshStep(g, op).0)
  {
    var (g', event) := FinishRefreshStep(g, op);
    if event.Minted? {
      RefreshedTokenSound(g, g.rotations[op.next], event.token, op.requested, op.now);
      PutToken(g, g, op.jti, event.token);
    }
  }

  lemma ExchangedTokenSound(g: Gateway, op: TokenOp)
    requires op.Exchange? && PossibleToken(g, op) && ExchangeStep(g, op).1.Minted?
    ensures TokenSound(ExchangeStep(g, op).1.token, g.history.familyCode, g.rows.codes, g.receipts, g.services)
  {
  }

  lemma TokenKeepsAttenuated(g: Gateway, op: TokenOp, s256: string -> string, life: Refreshing.Lifetimes)
    requires Attenuated(g) && Origins(g) && PossibleToken(g, op)
    ensures Attenuated(TokenStep(g, op, s256, life).0)
  {
    match op
    case Redeem(codeHash, clientId, redirectUri, verifier, now) =>
      RedeemKeepsAttenuated(g, codeHash, clientId, redirectUri, s256(verifier), now);
    case Grant(_, _, _, _, _, _, _, _, _) => GrantKeepsAttenuated(g, op, life);
    case Rotate(_, _, _, _, _) => RotateKeepsAttenuated(g, op);
    case FinishRefresh(_, _, _, _, _, _) => FinishRefreshKeepsAttenuated(g, op);
    case Exchange(_, _, _, _, _, _, _, _, _) => ExchangeKeepsAttenuated(g, op);
  }

  lemma ExchangeKeepsAttenuated(g: Gateway, op: TokenOp)
    requires Attenuated(g) && op.Exchange? && PossibleToken(g, op)
    ensures Attenuated(ExchangeStep(g, op).0)
  {
    if ExchangeStep(g, op).1.Minted? {
      ExchangedTokenSound(g, op);
      PutToken(g, g, op.jti, ExchangeStep(g, op).1.token);
    }
  }

  // ------------------------------------------------------------------ every run

  lemma FrontKeepsAttenuated(g: Gateway, op: Op, s256: string -> string, life: Refreshing.Lifetimes)
    requires Attenuated(g) && Possible(g, op) && (op.Authorizing? || op.Deciding?)
    ensures Attenuated(Step(g, op, s256, life).0)
  {
    var g' := Step(g, op, s256, life).0;
    StepLater(g, op, s256, life);
    AttenuatedLater(g, g');
    if op.Authorizing? { AuthorizeFrame(g, op.a); } else { DecisionFrame(g, op.d); }
  }

  lemma OtherKeepsTokens(g: Gateway, op: OtherOp, life: Refreshing.Lifetimes)
    requires PossibleOther(g, op)
    ensures OtherStep(g, op, life).0.refresh.tokens == g.refresh.tokens
  {
  }

  lemma StepKeepsAttenuated(g: Gateway, op: Op, s256: string -> string, life: Refreshing.Lifetimes)
    requires Attenuated(g) && Origins(g) && Possible(g, op)
    ensures Attenuated(Step(g, op, s256, life).0)
  {
    match op
    case Authorizing(_) => FrontKeepsAttenuated(g, op, s256, life);
    case Deciding(_) => FrontKeepsAttenuated(g, op, s256, life);
    case Tokens(t) => TokenKeepsAttenuated(g, t, s256, life);
    case Other(o) => OtherKeepsAttenuated(g, o, s256, life);
  }

  lemma OtherKeepsAttenuated(g: Gateway, o: OtherOp, s256: string -> string, life: Refreshing.Lifetimes)
    requires Attenuated(g) && PossibleOther(g, o)
    ensures Attenuated(OtherStep(g, o, life).0)
  {
    StepLater(g, Other(o), s256, life);
    AttenuatedLater(g, OtherStep(g, o, life).0);
    OtherFrame(g, o, life);
    OtherKeepsTokens(g, o, life);
  }

  lemma {:induction false} RunKeepsAttenuated(
    g: Gateway, ops: seq<Op>, s256: string -> string, life: Refreshing.Lifetimes)
    requires Attenuated(g) && Origins(g) && PossibleRun(g, ops, s256, life)
    ensures Attenuated(Run(g, ops, s256, life).0) && Origins(Run(g, ops, s256, life).0)
    decreases ops
  {
    if ops != [] {
      StepKeepsAttenuated(g, ops[0], s256, life);
      StepKeepsOrigins(g, ops[0], s256, life);
      RunKeepsAttenuated(Step(g, ops[0], s256, life).0, ops[1..], s256, life);
    }
  }

  lemma InitialAttenuated(services: map<string, Service>)
    ensures Attenuated(Initial(services))
  {
  }

  /** In every reachable state an access token's scopes lie within its family's, those within the code's,
      and the code's are its request's, its consent's, and granted to the service. */
  lemma ScopesOnlyNarrow(
      services: map<string, Service>, ops: seq<Op>, s256: string -> string, life: Refreshing.Lifetimes, jti: string,
      context: Refreshing.Context)
    requires PossibleRun(Initial(services), ops, s256, life)
    requires var g := Run(Initial(services), ops, s256, life).0;
      jti in g.tokens && g.tokens[jti].family == Some(context)
    ensures
      var g := Run(Initial(services), ops, s256, life).0;
      && Within(g.tokens[jti].scopes, context.scopes)
      && context.familyId in g.history.familyCode && g.history.familyCode[context.familyId] in g.rows.codes
      && var h := g.history.familyCode[context.familyId];
      && Within(context.scopes, g.rows.codes[h].scopes) && h in g.history.issuedFor
      && Backed(g.rows.codes[h], g.history.issuedFor[h], g)
  {
    InitialOrigins(services);
    InitialAttenuated(services);
    RunKeepsAttenuated(Initial(services), ops, s256, life);
    var g := Run(Initial(services), ops, s256, life).0;
    assert TokenSound(g.tokens[jti], g.history.familyCode, g.rows.codes, g.receipts, g.services);
    CodeBacked(g, g.history.familyCode[context.familyId]);
  }

  /** The code's scopes are those of its request and of its consent, all granted to the service. */
  ghost predicate Backed(code: Requests.Code, id: string, g: Gateway) {
    && id in g.rows.requests && code.scopes == g.rows.requests[id].requestedScopes
    && Granted(g.services, code.serviceCode, code.scopes)
    && var n := Consents.IndexOf(g.receipts, code.consentId);
    && n < |g.receipts| && g.receipts[n].scopes == code.scopes
  }

  lemma CodeBacked(g: Gateway, h: string)
    requires Origins(g) && h in g.rows.codes
    ensures h in g.history.issuedFor && Backed(g.rows.codes[h], g.history.issuedFor[h], g)
  {
    assert CodeFor(g.rows.codes[h], g.history.issuedFor[h], g.rows.requests, g.history.shown, g.receipts);
  }

  /** No two services have a key with the same fingerprint. */
  ghost predicate KeysApart(services: map<string, Service>) {
    forall c, d :: c in services && d in services && c != d ==> Fingerprints(services[c]) !! Fingerprints(services[d])
  }

  lemma PutKeysApart(services: map<string, Service>, code: string, record: Service)
    requires KeysApart(services)
    requires forall other <- services :: other != code ==> Fingerprints(services[other]) !! Fingerprints(record)
    ensures KeysApart(services[code := record])
  {
  }

  lemma StepKeepsKeysApart(g: Gateway, op: Op, s256: string -> string, life: Refreshing.Lifetimes)
    requires Possible(g, op) && KeysApart(g.services)
    ensures KeysApart(Step(g, op, s256, life).0.services)
  {
    match op
    case Authorizing(a) => AuthorizeFrame(g, a);
    case Deciding(d) => DecisionFrame(g, d);
    case Tokens(t) => TokenFrame(g, t, s256, life);
    case Other(o) => OtherKeepsKeysApart(g, o, life);
  }

  lemma OtherKeepsKeysApart(g: Gateway, o: OtherOp, life: Refreshing.Lifetimes)
    requires PossibleOther(g, o) && KeysApart(g.services)
    ensures KeysApart(OtherStep(g, o, life).0.services)
  {
    if o.ChangeService? { PutKeysApart(g.services, o.service, o.record); }
  }

  lemma {:induction false} RunKeepsKeysApart(
    g: Gateway, ops: seq<Op>, s256: string -> string, life: Refreshing.Lifetimes)
    requires PossibleRun(g, ops, s256, life) && KeysApart(g.services)
    ensures KeysApart(Run(g, ops, s256, life).0.services)
    decreases ops
  {
    if ops != [] {
      StepKeepsKeysApart(g, ops[0], s256, life);
      RunKeepsKeysApart(Step(g, ops[0], s256, life).0, ops[1..], s256, life);
    }
  }

  /** A token that passes the key check was found under its own service's code. */
  lemma KeyTellsService(g: Gateway, token: AccessToken, key: Portal.ApiKey, now: int)
    requires KeysApart(g.services) && KeyListed(token, g.services) && Slugs.Slug(token.serviceCode) in g.services
    requires key in g.services[Slugs.Slug(token.serviceCode)].keys && Opens(key, token, now)
    ensures Slugs.Slug(token.serviceCode) == token.serviceCode
  {
    var code := Slugs.Slug(token.serviceCode);
    assert key.fingerprint in Fingerprints(g.services[code])
        && key.fingerprint in Fingerprints(g.services[token.serviceCode]);
  }

  lemma SoundTokenPasses(g: Gateway, token: AccessToken, usable: bool, requestSubject: string, now: int)
    requires TokenSound(token, g.history.familyCode, g.rows.codes, g.receipts, g.services) && KeysApart(g.services)
    ensures Admission(g, token, usable, requestSubject, now) !in
      {ScopeNotGranted, ReceiptNotFound, ConsentScopeMismatch}
  {
    var code := Slugs.Slug(token.serviceCode);
    if code in g.services && exists key :: key in g.services[code].keys && Opens(key, token, now) {
      var key :| key in g.services[code].keys && Opens(key, token, now);
      KeyTellsService(g, token, key, now);
    }
  }

  /** The scope checks made at each use never fail for a token this flow minted, however it was minted:
      its scopes are still granted, and its consent is still on record and covers them. */
  lemma UseTimeScopesHold(
      services: map<string, Service>, ops: seq<Op>, s256: string -> string, life: Refreshing.Lifetimes,
      jti: string, usable: bool, requestSubject: string, now: int)
    requires PossibleRun(Initial(services), ops, s256, life) && KeysApart(services)
    requires jti in Run(Initial(services), ops, s256, life).0.tokens
    ensures var g := Run(Initial(services), ops, s256, life).0;
      Admission(g, g.tokens[jti], usable, requestSubject, now) !in
        {ScopeNotGranted, ReceiptNotFound, ConsentScopeMismatch}
  {
    InitialOrigins(services);
    InitialAttenuated(services);
    RunKeepsAttenuated(Initial(services), ops, s256, life);
    RunKeepsKeysApart(Initial(services), ops, s256, life);
    var g := Run(Initial(services), ops, s256, life).0;
    SoundTokenPasses(g, g.tokens[jti], usable, requestSubject, now);
  }

  // ------------------------------------------------------------- revoked consents

  predicate ConsentRevoked(receipts: seq<Consents.Receipt>, consentId: string) {
    var n := Consents.IndexOf(receipts, consentId);
    n < |receipts| && receipts[n].Gone()
  }

  /** The event lets a token tied to the consent be used, or mints one otherwise than from a code. */
  predicate Uses(e: Event, consentId: string) {
    match e
    case Judged(token, Admitted) => token.consentId == consentId
    case Minted(token, source) => source != ByCode && token.consentId == consentId
    case _ => false
  }

  lemma RevokedStays(receipts: seq<Consents.Receipt>, later: seq<Consents.Receipt>, consentId: string)
    requires ConsentLaws.Grown(receipts, later) && ConsentRevoked(receipts, consentId)
    ensures ConsentRevoked(later, consentId)
  {
    IndexOfGrown(receipts, later, consentId);
    var n := Consents.IndexOf(receipts, consentId);
    assert ConsentLaws.Becomes(receipts[n], later[n]);
  }

  lemma RevokedIsNotUsed(g: Gateway, op: Op, s256: string -> string, life: Refreshing.Lifetimes, consentId: string)
    requires ConsentRevoked(g.receipts, consentId)
    ensures !Uses(Step(g, op, s256, life).1, consentId)
  {
  }

  /** Once a consent is revoked, no step of any later run admits a token tied to it, and no refresh
      and no exchange mints one. */
  lemma {:induction false} RevokedConsentEndsAccess(
      g: Gateway, ops: seq<Op>, s256: string -> string, life: Refreshing.Lifetimes, consentId: string, j: nat)
    requires PossibleRun(g, ops, s256, life) && ConsentRevoked(g.receipts, consentId) && j < |Run(g, ops, s256, life).1|
    ensures !Uses(Run(g, ops, s256, life).1[j], consentId)
    decreases ops
  {
    if j == 0 {
      RevokedIsNotUsed(g, ops[0], s256, life, consentId);
    } else {
      ReceiptsProgress(g, ops[0], s256, life);
      RevokedStays(g.receipts, Step(g, ops[0], s256, life).0.receipts, consentId);
      RevokedConsentEndsAccess(Step(g, ops[0], s256, life).0, ops[1..], s256, life, consentId, j - 1);
    }
  }
}
