/** When the token endpoint mints, what it mints, and when a token is admitted: each exactly, in terms of the
    rows themselves, and over runs with the revoked ids. */
module TokenLaws {
  import opened Wrappers
  import opened Environments
  import opened Lists
  import opened Strings
  import opened AuthorizationFlow
  import opened AuthorizationProgress
  import AccessTokenRevocation
  import Slugs
  import Portal = DeveloperPortalStore
  import Requests = OAuthAuthorizationStore
  import Consents = ConsentReceiptStore
  import Refreshing = RefreshTokenStore

  /** The receipt is neither revoked nor expired, and is for the service, the environment and the subject. */
  predicate Backs(r: Consents.Receipt, service: string, environment: Environment, subject: string, now: int) {
    && r.revokedAt.None? && r.status != Consents.Revoked && now < r.expiresAt
    && r.serviceCode == service && r.environment == environment
    && (r.subjectId == subject || r.externalSubjectId == Some(subject))
  }

  /** The consent with the id backs the service, the environment and the subject, and covers the scopes. */
  predicate Consented(
    receipts: seq<Consents.Receipt>, consentId: string, service: string, environment: Environment, subject: string,
    scopes: seq<string>, now: int)
  {
    var n := Consents.IndexOf(receipts, consentId);
    && n < |receipts| && Backs(receipts[n], service, environment, subject, now)
    && forall x <- scopes :: x in receipts[n].scopes
  }

  /** The scopes asked for, each once; or those held, if none is asked for. */
  ghost predicate Given(scopes: seq<string>, requested: seq<string>, held: seq<string>) {
    && (requested == [] ==> forall x :: x in scopes <==> x in held)
    && (requested != [] ==> NoRepeats(scopes) && forall x :: x in scopes <==> x in requested)
  }

  lemma NarrowedIsGiven(requested: seq<string>, held: seq<string>)
    ensures Given(Narrowed(requested, held), requested, held)
    ensures Given(Unique(Narrowed(requested, held)), requested, held) && NoRepeats(Unique(Narrowed(requested, held)))
    ensures requested == [] ==> Narrowed(requested, held) == held
  {
    UniqueLaws(requested);
    UniqueLaws(Narrowed(requested, held));
    if requested != [] { assert requested[0] in Unique(requested); } else { assert Unique(requested) == []; }
  }

  // -------------------------------------------------------------------- grants

  /** What a code is exchanged for: a token and a refresh token for the code's service, environment, subject and
      consent, with the scopes asked for. */
  ghost predicate GrantedFor(
    g': Gateway, op: TokenOp, code: Requests.Code, token: AccessToken, life: Refreshing.Lifetimes)
    requires op.Grant? && op.key.Some?
  {
    && token.serviceCode == code.serviceCode && token.environment == code.environment
    && token.subjectId == code.subjectId && token.consentId == code.consentId && token.exp == op.exp
    && token.key == Some(KeyRef(op.key.value.keyId, op.key.value.fingerprint))
    && Given(token.scopes, op.requested, code.scopes) && NoRepeats(token.scopes)
    && token.family.Some?
    && var family := token.family.value;
    && family == Refreshing.Context(op.family, code.serviceCode, code.environment, code.subjectId, code.consentId,
                                    family.scopes, op.issuer)
    && Given(family.scopes, op.requested, code.scopes) && (op.requested == [] ==> family.scopes == code.scopes)
    && op.jti in g'.tokens && g'.tokens[op.jti] == token && op.refreshHash in g'.refresh.tokens
    && g'.refresh.tokens[op.refreshHash] == Refreshing.MemoryToken(family, op.now + life.tokenTtl, false, false)
  }

  /** A redeemed code is exchanged if and only if the service has a key to issue under and every scope asked
      for is one of the code's. */
  lemma GrantMintsIff(g: Gateway, op: TokenOp, life: Refreshing.Lifetimes)
    requires op.Grant? && op.codeHash in g.redeemed
    ensures
      var (g', event) := GrantStep(g, op, life);
      var code := g.redeemed[op.codeHash];
      if op.key.Some? && forall x <- op.requested :: x in code.scopes
      then event.Minted? && event.source == ByCode && GrantedFor(g', op, code, event.token, life)
      else event == Refused && g' == g.(redeemed := g.redeemed - {op.codeHash})
  {
    NarrowedIsGiven(op.requested, g.redeemed[op.codeHash].scopes);
  }

  // ------------------------------------------------------------------- refreshes

  ghost predicate RefreshedFor(g': Gateway, op: TokenOp, context: Refreshing.Context, token: AccessToken)
    requires op.FinishRefresh? && op.key.Some?
  {
    && token.serviceCode == context.serviceCode && token.environment == context.environment
    && token.subjectId == context.subjectId && token.consentId == context.consentId && token.exp == op.exp
    && token.key == Some(KeyRef(op.key.value.keyId, op.key.value.fingerprint))
    && Given(token.scopes, op.requested, context.scopes) && NoRepeats(token.scopes) && token.family == Some(context)
    && op.jti in g'.tokens && g'.tokens[op.jti] == token
  }

  /** A rotation under way is finished if and only if the environment and the key are there, every scope asked
      for is the family's, and the consent still backs the family and covers the scopes. */
  lemma RefreshMintsIff(g: Gateway, op: TokenOp)
    requires op.FinishRefresh? && op.next in g.rotations
    ensures
      var (g', event) := FinishRefreshStep(g, op);
      var context := g.rotations[op.next];
      var asked := if op.requested == [] then context.scopes else op.requested;
      if && op.key.Some? && context.serviceCode in g.services
         && context.environment in g.services[context.serviceCode].environments
         && (forall x <- asked :: x in context.scopes)
         && Consented(g.receipts, context.consentId, context.serviceCode, context.environment, context.subjectId,
                      asked, op.now)
      then event.Minted? && event.source == ByRefresh && RefreshedFor(g', op, context, event.token)
      else event == Refused && g' == g.(rotations := g.rotations - {op.next})
  {
    NarrowedIsGiven(op.requested, g.rotations[op.next].scopes);
  }

  // ------------------------------------------------------------------- exchanges

  ghost predicate ExchangedFor(g': Gateway, op: TokenOp, token: AccessToken)
    requires op.Exchange?
  {
    && token == AccessToken(op.service, op.environment, op.subject, token.scopes, op.consentId, op.exp, op.ref, None)
    && NoRepeats(token.scopes) && (forall x :: x in token.scopes <==> x in op.requested)
    && op.jti in g'.tokens && g'.tokens[op.jti] == token
  }

  /** A verified identity is exchanged if and only if the service is active, scopes are asked for and all
      granted to it, and the consent backs service, environment and subject and covers the scopes. */
  lemma ExchangeMintsIff(g: Gateway, op: TokenOp)
    requires op.Exchange?
    ensures
      var (g', event) := ExchangeStep(g, op);
      if && op.service in g.services && g.services[op.service].active && op.requested != []
         && (forall x <- op.requested :: x in g.services[op.service].scopesGranted)
         && Consented(g.receipts, op.consentId, op.service, op.environment, op.subject, op.requested, op.now)
      then event.Minted? && event.source == ByExchange && ExchangedFor(g', op, event.token)
      else event == Refused && g' == g
  {
    UniqueLaws(op.requested);
    if op.requested != [] { assert op.requested[0] in Unique(op.requested); }
  }

  // ----------------------------------------------------------------------- use

  /** The service lists a key that the token was issued under, for its environment, active or awaiting
      cutover, and not expired. */
  ghost predicate KeyServes(keys: seq<Portal.ApiKey>, token: AccessToken, now: int) {
    exists key :: && key in keys && token.key == Some(KeyRef(key.keyId, key.fingerprint))
                  && key.environment == token.environment
                  && (key.status == Portal.KeyActive || key.status == Portal.PendingCutover)
                  && (key.expiresAt.Some? ==> now < key.expiresAt.value)
  }

  /** What admission needs, but for the request's subject. */
  ghost predicate InForce(g: Gateway, token: AccessToken, now: int) {
    var code := Slugs.Slug(token.serviceCode);
    && now < token.exp * 1000 && code in g.services && g.services[code].active
    && KeyServes(g.services[code].keys, token, now)
    && token.scopes != [] && (forall x <- token.scopes :: x in g.services[code].scopesGranted)
    && Consented(g.receipts, token.consentId, code, token.environment, token.subjectId, token.scopes, now)
  }

  lemma KeyServesIff(keys: seq<Portal.ApiKey>, token: AccessToken, now: int)
    ensures KeyServes(keys, token, now) <==> exists key :: key in keys && Opens(key, token, now)
  {
    if KeyServes(keys, token, now) {
      var key :| && key in keys && token.key == Some(KeyRef(key.keyId, key.fingerprint))
                 && key.environment == token.environment
                 && (key.status == Portal.KeyActive || key.status == Portal.PendingCutover)
                 && (key.expiresAt.Some? ==> now < key.expiresAt.value);
      assert Opens(key, token, now);
    }
    if key :| key in keys && Opens(key, token, now) {
      assert key in keys && token.key == Some(KeyRef(key.keyId, key.fingerprint));
    }
  }

  lemma NotExpired(exp: int, now: int)
    ensures exp > now / 1000 <==> now < exp * 1000
  {
  }

  /** A token is admitted if and only if it is usable and in force, and the request names no other subject. */
  lemma AdmittedIff(g: Gateway, token: AccessToken, usable: bool, requestSubject: string, now: int)
    ensures Admission(g, token, usable, requestSubject, now) == Admitted <==>
      usable && InForce(g, token, now) && (requestSubject == "" || requestSubject == token.subjectId)
    ensures Admission(g, token, usable, requestSubject, now) == SubjectMismatch <==>
      usable && InForce(g, token, now) && requestSubject != "" && requestSubject != token.subjectId
    ensures !usable || token.exp * 1000 <= now ==> Admission(g, token, usable, requestSubject, now) == AuthFailed
    ensures Admission(g, token, usable, requestSubject, now) == ServiceNotFound <==>
      usable && now < token.exp * 1000 && Slugs.Slug(token.serviceCode) !in g.services
  {
    var code := Slugs.Slug(token.serviceCode);
    NotExpired(token.exp, now);
    if code in g.services { KeyServesIff(g.services[code].keys, token, now); }
  }

  // ------------------------------------------------------------------ every run

  lemma {:induction false} RunAt(
    g: Gateway, ops: seq<Op>, s256: string -> string, life: Refreshing.Lifetimes, k: nat)
    requires k < |ops|
    ensures |Run(g, ops, s256, life).1| == |ops|
    ensures Run(g, ops, s256, life).1[k] == Step(Run(g, ops[..k], s256, life).0, ops[k], s256, life).1
    decreases ops
  {
    RunLength(g, ops, s256, life);
    if k == 0 {
      assert ops[..0] == [];
    } else {
      assert ops[..k][1..] == ops[1..][..k - 1];
      RunAt(Step(g, ops[0], s256, life).0, ops[1..], s256, life, k - 1);
    }
  }

  lemma {:induction false} RunLength(g: Gateway, ops: seq<Op>, s256: string -> string, life: Refreshing.Lifetimes)
    ensures |Run(g, ops, s256, life).1| == |ops|
    decreases ops
  {
    if ops != [] { RunLength(Step(g, ops[0], s256, life).0, ops[1..], s256, life); }
  }

  /** Only the use of a token is judged. */
  lemma JudgedIsAdmit(g: Gateway, op: Op, s256: string -> string, life: Refreshing.Lifetimes, token: AccessToken)
    requires Step(g, op, s256, life).1 == Judged(token, Admitted)
    ensures op.Other? && op.o.Admit? && op.o.jti in g.tokens && token == g.tokens[op.o.jti]
    ensures Admission(g, token, op.o.usable, op.o.requestSubject, op.o.now) == Admitted
  {
    match op
    case Authorizing(a) =>
    case Deciding(d) =>
    case Tokens(t) =>
    case Other(o) =>
  }

  /** In every run, whatever is admitted is a stored token that is usable and in force when it is used, by a
      request for no other subject. */
  lemma EveryAdmission(
    g: Gateway, ops: seq<Op>, s256: string -> string, life: Refreshing.Lifetimes, k: nat, token: AccessToken)
    requires k < |ops| && k < |Run(g, ops, s256, life).1| && Run(g, ops, s256, life).1[k] == Judged(token, Admitted)
    ensures ops[k].Other? && ops[k].o.Admit?
    ensures var before, o := Run(g, ops[..k], s256, life).0, ops[k].o;
      && o.jti in before.tokens && token == before.tokens[o.jti] && o.usable && InForce(before, token, o.now)
      && (o.requestSubject == "" || o.requestSubject == token.subjectId)
  {
    RunAt(g, ops, s256, life, k);
    var before := Run(g, ops[..k], s256, life).0;
    JudgedIsAdmit(before, ops[k], s256, life, token);
    AdmittedIff(before, token, ops[k].o.usable, ops[k].o.requestSubject, ops[k].o.now);
  }

  lemma StepKeepsToken(g: Gateway, op: Op, s256: string -> string, life: Refreshing.Lifetimes, jti: string)
    requires Possible(g, op) && jti in g.tokens
    ensures jti in Step(g, op, s256, life).0.tokens && Step(g, op, s256, life).0.tokens[jti] == g.tokens[jti]
  {
    match op
    case Authorizing(a) => AuthorizeFrame(g, a);
    case Deciding(d) => DecisionFrame(g, d);
    case Tokens(t) => TokenStepKeepsToken(g, t, s256, life, jti);
    case Other(o) => OtherFrame(g, o, life);
  }

  lemma TokenStepKeepsToken(
    g: Gateway, op: TokenOp, s256: string -> string, life: Refreshing.Lifetimes, jti: string)
    requires PossibleToken(g, op) && jti in g.tokens
    ensures jti in TokenStep(g, op, s256, life).0.tokens && TokenStep(g, op, s256, life).0.tokens[jti] == g.tokens[jti]
  {
    match op
    case Redeem(codeHash, clientId, redirectUri, verifier, now) =>
      RedeemFrame(g, codeHash, clientId, redirectUri, s256(verifier), now);
    case Grant(_, _, _, _, _, _, _, _, _) =>
    case Rotate(_, _, _, _, _) => RotateFrame(g, op);
    case FinishRefresh(_, _, _, _, _, _) =>
    case Exchange(_, _, _, _, _, _, _, _, _) =>
  }

  /** A token stays as it was minted. */
  lemma {:induction false} RunKeepsToken(
    g: Gateway, ops: seq<Op>, s256: string -> string, life: Refreshing.Lifetimes, jti: string)
    requires PossibleRun(g, ops, s256, life) && jti in g.tokens
    ensures jti in Run(g, ops, s256, life).0.tokens && Run(g, ops, s256, life).0.tokens[jti] == g.tokens[jti]
    decreases ops
  {
    if ops != [] {
      StepKeepsToken(g, ops[0], s256, life, jti);
      RunKeepsToken(Step(g, ops[0], s256, life).0, ops[1..], s256, life, jti);
    }
  }

  lemma {:induction false} PossiblePrefix(
    g: Gateway, ops: seq<Op>, s256: string -> string, life: Refreshing.Lifetimes, k: nat)
    requires PossibleRun(g, ops, s256, life) && k <= |ops|
    ensures PossibleRun(g, ops[..k], s256, life)
    decreases ops
  {
    if k > 0 {
      assert ops[..k][1..] == ops[1..][..k - 1];
      PossiblePrefix(Step(g, ops[0], s256, life).0, ops[1..], s256, life, k - 1);
    }
  }

  /** Once a token's id is recorded as revoked it is admitted in no later run, whatever restarts and prunings
      come between: a token is usable only if its id verifies. */
  lemma RevokedNeverAdmitted(
    g: Gateway, ops: seq<Op>, s256: string -> string, life: Refreshing.Lifetimes, k: nat,
    s: AccessTokenRevocation.Revocations, jti: string, now: int, revoking: seq<AccessTokenRevocation.Op>)
    requires PossibleRun(g, ops, s256, life) && jti in g.tokens && IsTrimmed(jti) && jti != ""
    requires AccessTokenRevocation.RowAgrees(s, jti, g.tokens[jti].exp)
    requires k < |ops| && ops[k].Other? && ops[k].o.Admit? && ops[k].o.jti == jti
    requires AccessTokenRevocation.Timed(revoking, now, ops[k].o.now)
    requires
      var later := AccessTokenRevocation.Run(s.Record(jti, g.tokens[jti].exp), revoking);
      ops[k].o.usable ==> later.Verifies(jti, g.tokens[jti].exp, ops[k].o.now)
    ensures |Run(g, ops, s256, life).1| == |ops|
    ensures forall token :: Run(g, ops, s256, life).1[k] != Judged(token, Admitted)
  {
    RunAt(g, ops, s256, life, k);
    AccessTokenRevocation.RevokedNeverVerifies(s, jti, g.tokens[jti].exp, now, revoking, ops[k].o.now);
    PossiblePrefix(g, ops, s256, life, k);
    RunKeepsToken(g, ops[..k], s256, life, jti);
    if token :| Run(g, ops, s256, life).1[k] == Judged(token, Admitted) {
      EveryAdmission(g, ops, s256, life, k, token);
    }
  }
}
