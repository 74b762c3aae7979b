/** The rotating refresh-token store, in its two forms: process memory and SQL tables.

    Tokens are known by their hash; `hash` is any function. Fresh random tokens
    and family ids are parameters, and so is the clock (milliseconds). */
module RefreshTokenStore {
  import opened Wrappers
  import opened Environments

  /** What a refresh token stands for; fixed when its family is issued. */
  datatype Context = Context(
    familyId: string, serviceCode: string, environment: Environment, subjectId: string,
    consentId: string, scopes: seq<string>, identityIssuer: string)

  /** The part of an access token's claims that revocation needs. */
  datatype Claims = Claims(jti: string, exp: int, scopes: seq<string>)

  datatype Rotation =
    | Rotated(refreshToken: string, context: Context)
    | ReuseDetected(context: Context, accessTokenClaims: seq<Claims>)
    | Invalid

  datatype Lifetimes = Lifetimes(tokenTtl: nat, absoluteTtl: nat)

  /** Which families a subject-wide revocation covers; an empty service code means any service. */
  datatype SubjectFilter = SubjectFilter(subjectId: string, serviceCode: string, environment: Option<Environment>) {
    predicate Covers(c: Context) {
      && c.subjectId == subjectId
      && (serviceCode == "" || c.serviceCode == serviceCode)
      && (environment.None? || c.environment == environment.value)
    }
  }

  // ---------------------------------------------------------------- memory form

  datatype MemoryToken = MemoryToken(context: Context, expiresAt: int, consumed: bool, revoked: bool)

  datatype Memory = Memory(
    tokens: map<string, MemoryToken>,
    familyClaims: map<string, seq<Claims>>,
    revokedFamilies: set<string>)
  {
    function ClaimsOf(family: string): seq<Claims> {
      if family in familyClaims then familyClaims[family] else []
    }

    predicate Expired(h: string, now: int)
      requires h in tokens
    {
      tokens[h].expiresAt <= now
    }

    function Issue(context: Context, h: string, now: int, life: Lifetimes): Memory {
      this.(tokens := tokens[h := MemoryToken(context, now + life.tokenTtl, false, false)])
    }

    function Rotate(h: string, service: string, next: string, nextToken: string, now: int): (Memory, Rotation) {
      if h !in tokens || tokens[h].context.serviceCode != service || Expired(h, now) || tokens[h].revoked
         || tokens[h].context.familyId in revokedFamilies
      then (this, Invalid)
      else
        var token := tokens[h];
        var family := token.context.familyId;
        if token.consumed
        then (this.(revokedFamilies := revokedFamilies + {family}), ReuseDetected(token.context, ClaimsOf(family)))
        else (this.(tokens := tokens[h := token.(consumed := true)][next := token]), Rotated(nextToken, token.context))
    }

    function Record(family: string, claims: Claims): Memory {
      this.(familyClaims := familyClaims[family := ClaimsOf(family) + [claims]])
    }

    function RevokeToken(h: string, service: string): (Memory, bool) {
      if h !in tokens || tokens[h].context.serviceCode != service then (this, false)
      else (this.(revokedFamilies := revokedFamilies + {tokens[h].context.familyId}), true)
    }

    /** The families with a token whose context satisfies `covers`. */
    function FamiliesOf(covers: Context -> bool): set<string> {
      set h | h in tokens && covers(tokens[h].context) :: tokens[h].context.familyId
    }

    function RevokeWhere(covers: Context -> bool): Memory {
      this.(revokedFamilies := revokedFamilies + FamiliesOf(covers))
    }
  }

  /** `RefreshTokenStore` in memory mode. */
  class MemoryStore {
    const hash: string -> string
    const life: Lifetimes
    var tokens: map<string, MemoryToken>
    var familyClaims: map<string, seq<Claims>>
    var revokedFamilies: set<string>

    constructor (hash: string -> string, life: Lifetimes)
      ensures this.hash == hash && this.life == life
      ensures View() == Memory(map[], map[], {})
    {
      this.hash, this.life := hash, life;
      tokens, familyClaims, revokedFamilies := map[], map[], {};
    }

    ghost function View(): Memory
      reads this
    {
      Memory(tokens, familyClaims, revokedFamilies)
    }

    method Issue(context: Context, newToken: string, now: int)
      requires hash(newToken) !in tokens
      modifies this
      ensures View() == old(View()).Issue(context, hash(newToken), now, life)
    {
      tokens := tokens[hash(newToken) := MemoryToken(context, now + life.tokenTtl, false, false)];
    }

    method Rotate(refreshToken: string, serviceCode: string, newToken: string, now: int) returns (r: Rotation)
      requires hash(newToken) !in tokens
      modifies this
      ensures (View(), r) == old(View()).Rotate(hash(refreshToken), serviceCode, hash(newToken), newToken, now)
    {
      var h := hash(refreshToken);
      if h !in tokens { return Invalid; }
      var token := tokens[h];
      if token.context.serviceCode != serviceCode || token.expiresAt <= now || token.revoked { return Invalid; }
      if token.context.familyId in revokedFamilies { return Invalid; }
      if token.consumed {
        revokedFamilies := revokedFamilies + {token.context.familyId};
        var claims := if token.context.familyId in familyClaims then familyClaims[token.context.familyId] else [];
        return ReuseDetected(token.context, claims);
      }
      token := token.(consumed := true);
      tokens := tokens[h := token];
      tokens := tokens[hash(newToken) := token.(consumed := false)];
      r := Rotated(newToken, token.context);
    }

    method RecordAccessToken(familyId: string, claims: Claims)
      modifies this
      ensures View() == old(View()).Record(familyId, claims)
    {
      var known := if familyId in familyClaims then familyClaims[familyId] else [];
      familyClaims := familyClaims[familyId := known + [claims]];
    }

    method RevokeByConsent(consentId: string)
      modifies this
      ensures View() == old(View()).RevokeWhere((c: Context) => c.consentId == consentId)
    {
      ghost var covers := (c: Context) => c.consentId == consentId;
      var pending := tokens.Keys;
      while pending != {}
        invariant pending <= tokens.Keys
        invariant tokens == old(tokens) && familyClaims == old(familyClaims)
        invariant revokedFamilies == old(revokedFamilies) +
          set h | h in tokens.Keys - pending && covers(tokens[h].context) :: tokens[h].context.familyId
        decreases pending
      {
        var h :| h in pending;
        if tokens[h].context.consentId == consentId {
          revokedFamilies := revokedFamilies + {tokens[h].context.familyId};
        }
        pending := pending - {h};
      }
    }

    method RevokeByService(serviceCode: string)
      modifies this
      ensures View() == old(View()).RevokeWhere((c: Context) => c.serviceCode == serviceCode)
    {
      ghost var covers := (c: Context) => c.serviceCode == serviceCode;
      var pending := tokens.Keys;
      while pending != {}
        invariant pending <= tokens.Keys
        invariant tokens == old(tokens) && familyClaims == old(familyClaims)
        invariant revokedFamilies == old(revokedFamilies) +
          set h | h in tokens.Keys - pending && covers(tokens[h].context) :: tokens[h].context.familyId
        decreases pending
      {
        var h :| h in pending;
        if tokens[h].context.serviceCode == serviceCode {
          revokedFamilies := revokedFamilies + {tokens[h].context.familyId};
        }
        pending := pending - {h};
      }
    }

    method RevokeToken(refreshToken: string, serviceCode: string) returns (revoked: bool)
      modifies this
      ensures (View(), revoked) == old(View()).RevokeToken(hash(refreshToken), serviceCode)
    {
      var h := hash(refreshToken);
      if h !in tokens || tokens[h].context.serviceCode != serviceCode { return false; }
      revokedFamilies := revokedFamilies + {tokens[h].context.familyId};
      return true;
    }

    /** Returns the recorded claims of every covered family, in some order,
        a family's claims once for each of its tokens. */
    method RevokeBySubject(filter: SubjectFilter) returns (claims: seq<Claims>)
      modifies this
      ensures View() == old(View()).RevokeWhere((c: Context) => filter.Covers(c))
      ensures forall c :: c in claims <==>
        exists h :: h in old(tokens) && filter.Covers(old(tokens)[h].context)
            && c in old(View()).ClaimsOf(old(tokens)[h].context.familyId)
    {
      ghost var covers := (c: Context) => filter.Covers(c);
      claims := [];
      var pending := tokens.Keys;
      while pending != {}
        invariant pending <= tokens.Keys
        invariant tokens == old(tokens) && familyClaims == old(familyClaims)
        invariant revokedFamilies == old(revokedFamilies) +
          set h | h in tokens.Keys - pending && covers(tokens[h].context) :: tokens[h].context.familyId
        invariant forall c :: c in claims <==>
          exists h :: h in tokens.Keys - pending && filter.Covers(tokens[h].context)
              && c in old(View()).ClaimsOf(tokens[h].context.familyId)
        decreases pending
      {
        var h :| h in pending;
        var token := tokens[h].context;
        if filter.Covers(token) {
          revokedFamilies := revokedFamilies + {token.familyId};
          claims := claims + (if token.familyId in familyClaims then familyClaims[token.familyId] else []);
        }
        pending := pending - {h};
      }
    }
  }

  // ------------------------------------------------------------------- SQL form

  datatype FamilyRow = FamilyRow(context: Context, claims: seq<Claims>, absoluteExpiresAt: int, revoked: bool)
  datatype TokenRow = TokenRow(familyId: string, expiresAt: int, consumed: bool, revoked: bool)

  datatype Tables = Tables(families: map<string, FamilyRow>, tokens: map<string, TokenRow>) {

    /** The foreign key and the context column that repeats the primary key. */
    ghost predicate Valid() {
      && (forall h <- tokens :: tokens[h].familyId in families)
      && (forall f <- families :: families[f].context.familyId == f)
    }

    function FamilyOf(h: string): FamilyRow
      requires h in tokens && tokens[h].familyId in families
    {
      families[tokens[h].familyId]
    }

    predicate Expired(h: string, now: int)
      requires h in tokens && tokens[h].familyId in families
    {
      tokens[h].expiresAt <= now || FamilyOf(h).absoluteExpiresAt <= now
    }

    function Issue(context: Context, h: string, now: int, life: Lifetimes): Tables {
      Tables(
        families[context.familyId := FamilyRow(context, [], now + life.absoluteTtl, false)],
        tokens[h := TokenRow(context.familyId, now + life.tokenTtl, false, false)])
    }

    function Rotate(
      h: string, service: string, next: string, nextToken: string, now: int, life: Lifetimes): (Tables, Rotation)
      requires h in tokens ==> tokens[h].familyId in families
    {
      if h !in tokens || FamilyOf(h).context.serviceCode != service || tokens[h].revoked || Expired(h, now)
         || FamilyOf(h).revoked
      then (this, Invalid)
      else
        var family := tokens[h].familyId;
        if tokens[h].consumed
        then (RevokeFamilies({family}), ReuseDetected(FamilyOf(h).context, FamilyOf(h).claims))
        else (this.(tokens := tokens[h := tokens[h].(consumed := true)]
                                    [next := TokenRow(family, now + life.tokenTtl, false, false)]),
              Rotated(nextToken, FamilyOf(h).context))
    }

    function Record(family: string, claims: Claims): Tables {
      if family !in families || families[family].revoked then this
      else this.(families := families[family := families[family].(claims := families[family].claims + [claims])])
    }

    function RevokeToken(h: string, service: string): (Tables, bool)
      requires h in tokens ==> tokens[h].familyId in families
    {
      if h !in tokens || FamilyOf(h).context.serviceCode != service then (this, false)
      else (RevokeFamilies({tokens[h].familyId}), true)
    }

    /** Revokes the given families and all their tokens. */
    function RevokeFamilies(ids: set<string>): Tables {
      Tables(
        map f | f in families :: if f in ids then families[f].(revoked := true) else families[f],
        map h | h in tokens :: if tokens[h].familyId in ids then tokens[h].(revoked := true) else tokens[h])
    }

    function RevokeWhere(covers: Context -> bool): Tables {
      RevokeFamilies(set f | f in families && covers(families[f].context))
    }
  }

  /** `RefreshTokenStore` in SQL mode: two tables, one transaction a method. */
  class SqlStore {
    const hash: string -> string
    const life: Lifetimes
    var families: map<string, FamilyRow>
    var tokens: map<string, TokenRow>

    constructor (hash: string -> string, life: Lifetimes)
      ensures this.hash == hash && this.life == life
      ensures View() == Tables(map[], map[]) && Valid()
    {
      this.hash, this.life := hash, life;
      families, tokens := map[], map[];
    }

    ghost function View(): Tables
      reads this
    {
      Tables(families, tokens)
    }

    ghost predicate Valid()
      reads this
    {
      View().Valid()
    }

    method InsertToken(token: string, familyId: string, now: int)
      modifies this`tokens
      ensures tokens == old(tokens)[hash(token) := TokenRow(familyId, now + life.tokenTtl, false, false)]
    {
      tokens := tokens[hash(token) := TokenRow(familyId, now + life.tokenTtl, false, false)];
    }

    /** The two UPDATE statements shared by every revocation: the families, then their tokens. */
    method RevokeFamilies(ids: set<string>)
      requires Valid()
      modifies this
      ensures Valid()
      ensures View() == old(View()).RevokeFamilies(ids)
    {
      families := map f | f in families :: if f in ids then families[f].(revoked := true) else families[f];
      tokens := map h | h in tokens :: if tokens[h].familyId in ids then tokens[h].(revoked := true) else tokens[h];
    }

    method Issue(context: Context, newToken: string, now: int)
      requires Valid() && hash(newToken) !in tokens && context.familyId !in families
      modifies this
      ensures Valid()
      ensures View() == old(View()).Issue(context, hash(newToken), now, life)
    {
      families := families[context.familyId := FamilyRow(context, [], now + life.absoluteTtl, false)];
      InsertToken(newToken, context.familyId, now);
    }

    method Rotate(refreshToken: string, serviceCode: string, newToken: string, now: int) returns (r: Rotation)
      requires Valid() && hash(newToken) !in tokens
      modifies this
      ensures Valid()
      ensures (View(), r) == old(View()).Rotate(hash(refreshToken), serviceCode, hash(newToken), newToken, now, life)
    {
      var h := hash(refreshToken);
      if h !in tokens { return Invalid; }
      var token := tokens[h];
      var family := families[token.familyId];
      if family.context.serviceCode != serviceCode || token.revoked || token.expiresAt <= now
         || family.absoluteExpiresAt <= now {
        return Invalid;
      }
      if family.revoked { return Invalid; }
      if token.consumed {
        RevokeFamilies({token.familyId});
        return ReuseDetected(family.context, family.claims);
      }
      tokens := tokens[h := token.(consumed := true)];
      InsertToken(newToken, token.familyId, now);
      r := Rotated(newToken, family.context);
    }

    method RecordAccessToken(familyId: string, claims: Claims)
      requires Valid()
      modifies this
      ensures Valid()
      ensures View() == old(View()).Record(familyId, claims)
    {
      if familyId in families && !families[familyId].revoked {
        var row := families[familyId];
        families := families[familyId := row.(claims := row.claims + [claims])];
      }
    }

    method RevokeByConsent(consentId: string)
      requires Valid()
      modifies this
      ensures Valid()
      ensures View() == old(View()).RevokeWhere((c: Context) => c.consentId == consentId)
    {
      var ids := set f | f in families && families[f].context.consentId == consentId;
      RevokeFamilies(ids);
    }

    method RevokeByService(serviceCode: string)
      requires Valid()
      modifies this
      ensures Valid()
      ensures View() == old(View()).RevokeWhere((c: Context) => c.serviceCode == serviceCode)
    {
      var ids := set f | f in families && families[f].context.serviceCode == serviceCode;
      RevokeFamilies(ids);
    }

    method RevokeToken(refreshToken: string, serviceCode: string) returns (revoked: bool)
      requires Valid()
      modifies this
      ensures Valid()
      ensures (View(), revoked) == old(View()).RevokeToken(hash(refreshToken), serviceCode)
    {
      var h := hash(refreshToken);
      if h !in tokens || families[tokens[h].familyId].context.serviceCode != serviceCode { return false; }
      RevokeFamilies({tokens[h].familyId});
      return true;
    }

    /** Returns the recorded claims of every covered family, in some row order, once a family. */
    method RevokeBySubject(filter: SubjectFilter) returns (claims: seq<Claims>)
      requires Valid()
      modifies this
      ensures Valid()
      ensures View() == old(View()).RevokeWhere((c: Context) => filter.Covers(c))
      ensures forall c :: c in claims <==>
        exists f :: f in old(families) && filter.Covers(old(families)[f].context) && c in old(families)[f].claims
    {
      var ids := set f | f in families && filter.Covers(families[f].context);
      claims := [];
      var pending := ids;
      while pending != {}
        invariant pending <= ids
        invariant forall c :: c in claims <==> exists f :: f in ids - pending && c in families[f].claims
        decreases pending
      {
        var f :| f in pending;
        claims := claims + families[f].claims;
        pending := pending - {f};
      }
      RevokeFamilies(ids);
    }
  }
}
