/** What the two forms of the refresh-token store answer, told by the calls made so far and their times alone:
    neither expiry times nor flags are kept, only when each token was made, when its family was opened, which
    tokens were rotated and which families were ended. */
module RefreshTokenHistory {
  import opened RefreshTokenStore
  import opened RefreshTokenRuns
  import opened RefreshTokenFamilies

  datatype Made = Made(family: string, at: int)
  datatype Opened = Opened(context: Context, at: int, claims: seq<Claims>, ended: bool)
  datatype History = History(tokens: map<string, Made>, families: map<string, Opened>, used: set<string>)

  const NOTHING := History(map[], map[], {})

  datatype Form = InMemory | InSql

  /** In memory every token of a family lasts as long as its first one; in SQL each has a lifetime of its own,
      within the family's. */
  predicate InTime(made: Made, entry: Opened, now: int, life: Lifetimes, form: Form) {
    match form
    case InMemory => now < entry.at + life.tokenTtl
    case InSql => now < made.at + life.tokenTtl && now < entry.at + life.absoluteTtl
  }

  /** The token is known, is the service's, and neither its time nor its family has ended. */
  predicate Good(t: History, h: string, service: string, now: int, life: Lifetimes, form: Form) {
    && h in t.tokens && t.tokens[h].family in t.families
    && var entry := t.families[t.tokens[h].family];
    && entry.context.serviceCode == service && !entry.ended && InTime(t.tokens[h], entry, now, life, form)
  }

  function Ended(t: History, ids: set<string>): History {
    t.(families := map f | f in t.families :: if f in ids then t.families[f].(ended := true) else t.families[f])
  }

  function ConsentOf(t: History, consentId: string): set<string> {
    set f | f in t.families && t.families[f].context.consentId == consentId
  }

  function ServiceOf(t: History, code: string): set<string> {
    set f | f in t.families && t.families[f].context.serviceCode == code
  }

  /** The subject's families, of the service and the environment if they are given. */
  function SubjectOf(t: History, filter: SubjectFilter): set<string> {
    set f | f in t.families && t.families[f].context.subjectId == filter.subjectId
            && (filter.serviceCode != "" ==> t.families[f].context.serviceCode == filter.serviceCode)
            && (filter.environment.Some? ==> t.families[f].context.environment == filter.environment.value)
  }

  function Step(t: History, op: Op, life: Lifetimes, form: Form): (History, Reply) {
    match op
    case Issue(context, h, now) =>
      (t.(tokens := t.tokens[h := Made(context.familyId, now)],
          families := t.families[context.familyId := Opened(context, now, [], false)]), Done)
    case Rotate(h, service, next, nextToken, now) =>
      if !Good(t, h, service, now, life, form) then (t, Rotation(Invalid))
      else
        var family := t.tokens[h].family;
        var entry := t.families[family];
        if h in t.used then (Ended(t, {family}), Rotation(ReuseDetected(entry.context, entry.claims)))
        else
          (t.(tokens := t.tokens[next := Made(family, now)], used := t.used + {h}),
           Rotation(Rotated(nextToken, entry.context)))
    case Record(family, claims) =>
      if family !in t.families || t.families[family].ended then (t, Done)
      else
        var entry := t.families[family];
        (t.(families := t.families[family := entry.(claims := entry.claims + [claims])]), Done)
    case RevokeByConsent(id) => (Ended(t, ConsentOf(t, id)), Done)
    case RevokeToken(h, service) =>
      if h in t.tokens && t.tokens[h].family in t.families
         && t.families[t.tokens[h].family].context.serviceCode == service
      then (Ended(t, {t.tokens[h].family}), Answer(true))
      else (t, Answer(false))
    case RevokeByService(code) => (Ended(t, ServiceOf(t, code)), Done)
    case RevokeBySubject(filter) => (Ended(t, SubjectOf(t, filter)), Done)
  }

  function Run(t: History, ops: seq<Op>, life: Lifetimes, form: Form): (History, seq<Reply>)
    decreases ops
  {
    if ops == [] then (t, [])
    else
      var (t1, r) := Step(t, ops[0], life, form);
      var (t2, rs) := Run(t1, ops[1..], life, form);
      (t2, [r] + rs)
  }

  // ------------------------------------------------------------------- SQL form

  predicate RowTold(row: TokenRow, made: Made, used: bool, ended: bool, life: Lifetimes) {
    row == TokenRow(made.family, made.at + life.tokenTtl, used, ended)
  }

  predicate FamilyTold(row: FamilyRow, entry: Opened, life: Lifetimes) {
    row == FamilyRow(entry.context, entry.claims, entry.at + life.absoluteTtl, entry.ended)
  }

  ghost predicate RowsTold(
    rows: map<string, TokenRow>, made: map<string, Made>, families: map<string, Opened>, used: set<string>,
    life: Lifetimes)
  {
    && rows.Keys == made.Keys
    && forall h <- rows ::
         made[h].family in families && RowTold(rows[h], made[h], h in used, families[made[h].family].ended, life)
  }

  ghost predicate FamiliesTold(rows: map<string, FamilyRow>, families: map<string, Opened>, life: Lifetimes) {
    && rows.Keys == families.Keys
    && forall f <- rows :: FamilyTold(rows[f], families[f], life) && families[f].context.familyId == f
  }

  /** The tables hold what the history tells. */
  ghost predicate Told(q: Tables, t: History, life: Lifetimes) {
    RowsTold(q.tokens, t.tokens, t.families, t.used, life) && FamiliesTold(q.families, t.families, life)
      && t.used <= t.tokens.Keys
  }

  lemma ToldIsValid(q: Tables, t: History, life: Lifetimes)
    requires Told(q, t, life)
    ensures q.Valid()
  {
    forall h | h in q.tokens ensures q.tokens[h].familyId in q.families {
      assert RowTold(q.tokens[h], t.tokens[h], h in t.used, t.families[t.tokens[h].family].ended, life);
    }
    forall f | f in q.families ensures q.families[f].context.familyId == f {
      assert FamilyTold(q.families[f], t.families[f], life);
    }
  }

  lemma EndedRows(q: Tables, t: History, ids: set<string>, life: Lifetimes)
    requires RowsTold(q.tokens, t.tokens, t.families, t.used, life)
    ensures RowsTold(q.RevokeFamilies(ids).tokens, t.tokens, Ended(t, ids).families, t.used, life)
  {
    var rows, families := q.RevokeFamilies(ids).tokens, Ended(t, ids).families;
    forall h | h in rows
      ensures RowTold(rows[h], t.tokens[h], h in t.used, families[t.tokens[h].family].ended, life)
    {
      assert RowTold(q.tokens[h], t.tokens[h], h in t.used, t.families[t.tokens[h].family].ended, life);
    }
  }

  lemma EndedTold(q: Tables, t: History, ids: set<string>, life: Lifetimes)
    requires Told(q, t, life)
    ensures Told(q.RevokeFamilies(ids), Ended(t, ids), life)
  {
    EndedRows(q, t, ids, life);
    var rows, families := q.RevokeFamilies(ids).families, Ended(t, ids).families;
    forall f | f in rows ensures FamilyTold(rows[f], families[f], life) {
      assert FamilyTold(q.families[f], t.families[f], life);
    }
  }

  lemma CoveredTold(q: Tables, t: History, covers: Context -> bool, ids: set<string>, life: Lifetimes)
    requires Told(q, t, life) && forall f :: f in ids <==> f in t.families && covers(t.families[f].context)
    ensures Told(q.RevokeWhere(covers), Ended(t, ids), life)
  {
    forall f ensures f in ids <==> f in q.families && covers(q.families[f].context) {
      assert f in q.families ==> FamilyTold(q.families[f], t.families[f], life);
    }
    assert ids == set f | f in q.families && covers(q.families[f].context);
    EndedTold(q, t, ids, life);
  }

  lemma IssuedRows(
    rows: map<string, TokenRow>, made: map<string, Made>, families: map<string, Opened>, used: set<string>,
    h0: string, family: string, entry: Opened, now: int, life: Lifetimes)
    requires RowsTold(rows, made, families, used, life) && h0 !in rows && family !in families && h0 !in used
    requires !entry.ended
    ensures RowsTold(rows[h0 := TokenRow(family, now + life.tokenTtl, false, false)], made[h0 := Made(family, now)],
                     families[family := entry], used, life)
  {
    forall h | h in rows
      ensures made[h].family in families && made[h].family != family
      ensures RowTold(rows[h], made[h], h in used, families[made[h].family].ended, life)
    {}
  }

  lemma IssueTold(q: Tables, t: History, c: Context, h0: string, now: int, life: Lifetimes)
    requires Told(q, t, life) && h0 !in q.tokens && c.familyId !in q.families
    ensures Told(q.Issue(c, h0, now, life), Step(t, Issue(c, h0, now), life, InSql).0, life)
  {
    IssuedRows(q.tokens, t.tokens, t.families, t.used, h0, c.familyId, Opened(c, now, [], false), now, life);
    var rows, families := q.Issue(c, h0, now, life).families, t.families[c.familyId := Opened(c, now, [], false)];
    forall f | f in rows ensures FamilyTold(rows[f], families[f], life) && families[f].context.familyId == f {
      if f != c.familyId { assert FamilyTold(q.families[f], t.families[f], life); }
    }
  }

  /** What is recorded changes no token. */
  lemma ReplacedFamily(
    rows: map<string, TokenRow>, made: map<string, Made>, families: map<string, Opened>, used: set<string>,
    family: string, entry: Opened, life: Lifetimes)
    requires RowsTold(rows, made, families, used, life) && family in families
    requires entry.ended == families[family].ended
    ensures RowsTold(rows, made, families[family := entry], used, life)
  {
    forall h | h in rows
      ensures RowTold(rows[h], made[h], h in used, families[family := entry][made[h].family].ended, life)
    {
      assert RowTold(rows[h], made[h], h in used, families[made[h].family].ended, life);
    }
  }

  lemma RecordTold(q: Tables, t: History, family: string, claims: Claims, life: Lifetimes)
    requires Told(q, t, life)
    ensures Told(q.Record(family, claims), Step(t, Record(family, claims), life, InSql).0, life)
  {
    if family in q.families && !t.families[family].ended {
      var entry := t.families[family].(claims := t.families[family].claims + [claims]);
      assert FamilyTold(q.families[family], t.families[family], life);
      ReplacedFamily(q.tokens, t.tokens, t.families, t.used, family, entry, life);
      var rows := q.Record(family, claims).families;
      forall f | f in rows ensures FamilyTold(rows[f], t.families[family := entry][f], life) {
        assert FamilyTold(q.families[f], t.families[f], life);
      }
    } else if family in q.families {
      assert FamilyTold(q.families[family], t.families[family], life);
    }
  }

  /** The row of a token is presented in time exactly if the history says so. */
  lemma PresentedTold(q: Tables, t: History, h: string, service: string, now: int, life: Lifetimes)
    requires Told(q, t, life) && q.Valid()
    ensures Good(t, h, service, now, life, InSql) <==>
      && h in q.tokens && q.FamilyOf(h).context.serviceCode == service
      && !q.tokens[h].revoked && !q.FamilyOf(h).revoked && !q.Expired(h, now)
    ensures h in q.tokens ==>
      && t.tokens[h].family == q.tokens[h].familyId && (h in t.used <==> q.tokens[h].consumed)
      && FamilyTold(q.FamilyOf(h), t.families[t.tokens[h].family], life)
  {
    if h in q.tokens {
      assert RowTold(q.tokens[h], t.tokens[h], h in t.used, t.families[t.tokens[h].family].ended, life);
      assert FamilyTold(q.FamilyOf(h), t.families[t.tokens[h].family], life);
    }
  }

  lemma RotatedRows(
    rows: map<string, TokenRow>, made: map<string, Made>, families: map<string, Opened>, used: set<string>,
    h0: string, next: string, now: int, life: Lifetimes)
    requires RowsTold(rows, made, families, used, life) && h0 in rows && next !in rows && next !in used
    requires !families[made[h0].family].ended
    ensures
      var rows' := rows[h0 := rows[h0].(consumed := true)]
                       [next := TokenRow(rows[h0].familyId, now + life.tokenTtl, false, false)];
      RowsTold(rows', made[next := Made(made[h0].family, now)], families, used + {h0}, life)
  {
    forall h | h in rows
      ensures made[h].family in families
      ensures RowTold(rows[h], made[h], h in used, families[made[h].family].ended, life)
    {}
  }

  lemma RotateTold(q: Tables, t: History, op: Op, life: Lifetimes)
    requires Told(q, t, life) && q.Valid() && op.Rotate? && op.next !in q.tokens
    ensures SqlStep(q, op, life).1 == Step(t, op, life, InSql).1
    ensures Told(SqlStep(q, op, life).0, Step(t, op, life, InSql).0, life)
  {
    PresentedTold(q, t, op.h, op.service, op.now, life);
    if Good(t, op.h, op.service, op.now, life, InSql) {
      if op.h in t.used {
        EndedTold(q, t, {t.tokens[op.h].family}, life);
      } else {
        RotatedRows(q.tokens, t.tokens, t.families, t.used, op.h, op.next, op.now, life);
      }
    }
  }

  lemma RevokeTokenTold(q: Tables, t: History, h: string, service: string, life: Lifetimes)
    requires Told(q, t, life) && q.Valid()
    ensures var (q', revoked) := q.RevokeToken(h, service);
      var (t', reply) := Step(t, RevokeToken(h, service), life, InSql);
      Told(q', t', life) && reply == Answer(revoked)
  {
    if h in q.tokens {
      PresentedTold(q, t, h, service, 0, life);
      EndedTold(q, t, {t.tokens[h].family}, life);
    }
  }

  lemma SqlStepTold(q: Tables, t: History, op: Op, life: Lifetimes)
    requires Told(q, t, life) && q.Valid() && SqlFresh(q, op)
    ensures SqlStep(q, op, life).1 == Step(t, op, life, InSql).1
    ensures Told(SqlStep(q, op, life).0, Step(t, op, life, InSql).0, life)
  {
    match op
    case Issue(c, h, now) => IssueTold(q, t, c, h, now, life);
    case Rotate(_, _, _, _, _) => RotateTold(q, t, op, life);
    case Record(family, claims) => RecordTold(q, t, family, claims, life);
    case RevokeByConsent(id) => CoveredTold(q, t, (c: Context) => c.consentId == id, ConsentOf(t, id), life);
    case RevokeToken(h, service) => RevokeTokenTold(q, t, h, service, life);
    case RevokeByService(code) => CoveredTold(q, t, (c: Context) => c.serviceCode == code, ServiceOf(t, code), life);
    case RevokeBySubject(filter) => CoveredTold(q, t, (c: Context) => filter.Covers(c), SubjectOf(t, filter), life);
  }

  lemma {:induction false} SqlRunTold(q: Tables, t: History, ops: seq<Op>, life: Lifetimes)
    requires Told(q, t, life) && q.Valid() && SqlFreshRun(q, ops, life)
    ensures SqlRun(q, ops, life).1 == Run(t, ops, life, InSql).1
    ensures Told(SqlRun(q, ops, life).0, Run(t, ops, life, InSql).0, life)
    decreases ops
  {
    if ops != [] {
      SqlStepTold(q, t, ops[0], life);
      SqlStepValid(q, ops[0], life);
      SqlRunTold(SqlStep(q, ops[0], life).0, Step(t, ops[0], life, InSql).0, ops[1..], life);
    }
  }

  /** From empty tables, the SQL form gives exactly the replies that the history tells. */
  lemma SqlAnswers(ops: seq<Op>, life: Lifetimes)
    requires SqlFreshRun(NoTables, ops, life)
    ensures SqlRun(NoTables, ops, life).1 == Run(NOTHING, ops, life, InSql).1
  {
    SqlRunTold(NoTables, NOTHING, ops, life);
  }

  /** After any run a rotation in SQL rotates, or detects a reuse, if and only if the token is known and the
      service's, its family has not been ended, and it is before the making of the token plus the token
      lifetime and before the opening of the family plus the absolute one. */
  lemma SqlRotatesIff(
    ops: seq<Op>, h: string, service: string, next: string, nextToken: string, now: int, life: Lifetimes)
    requires SqlFreshRun(NoTables, ops, life)
    ensures SqlRun(NoTables, ops, life).0.Valid()
    ensures
      var q, t := SqlRun(NoTables, ops, life).0, Run(NOTHING, ops, life, InSql).0;
      var reply := q.Rotate(h, service, next, nextToken, now, life).1;
      && (reply != Invalid <==>
            && h in t.tokens && t.tokens[h].family in t.families
            && var entry := t.families[t.tokens[h].family];
            && entry.context.serviceCode == service && !entry.ended
            && now < t.tokens[h].at + life.tokenTtl && now < entry.at + life.absoluteTtl)
      && (reply.ReuseDetected? ==> h in t.used) && (reply.Rotated? ==> h !in t.used)
  {
    SqlRunTold(NoTables, NOTHING, ops, life);
    var q, t := SqlRun(NoTables, ops, life).0, Run(NOTHING, ops, life, InSql).0;
    ToldIsValid(q, t, life);
    PresentedTold(q, t, h, service, now, life);
  }

  // ---------------------------------------------------------------- memory form

  predicate TokenTold(token: MemoryToken, made: Made, entry: Opened, used: bool, life: Lifetimes) {
    token == MemoryToken(entry.context, entry.at + life.tokenTtl, used, false) && entry.context.familyId == made.family
  }

  ghost predicate TokensTold(
    tokens: map<string, MemoryToken>, made: map<string, Made>, families: map<string, Opened>, used: set<string>,
    life: Lifetimes)
  {
    && tokens.Keys == made.Keys
    && forall h <- tokens ::
         made[h].family in families && TokenTold(tokens[h], made[h], families[made[h].family], h in used, life)
  }

  /** Every family has a token. */
  ghost predicate AllHaveTokens(tokens: map<string, MemoryToken>, families: map<string, Opened>) {
    forall f {:trigger HasToken(tokens, f)} :: f in families ==> HasToken(tokens, f)
  }

  predicate OwnIds(families: map<string, Opened>) {
    forall f <- families :: families[f].context.familyId == f
  }

  ghost predicate EndsHeld(revoked: set<string>, families: map<string, Opened>) {
    forall f :: f in revoked <==> f in families && families[f].ended
  }

  ghost predicate ClaimsHeld(known: map<string, seq<Claims>>, families: map<string, Opened>) {
    forall f <- families :: !families[f].ended ==> families[f].claims == if f in known then known[f] else []
  }

  /** The store holds what the history tells. */
  ghost predicate Held(m: Memory, t: History, life: Lifetimes) {
    && TokensTold(m.tokens, t.tokens, t.families, t.used, life) && AllHaveTokens(m.tokens, t.families)
    && OwnIds(t.families) && EndsHeld(m.revokedFamilies, t.families) && ClaimsHeld(m.familyClaims, t.families)
    && t.used <= t.tokens.Keys
  }

  lemma EndedTokens(tokens: map<string, MemoryToken>, t: History, ids: set<string>, life: Lifetimes)
    requires TokensTold(tokens, t.tokens, t.families, t.used, life)
    ensures TokensTold(tokens, t.tokens, Ended(t, ids).families, t.used, life)
  {
    var families := Ended(t, ids).families;
    forall h | h in tokens ensures TokenTold(tokens[h], t.tokens[h], families[t.tokens[h].family], h in t.used, life) {
      assert TokenTold(tokens[h], t.tokens[h], t.families[t.tokens[h].family], h in t.used, life);
    }
  }

  lemma EndedHeld(m: Memory, t: History, ids: set<string>, life: Lifetimes)
    requires Held(m, t, life) && ids <= t.families.Keys
    ensures Held(m.(revokedFamilies := m.revokedFamilies + ids), Ended(t, ids), life)
  {
    EndedTokens(m.tokens, t, ids, life);
  }

  lemma CoveredHeld(m: Memory, t: History, covers: Context -> bool, ids: set<string>, life: Lifetimes)
    requires Held(m, t, life) && forall f :: f in ids <==> f in t.families && covers(t.families[f].context)
    ensures Held(m.RevokeWhere(covers), Ended(t, ids), life)
  {
    forall f ensures f in ids <==> f in m.FamiliesOf(covers) {
      if f in ids {
        assert HasToken(m.tokens, f);
        var h :| h in m.tokens && m.tokens[h].context.familyId == f;
        assert TokenTold(m.tokens[h], t.tokens[h], t.families[t.tokens[h].family], h in t.used, life);
      }
      if f in m.FamiliesOf(covers) {
        var h :| h in m.tokens && covers(m.tokens[h].context) && m.tokens[h].context.familyId == f;
        assert TokenTold(m.tokens[h], t.tokens[h], t.families[t.tokens[h].family], h in t.used, life);
      }
    }
    assert ids == m.FamiliesOf(covers);
    EndedHeld(m, t, ids, life);
  }

  lemma StillHaveTokens(
    tokens: map<string, MemoryToken>, tokens': map<string, MemoryToken>, families: map<string, Opened>)
    requires AllHaveTokens(tokens, families)
    requires forall h <- tokens :: h in tokens' && tokens'[h].context == tokens[h].context
    ensures AllHaveTokens(tokens', families)
  {
    forall f | f in families ensures HasToken(tokens', f) {
      assert HasToken(tokens, f);
      var h :| h in tokens && tokens[h].context.familyId == f;
      assert tokens'[h].context.familyId == f;
    }
  }

  lemma IssuedTokens(
    tokens: map<string, MemoryToken>, made: map<string, Made>, families: map<string, Opened>, used: set<string>,
    h0: string, c: Context, now: int, life: Lifetimes)
    requires TokensTold(tokens, made, families, used, life)
    requires h0 !in tokens && h0 !in used && c.familyId !in families
    ensures TokensTold(
      tokens[h0 := MemoryToken(c, now + life.tokenTtl, false, false)], made[h0 := Made(c.familyId, now)],
      families[c.familyId := Opened(c, now, [], false)], used, life)
  {
    forall h | h in tokens
      ensures made[h].family in families && made[h].family != c.familyId
      ensures TokenTold(tokens[h], made[h], families[made[h].family], h in used, life)
    {}
  }

  lemma OpenedHasToken(
    tokens: map<string, MemoryToken>, families: map<string, Opened>, h0: string, token: MemoryToken, entry: Opened)
    requires AllHaveTokens(tokens, families) && h0 !in tokens && token.context == entry.context
    ensures AllHaveTokens(tokens[h0 := token], families[token.context.familyId := entry])
  {
    StillHaveTokens(tokens, tokens[h0 := token], families);
    assert tokens[h0 := token][h0].context.familyId == token.context.familyId;
    assert HasToken(tokens[h0 := token], token.context.familyId);
  }

  lemma NewFamily(m: Memory, t: History, c: Context, h0: string, now: int, life: Lifetimes)
    requires Held(m, t, life) && MemoryFresh(m, Issue(c, h0, now))
    ensures c.familyId !in t.families && c.familyId !in m.familyClaims && h0 !in m.tokens && h0 !in t.used
  {
    assert c.familyId in t.families ==> HasToken(m.tokens, c.familyId);
  }

  lemma IssueFamiliesHeld(m: Memory, t: History, c: Context, h0: string, now: int, life: Lifetimes)
    requires AllHaveTokens(m.tokens, t.families) && OwnIds(t.families)
    requires EndsHeld(m.revokedFamilies, t.families) && ClaimsHeld(m.familyClaims, t.families)
    requires c.familyId !in t.families && c.familyId !in m.familyClaims && h0 !in m.tokens
    ensures
      var m', families := m.Issue(c, h0, now, life), t.families[c.familyId := Opened(c, now, [], false)];
      && AllHaveTokens(m'.tokens, families) && OwnIds(families)
      && EndsHeld(m'.revokedFamilies, families) && ClaimsHeld(m'.familyClaims, families)
  {
    var token, entry := MemoryToken(c, now + life.tokenTtl, false, false), Opened(c, now, [], false);
    OpenedHasToken(m.tokens, t.families, h0, token, entry);
    OpenedHeld(m.familyClaims, m.revokedFamilies, t.families, c.familyId, entry);
  }

  lemma IssueHeld(m: Memory, t: History, c: Context, h0: string, now: int, life: Lifetimes)
    requires Held(m, t, life)
    requires c.familyId !in t.families && c.familyId !in m.familyClaims && h0 !in m.tokens && h0 !in t.used
    ensures Held(m.Issue(c, h0, now, life), Step(t, Issue(c, h0, now), life, InMemory).0, life)
  {
    var t' := History(
      t.tokens[h0 := Made(c.familyId, now)], t.families[c.familyId := Opened(c, now, [], false)], t.used);
    IssuedTokens(m.tokens, t.tokens, t.families, t.used, h0, c, now, life);
    IssueFamiliesHeld(m, t, c, h0, now, life);
    HeldOfParts(m.Issue(c, h0, now, life), t', life);
  }

  lemma HeldOfParts(m: Memory, t: History, life: Lifetimes)
    requires TokensTold(m.tokens, t.tokens, t.families, t.used, life) && AllHaveTokens(m.tokens, t.families)
    requires OwnIds(t.families) && EndsHeld(m.revokedFamilies, t.families) && ClaimsHeld(m.familyClaims, t.families)
    requires t.used <= t.tokens.Keys
    ensures Held(m, t, life)
  {
  }

  lemma OpenedHeld(
    known: map<string, seq<Claims>>, revoked: set<string>, families: map<string, Opened>, family: string, entry: Opened)
    requires ClaimsHeld(known, families) && EndsHeld(revoked, families)
    requires OwnIds(families) && entry.context.familyId == family
    requires family !in known && family !in families && entry.claims == [] && !entry.ended
    ensures ClaimsHeld(known, families[family := entry]) && EndsHeld(revoked, families[family := entry])
    ensures OwnIds(families[family := entry])
  {
  }

  lemma RecordedTokens(
    tokens: map<string, MemoryToken>, made: map<string, Made>, families: map<string, Opened>, used: set<string>,
    family: string, claims: seq<Claims>, life: Lifetimes)
    requires TokensTold(tokens, made, families, used, life) && family in families
    ensures TokensTold(tokens, made, families[family := families[family].(claims := claims)], used, life)
  {
    var families' := families[family := families[family].(claims := claims)];
    forall h | h in tokens ensures TokenTold(tokens[h], made[h], families'[made[h].family], h in used, life) {
      assert TokenTold(tokens[h], made[h], families[made[h].family], h in used, life);
    }
  }

  lemma RecordedClaims(known: map<string, seq<Claims>>, families: map<string, Opened>, family: string, claims: Claims)
    requires ClaimsHeld(known, families)
    ensures
      var known' := known[family := (if family in known then known[family] else []) + [claims]];
      ClaimsHeld(known', if family !in families || families[family].ended then families
        else families[family := families[family].(claims := families[family].claims + [claims])])
  {
  }

  lemma RecordHeld(m: Memory, t: History, family: string, claims: Claims, life: Lifetimes)
    requires Held(m, t, life)
    ensures Held(m.Record(family, claims), Step(t, Record(family, claims), life, InMemory).0, life)
  {
    RecordedClaims(m.familyClaims, t.families, family, claims);
    if family in t.families && !t.families[family].ended {
      RecordedTokens(
        m.tokens, t.tokens, t.families, t.used, family, t.families[family].claims + [claims], life);
    }
  }

  lemma RotatedTokens(
    tokens: map<string, MemoryToken>, made: map<string, Made>, families: map<string, Opened>, used: set<string>,
    h0: string, next: string, now: int, life: Lifetimes)
    requires TokensTold(tokens, made, families, used, life)
    requires h0 in tokens && next !in tokens && next !in used && h0 !in used
    ensures TokensTold(tokens[h0 := tokens[h0].(consumed := true)][next := tokens[h0]],
                       made[next := Made(made[h0].family, now)], families, used + {h0}, life)
  {
    forall h | h in tokens
      ensures made[h].family in families
      ensures TokenTold(tokens[h], made[h], families[made[h].family], h in used, life)
    {}
  }

  lemma PresentedHeld(m: Memory, t: History, h: string, service: string, now: int, life: Lifetimes)
    requires Held(m, t, life)
    ensures Good(t, h, service, now, life, InMemory) <==>
      && h in m.tokens && m.tokens[h].context.serviceCode == service && !m.Expired(h, now)
      && !m.tokens[h].revoked && m.tokens[h].context.familyId !in m.revokedFamilies
    ensures h in m.tokens ==> TokenTold(m.tokens[h], t.tokens[h], t.families[t.tokens[h].family], h in t.used, life)
  {
    if h in m.tokens {
      assert TokenTold(m.tokens[h], t.tokens[h], t.families[t.tokens[h].family], h in t.used, life);
    }
  }

  lemma RotatedHeld(m: Memory, t: History, h0: string, next: string, now: int, life: Lifetimes)
    requires Held(m, t, life) && h0 in m.tokens && next !in m.tokens && h0 !in t.used
    ensures
      var tokens' := m.tokens[h0 := m.tokens[h0].(consumed := true)][next := m.tokens[h0]];
      Held(m.(tokens := tokens'),
           t.(tokens := t.tokens[next := Made(t.tokens[h0].family, now)], used := t.used + {h0}), life)
  {
    RotatedTokens(m.tokens, t.tokens, t.families, t.used, h0, next, now, life);
    StillHaveTokens(m.tokens, m.tokens[h0 := m.tokens[h0].(consumed := true)][next := m.tokens[h0]], t.families);
  }

  lemma RotateHeld(m: Memory, t: History, op: Op, life: Lifetimes)
    requires Held(m, t, life) && op.Rotate? && op.next !in m.tokens
    ensures MemoryStep(m, op, life).1 == Step(t, op, life, InMemory).1
    ensures Held(MemoryStep(m, op, life).0, Step(t, op, life, InMemory).0, life)
  {
    PresentedHeld(m, t, op.h, op.service, op.now, life);
    if Good(t, op.h, op.service, op.now, life, InMemory) {
      RotateGoodHeld(m, t, op, life);
    }
  }

  lemma RotateGoodHeld(m: Memory, t: History, op: Op, life: Lifetimes)
    requires Held(m, t, life) && op.Rotate? && op.next !in m.tokens
    requires Good(t, op.h, op.service, op.now, life, InMemory) && op.h in m.tokens
    requires m.tokens[op.h].context.serviceCode == op.service && !m.Expired(op.h, op.now)
    requires !m.tokens[op.h].revoked && m.tokens[op.h].context.familyId !in m.revokedFamilies
    requires TokenTold(
      m.tokens[op.h], t.tokens[op.h], t.families[t.tokens[op.h].family], op.h in t.used, life)
    ensures MemoryStep(m, op, life).1 == Step(t, op, life, InMemory).1
    ensures Held(MemoryStep(m, op, life).0, Step(t, op, life, InMemory).0, life)
  {
    if op.h in t.used {
      EndedHeld(m, t, {t.tokens[op.h].family}, life);
    } else {
      RotatedHeld(m, t, op.h, op.next, op.now, life);
    }
  }

  lemma RevokeTokenHeld(m: Memory, t: History, h: string, service: string, life: Lifetimes)
    requires Held(m, t, life)
    ensures var (m', revoked) := m.RevokeToken(h, service);
      var (t', reply) := Step(t, RevokeToken(h, service), life, InMemory);
      Held(m', t', life) && reply == Answer(revoked)
  {
    if h in m.tokens {
      PresentedHeld(m, t, h, service, 0, life);
      EndedHeld(m, t, {t.tokens[h].family}, life);
    }
  }

  lemma MemoryStepHeld(m: Memory, t: History, op: Op, life: Lifetimes)
    requires Held(m, t, life) && MemoryFresh(m, op)
    ensures MemoryStep(m, op, life).1 == Step(t, op, life, InMemory).1
    ensures Held(MemoryStep(m, op, life).0, Step(t, op, life, InMemory).0, life)
  {
    match op
    case Issue(c, h, now) => NewFamily(m, t, c, h, now, life); IssueHeld(m, t, c, h, now, life);
    case Rotate(_, _, _, _, _) => RotateHeld(m, t, op, life);
    case Record(family, claims) => RecordHeld(m, t, family, claims, life);
    case RevokeByConsent(id) => CoveredHeld(m, t, (c: Context) => c.consentId == id, ConsentOf(t, id), life);
    case RevokeToken(h, service) => RevokeTokenHeld(m, t, h, service, life);
    case RevokeByService(code) => CoveredHeld(m, t, (c: Context) => c.serviceCode == code, ServiceOf(t, code), life);
    case RevokeBySubject(filter) => CoveredHeld(m, t, (c: Context) => filter.Covers(c), SubjectOf(t, filter), life);
  }

  lemma {:induction false} MemoryRunHeld(m: Memory, t: History, ops: seq<Op>, life: Lifetimes)
    requires Held(m, t, life) && MemoryFreshRun(m, ops, life)
    ensures MemoryRun(m, ops, life).1 == Run(t, ops, life, InMemory).1
    ensures Held(MemoryRun(m, ops, life).0, Run(t, ops, life, InMemory).0, life)
    decreases ops
  {
    if ops != [] {
      MemoryStepHeld(m, t, ops[0], life);
      MemoryRunHeld(MemoryStep(m, ops[0], life).0, Step(t, ops[0], life, InMemory).0, ops[1..], life);
    }
  }

  /** From an empty store, the memory form gives exactly the replies that the history tells. */
  lemma MemoryAnswers(ops: seq<Op>, life: Lifetimes)
    requires MemoryFreshRun(NoMemory, ops, life)
    ensures MemoryRun(NoMemory, ops, life).1 == Run(NOTHING, ops, life, InMemory).1
  {
    MemoryRunHeld(NoMemory, NOTHING, ops, life);
  }

  /** After any run a rotation in memory rotates, or detects a reuse, if and only if the token is known and the
      service's, its family has not been ended, and it is before the opening of the family plus the lifetime. */
  lemma MemoryRotatesIff(
    ops: seq<Op>, h: string, service: string, next: string, nextToken: string, now: int, life: Lifetimes)
    requires MemoryFreshRun(NoMemory, ops, life)
    ensures
      var m, t := MemoryRun(NoMemory, ops, life).0, Run(NOTHING, ops, life, InMemory).0;
      var reply := m.Rotate(h, service, next, nextToken, now).1;
      && (reply != Invalid <==>
            && h in t.tokens && t.tokens[h].family in t.families
            && var entry := t.families[t.tokens[h].family];
            entry.context.serviceCode == service && !entry.ended && now < entry.at + life.tokenTtl)
      && (reply.ReuseDetected? ==> h in t.used) && (reply.Rotated? ==> h !in t.used)
  {
    MemoryRunHeld(NoMemory, NOTHING, ops, life);
    PresentedHeld(MemoryRun(NoMemory, ops, life).0, Run(NOTHING, ops, life, InMemory).0, h, service, now, life);
  }
}
