/** Whole-run properties of the refresh-token store: its memory and SQL forms answer
    alike, every family is one chain with one usable end, and revocation is final. */
module RefreshTokenRuns {
  import opened RefreshTokenStore

  datatype Op =
    | Issue(context: Context, h: string, now: int)
    | Rotate(h: string, service: string, next: string, nextToken: string, now: int)
    | Record(family: string, claims: Claims)
    | RevokeByConsent(consentId: string)
    | RevokeToken(h: string, service: string)
    | RevokeByService(serviceCode: string)
    | RevokeBySubject(filter: SubjectFilter)

  datatype Reply = Done | Rotation(rotation: RefreshTokenStore.Rotation) | Answer(revoked: bool)

  function MemoryStep(m: Memory, op: Op, life: Lifetimes): (Memory, Reply) {
    match op
    case Issue(context, h, now) => (m.Issue(context, h, now, life), Done)
    case Rotate(h, service, next, nextToken, now) =>
      var (m', r) := m.Rotate(h, service, next, nextToken, now); (m', Rotation(r))
    case Record(family, claims) => (m.Record(family, claims), Done)
    case RevokeByConsent(id) => (m.RevokeWhere((c: Context) => c.consentId == id), Done)
    case RevokeToken(h, service) => var (m', b) := m.RevokeToken(h, service); (m', Answer(b))
    case RevokeByService(code) => (m.RevokeWhere((c: Context) => c.serviceCode == code), Done)
    case RevokeBySubject(filter) => (m.RevokeWhere((c: Context) => filter.Covers(c)), Done)
  }

  function SqlStep(q: Tables, op: Op, life: Lifetimes): (Tables, Reply)
    requires q.Valid()
  {
    match op
    case Issue(context, h, now) => (q.Issue(context, h, now, life), Done)
    case Rotate(h, service, next, nextToken, now) =>
      var (q', r) := q.Rotate(h, service, next, nextToken, now, life); (q', Rotation(r))
    case Record(family, claims) => (q.Record(family, claims), Done)
    case RevokeByConsent(id) => (q.RevokeWhere((c: Context) => c.consentId == id), Done)
    case RevokeToken(h, service) => var (q', b) := q.RevokeToken(h, service); (q', Answer(b))
    case RevokeByService(code) => (q.RevokeWhere((c: Context) => c.serviceCode == code), Done)
    case RevokeBySubject(filter) => (q.RevokeWhere((c: Context) => filter.Covers(c)), Done)
  }

  /** Random tokens and family ids are new when they are drawn. */
  predicate MemoryFresh(m: Memory, op: Op) {
    match op
    case Issue(context, h, _) =>
      && h !in m.tokens && context.familyId !in m.familyClaims
      && forall k <- m.tokens :: m.tokens[k].context.familyId != context.familyId
    case Rotate(_, _, next, _, _) => next !in m.tokens
    case _ => true
  }

  // ------------------------------------------------- memory and SQL agree

  predicate SameToken(token: MemoryToken, row: TokenRow, family: FamilyRow) {
    && token.context == family.context
    && token.consumed == row.consumed
    && !token.revoked
    && row.revoked == family.revoked
  }

  ghost predicate SameTokens(tokens: map<string, MemoryToken>, q: Tables) {
    && tokens.Keys == q.tokens.Keys
    && forall h <- tokens :: q.tokens[h].familyId in q.families && SameToken(tokens[h], q.tokens[h], q.FamilyOf(h))
  }

  ghost predicate SameRevocations(revoked: set<string>, families: map<string, FamilyRow>) {
    forall f :: f in revoked <==> f in families && families[f].revoked
  }

  ghost predicate HasToken(tokens: map<string, MemoryToken>, f: string) {
    exists h :: h in tokens && tokens[h].context.familyId == f
  }

  ghost predicate Inhabited(tokens: map<string, MemoryToken>, families: map<string, FamilyRow>) {
    forall f {:trigger HasToken(tokens, f)} :: f in families ==> HasToken(tokens, f)
  }

  /** Claims are recorded alike until the family is revoked; SQL then stops recording. */
  predicate SameFamilyClaims(row: FamilyRow, known: seq<Claims>) {
    if row.revoked then row.claims <= known else row.claims == known
  }

  ghost predicate SameClaims(m: Memory, families: map<string, FamilyRow>) {
    forall f <- families :: SameFamilyClaims(families[f], m.ClaimsOf(f))
  }

  /** The two forms hold the same tokens; an SQL token is revoked exactly when its family
      is, and those families are the memory form's set. Expiry times are not related. */
  ghost predicate Simulates(m: Memory, q: Tables) {
    && q.Valid()
    && SameTokens(m.tokens, q)
    && SameRevocations(m.revokedFamilies, q.families)
    && Inhabited(m.tokens, q.families)
    && SameClaims(m, q.families)
  }

  /** The two forms see the presented token as expired, or neither does. */
  predicate SameExpiry(m: Memory, q: Tables, op: Op) {
    op.Rotate? && op.h in m.tokens && op.h in q.tokens && q.tokens[op.h].familyId in q.families
      && m.tokens[op.h].context.serviceCode == op.service
      && m.tokens[op.h].context.familyId !in m.revokedFamilies
    ==> m.Expired(op.h, op.now) == q.Expired(op.h, op.now)
  }

  lemma RotateAgrees(m: Memory, q: Tables, op: Op, life: Lifetimes)
    requires Simulates(m, q) && op.Rotate?
    ensures MemoryStep(m, op, life).1 == SqlStep(q, op, life).1 <==> SameExpiry(m, q, op)
  {
  }

  lemma StillInhabited(
    tokens: map<string, MemoryToken>, tokens': map<string, MemoryToken>, families: map<string, FamilyRow>)
    requires Inhabited(tokens, families)
    requires forall h <- tokens :: h in tokens' && tokens'[h].context == tokens[h].context
    ensures Inhabited(tokens', families)
  {
    forall f | f in families ensures HasToken(tokens', f) {
      assert HasToken(tokens, f);
      var h :| h in tokens && tokens[h].context.familyId == f;
      assert tokens'[h].context.familyId == f;
    }
  }

  lemma RevocationKeepsTokens(tokens: map<string, MemoryToken>, q: Tables, ids: set<string>)
    requires q.Valid() && SameTokens(tokens, q) && Inhabited(tokens, q.families)
    ensures SameTokens(tokens, q.RevokeFamilies(ids)) && Inhabited(tokens, q.RevokeFamilies(ids).families)
  {
    assert q.RevokeFamilies(ids).families.Keys == q.families.Keys;
  }

  lemma RevocationKeepsClaims(m: Memory, q: Tables, ids: set<string>)
    requires SameClaims(m, q.families)
    ensures SameClaims(m, q.RevokeFamilies(ids).families)
  {
    forall f | f in q.families ensures SameFamilyClaims(q.RevokeFamilies(ids).families[f], m.ClaimsOf(f)) {
      assert SameFamilyClaims(q.families[f], m.ClaimsOf(f));
    }
  }

  /** Adding families to the memory form's set does what the two UPDATE statements do. */
  lemma FamiliesRevokedAlike(m: Memory, q: Tables, ids: set<string>)
    requires Simulates(m, q) && ids <= q.families.Keys
    ensures Simulates(m.(revokedFamilies := m.revokedFamilies + ids), q.RevokeFamilies(ids))
  {
    RevocationKeepsTokens(m.tokens, q, ids);
    RevocationKeepsClaims(m, q, ids);
  }

  /** A bulk revocation covers the same families in both forms. */
  lemma RevocationSimulates(m: Memory, q: Tables, covers: Context -> bool)
    requires Simulates(m, q)
    ensures Simulates(m.RevokeWhere(covers), q.RevokeWhere(covers))
  {
    var ids := set f | f in q.families && covers(q.families[f].context);
    forall f ensures f in ids <==> f in m.FamiliesOf(covers) {
      if f in ids {
        assert HasToken(m.tokens, f);
        var h :| h in m.tokens && m.tokens[h].context.familyId == f;
        assert covers(m.tokens[h].context);
      }
    }
    assert ids == m.FamiliesOf(covers);
    FamiliesRevokedAlike(m, q, ids);
  }

  lemma RotationKeepsTokens(
    tokens: map<string, MemoryToken>, q: Tables, h0: string, next: string, now: int, life: Lifetimes)
    requires q.Valid() && SameTokens(tokens, q) && Inhabited(tokens, q.families)
    requires h0 in tokens && next !in tokens && !q.FamilyOf(h0).revoked
    ensures
      var tokens' := tokens[h0 := tokens[h0].(consumed := true)][next := tokens[h0].(consumed := false)];
      var rows' := q.tokens[h0 := q.tokens[h0].(consumed := true)]
                           [next := TokenRow(q.tokens[h0].familyId, now + life.tokenTtl, false, false)];
      SameTokens(tokens', q.(tokens := rows')) && Inhabited(tokens', q.families)
  {
    var tokens' := tokens[h0 := tokens[h0].(consumed := true)][next := tokens[h0].(consumed := false)];
    StillInhabited(tokens, tokens', q.families);
  }

  lemma RotateSimulates(m: Memory, q: Tables, op: Op, life: Lifetimes)
    requires Simulates(m, q) && op.Rotate? && MemoryFresh(m, op) && SameExpiry(m, q, op)
    ensures Simulates(MemoryStep(m, op, life).0, SqlStep(q, op, life).0)
  {
    RotateAgrees(m, q, op, life);
    match MemoryStep(m, op, life).1.rotation
    case Invalid =>
    case Rotated(_, _) => RotationKeepsTokens(m.tokens, q, op.h, op.next, op.now, life);
    case ReuseDetected(_, _) => FamiliesRevokedAlike(m, q, {q.tokens[op.h].familyId});
  }

  lemma IssueKeepsTokens(m: Memory, q: Tables, c: Context, h0: string, now: int, life: Lifetimes)
    requires q.Valid() && SameTokens(m.tokens, q) && Inhabited(m.tokens, q.families) && c.familyId !in q.families
    ensures SameTokens(m.Issue(c, h0, now, life).tokens, q.Issue(c, h0, now, life))
    ensures Inhabited(m.Issue(c, h0, now, life).tokens, q.Issue(c, h0, now, life).families)
      || h0 in m.tokens
  {
    var m', q' := m.Issue(c, h0, now, life), q.Issue(c, h0, now, life);
    forall h | h in m'.tokens
      ensures q'.tokens[h].familyId in q'.families && SameToken(m'.tokens[h], q'.tokens[h], q'.FamilyOf(h))
    {
      if h != h0 { assert q'.FamilyOf(h) == q.FamilyOf(h); }
    }
    if h0 !in m.tokens {
      StillInhabited(m.tokens, m'.tokens, q.families);
      assert m'.tokens[h0].context.familyId == c.familyId;
    }
  }

  lemma IssueSimulates(m: Memory, q: Tables, c: Context, h0: string, now: int, life: Lifetimes)
    requires Simulates(m, q)
    requires h0 !in m.tokens && c.familyId !in q.families && c.familyId !in m.familyClaims
    ensures Simulates(m.Issue(c, h0, now, life), q.Issue(c, h0, now, life))
  {
    IssueKeepsTokens(m, q, c, h0, now, life);
  }

  /** Recording claims changes neither tokens nor revocations. */
  lemma RecordKeepsTokens(tokens: map<string, MemoryToken>, q: Tables, family: string, claims: Claims)
    requires q.Valid() && SameTokens(tokens, q) && Inhabited(tokens, q.families)
    ensures SameTokens(tokens, q.Record(family, claims)) && Inhabited(tokens, q.Record(family, claims).families)
  {
    var q' := q.Record(family, claims);
    assert q'.families.Keys == q.families.Keys;
  }

  lemma RecordKeepsClaims(m: Memory, q: Tables, family: string, claims: Claims)
    requires SameClaims(m, q.families)
    ensures SameClaims(m.Record(family, claims), q.Record(family, claims).families)
  {
    var m', q' := m.Record(family, claims), q.Record(family, claims);
    forall f | f in q'.families ensures SameFamilyClaims(q'.families[f], m'.ClaimsOf(f)) {
      assert SameFamilyClaims(q.families[f], m.ClaimsOf(f));
    }
  }

  lemma RecordSimulates(m: Memory, q: Tables, family: string, claims: Claims)
    requires Simulates(m, q)
    ensures Simulates(m.Record(family, claims), q.Record(family, claims))
  {
    RecordKeepsTokens(m.tokens, q, family, claims);
    RecordKeepsClaims(m, q, family, claims);
  }

  lemma FreshFamily(m: Memory, q: Tables, family: string)
    requires Simulates(m, q) && forall k <- m.tokens :: m.tokens[k].context.familyId != family
    ensures family !in q.families
  {
    assert family in q.families ==> HasToken(m.tokens, family);
  }

  lemma StepSimulates(m: Memory, q: Tables, op: Op, life: Lifetimes)
    requires Simulates(m, q) && MemoryFresh(m, op) && SameExpiry(m, q, op)
    ensures MemoryStep(m, op, life).1 == SqlStep(q, op, life).1
    ensures Simulates(MemoryStep(m, op, life).0, SqlStep(q, op, life).0)
  {
    match op
    case Issue(c, h, now) =>
      FreshFamily(m, q, c.familyId);
      IssueSimulates(m, q, c, h, now, life);
    case Rotate(_, _, _, _, _) =>
      RotateAgrees(m, q, op, life);
      RotateSimulates(m, q, op, life);
    case Record(family, claims) => RecordSimulates(m, q, family, claims);
    case RevokeByConsent(id) => RevocationSimulates(m, q, (c: Context) => c.consentId == id);
    case RevokeByService(code) => RevocationSimulates(m, q, (c: Context) => c.serviceCode == code);
    case RevokeBySubject(filter) => RevocationSimulates(m, q, (c: Context) => filter.Covers(c));
    case RevokeToken(h, service) =>
      if h in m.tokens { FamiliesRevokedAlike(m, q, {q.tokens[h].familyId}); }
  }

  function MemoryRun(m: Memory, ops: seq<Op>, life: Lifetimes): (Memory, seq<Reply>)
    decreases ops
  {
    if ops == [] then (m, [])
    else
      var (m1, r) := MemoryStep(m, ops[0], life);
      var (m2, rs) := MemoryRun(m1, ops[1..], life);
      (m2, [r] + rs)
  }

  lemma SqlStepValid(q: Tables, op: Op, life: Lifetimes)
    requires q.Valid()
    ensures SqlStep(q, op, life).0.Valid()
  {
  }

  function SqlRun(q: Tables, ops: seq<Op>, life: Lifetimes): (Tables, seq<Reply>)
    requires q.Valid()
    decreases ops
  {
    if ops == [] then (q, [])
    else
      var (q1, r) := SqlStep(q, ops[0], life);
      SqlStepValid(q, ops[0], life);
      var (q2, rs) := SqlRun(q1, ops[1..], life);
      (q2, [r] + rs)
  }

  predicate MemoryFreshRun(m: Memory, ops: seq<Op>, life: Lifetimes)
    decreases ops
  {
    ops == [] || (MemoryFresh(m, ops[0]) && MemoryFreshRun(MemoryStep(m, ops[0], life).0, ops[1..], life))
  }

  /** At every rotation of the run the two forms agree on whether the token has expired. */
  ghost predicate SameExpiryRun(m: Memory, q: Tables, ops: seq<Op>, life: Lifetimes)
    requires q.Valid()
    decreases ops
  {
    ops == [] || (
      && SameExpiry(m, q, ops[0])
      && (SqlStepValid(q, ops[0], life);
          SameExpiryRun(MemoryStep(m, ops[0], life).0, SqlStep(q, ops[0], life).0, ops[1..], life)))
  }

  lemma {:induction false} RunSimulates(m: Memory, q: Tables, ops: seq<Op>, life: Lifetimes)
    requires Simulates(m, q)
    requires MemoryFreshRun(m, ops, life) && SameExpiryRun(m, q, ops, life)
    ensures MemoryRun(m, ops, life).1 == SqlRun(q, ops, life).1
    ensures Simulates(MemoryRun(m, ops, life).0, SqlRun(q, ops, life).0)
    decreases ops
  {
    if ops != [] {
      StepSimulates(m, q, ops[0], life);
      SqlStepValid(q, ops[0], life);
      RunSimulates(MemoryStep(m, ops[0], life).0, SqlStep(q, ops[0], life).0, ops[1..], life);
    }
  }

  /** From related states the replies of a whole run are equal if and only if, at every rotation of a live
      token, both forms see it expired or both do not. */
  lemma {:induction false} RepliesAgreeIff(m: Memory, q: Tables, ops: seq<Op>, life: Lifetimes)
    requires Simulates(m, q) && MemoryFreshRun(m, ops, life)
    ensures MemoryRun(m, ops, life).1 == SqlRun(q, ops, life).1 <==> SameExpiryRun(m, q, ops, life)
    decreases ops
  {
    if ops != [] {
      SqlStepValid(q, ops[0], life);
      if ops[0].Rotate? { RotateAgrees(m, q, ops[0], life); }
      RunsUnroll(m, q, ops, life);
      if SameExpiry(m, q, ops[0]) {
        StepSimulates(m, q, ops[0], life);
        RepliesAgreeIff(MemoryStep(m, ops[0], life).0, SqlStep(q, ops[0], life).0, ops[1..], life);
      }
    }
  }

  /** Equal replies to a run are equal first replies and equal replies to the rest. */
  lemma RunsUnroll(m: Memory, q: Tables, ops: seq<Op>, life: Lifetimes)
    requires q.Valid() && ops != []
    ensures SqlStep(q, ops[0], life).0.Valid()
    ensures MemoryRun(m, ops, life).1 == SqlRun(q, ops, life).1 <==>
      && MemoryStep(m, ops[0], life).1 == SqlStep(q, ops[0], life).1
      && MemoryRun(MemoryStep(m, ops[0], life).0, ops[1..], life).1 ==
           SqlRun(SqlStep(q, ops[0], life).0, ops[1..], life).1
  {
    OneMore(m, q, ops, life);
    var a, b := MemoryRun(m, ops, life).1, SqlRun(q, ops, life).1;
    assert a[1..] == MemoryRun(MemoryStep(m, ops[0], life).0, ops[1..], life).1;
    assert b[1..] == SqlRun(SqlStep(q, ops[0], life).0, ops[1..], life).1;
    assert a == [a[0]] + a[1..] && b == [b[0]] + b[1..];
  }

  // --------------------------------------------- when the expiry times agree

  const NoMemory: Memory := Memory(map[], map[], {})
  const NoTables: Tables := Tables(map[], map[])

  function TimeOf(op: Op, clock: int): int {
    match op
    case Issue(_, _, now) => now
    case Rotate(_, _, _, _, now) => now
    case _ => clock
  }

  predicate TokenDeadline(token: MemoryToken, row: TokenRow, family: FamilyRow, life: Lifetimes, clock: int) {
    var issued := family.absoluteExpiresAt - life.absoluteTtl;
    issued <= clock && token.expiresAt == issued + life.tokenTtl <= row.expiresAt
  }

  /** In memory a rotated token keeps its family's first expiry; in SQL it gets a new one. */
  ghost predicate Deadlines(tokens: map<string, MemoryToken>, q: Tables, life: Lifetimes, clock: int)
    requires q.Valid() && tokens.Keys == q.tokens.Keys
  {
    forall h <- tokens :: TokenDeadline(tokens[h], q.tokens[h], q.FamilyOf(h), life, clock)
  }

  /** The clock never goes back, and no family is rotated after its first token's lifetime
      or its absolute lifetime has passed. */
  predicate EarlyRun(m: Memory, ops: seq<Op>, life: Lifetimes, clock: int)
    decreases ops
  {
    ops == [] || (
      && clock <= TimeOf(ops[0], clock)
      && (ops[0].Rotate? && ops[0].h in m.tokens ==>
            ops[0].now < m.tokens[ops[0].h].expiresAt - life.tokenTtl + Min(life.tokenTtl, life.absoluteTtl))
      && EarlyRun(MemoryStep(m, ops[0], life).0, ops[1..], life, TimeOf(ops[0], clock)))
  }

  function Min(a: int, b: int): int {
    if a <= b then a else b
  }

  lemma IssueKeepsDeadlines(m: Memory, q: Tables, c: Context, h0: string, now: int, life: Lifetimes, clock: int)
    requires q.Valid() && m.tokens.Keys == q.tokens.Keys && Deadlines(m.tokens, q, life, clock)
    requires c.familyId !in q.families && clock <= now
    ensures q.Issue(c, h0, now, life).Valid()
    ensures Deadlines(m.Issue(c, h0, now, life).tokens, q.Issue(c, h0, now, life), life, now)
  {
    var q' := q.Issue(c, h0, now, life);
    forall h | h in q'.tokens ensures h == h0 || (h in q.tokens && q'.FamilyOf(h) == q.FamilyOf(h)) {}
  }

  ghost predicate SameTimes(q: Tables, q': Tables) {
    && q'.tokens.Keys == q.tokens.Keys
    && (forall h <- q.tokens ::
          q'.tokens[h].familyId == q.tokens[h].familyId && q'.tokens[h].expiresAt == q.tokens[h].expiresAt)
    && (forall f <- q.families ::
          f in q'.families && q'.families[f].absoluteExpiresAt == q.families[f].absoluteExpiresAt)
  }

  /** Recording and revoking change no expiry time. */
  lemma StepKeepsTimes(q: Tables, op: Op, life: Lifetimes)
    requires q.Valid() && !op.Issue? && (op.Rotate? ==> !SqlStep(q, op, life).1.rotation.Rotated?)
    ensures SameTimes(q, SqlStep(q, op, life).0)
  {
  }

  lemma TimesKept(tokens: map<string, MemoryToken>, q: Tables, q': Tables, life: Lifetimes, clock: int, clock': int)
    requires q.Valid() && q'.Valid() && tokens.Keys == q.tokens.Keys && Deadlines(tokens, q, life, clock)
    requires SameTimes(q, q') && clock <= clock'
    ensures Deadlines(tokens, q', life, clock')
  {
    forall h | h in tokens ensures TokenDeadline(tokens[h], q'.tokens[h], q'.FamilyOf(h), life, clock') {
      assert TokenDeadline(tokens[h], q.tokens[h], q.FamilyOf(h), life, clock);
    }
  }

  lemma RotationKeepsDeadlines(
    tokens: map<string, MemoryToken>, q: Tables, h0: string, next: string, now: int, life: Lifetimes, clock: int)
    requires q.Valid() && tokens.Keys == q.tokens.Keys && Deadlines(tokens, q, life, clock)
    requires h0 in tokens && next !in tokens && clock <= now
    ensures
      var tokens' := tokens[h0 := tokens[h0].(consumed := true)][next := tokens[h0].(consumed := false)];
      var rows' := q.tokens[h0 := q.tokens[h0].(consumed := true)]
                           [next := TokenRow(q.tokens[h0].familyId, now + life.tokenTtl, false, false)];
      q.(tokens := rows').Valid() && Deadlines(tokens', q.(tokens := rows'), life, now)
  {
    var tokens' := tokens[h0 := tokens[h0].(consumed := true)][next := tokens[h0].(consumed := false)];
    forall h | h in tokens'
      ensures var h1 := if h in tokens then h else h0;
        TokenDeadline(tokens[h1], q.tokens[h1], q.FamilyOf(h1), life, clock)
    {}
  }

  lemma StepKeepsDeadlines(m: Memory, q: Tables, op: Op, life: Lifetimes, clock: int)
    requires Simulates(m, q) && MemoryFresh(m, op) && SameExpiry(m, q, op)
    requires Deadlines(m.tokens, q, life, clock) && clock <= TimeOf(op, clock)
    ensures SqlStep(q, op, life).0.Valid()
    ensures MemoryStep(m, op, life).0.tokens.Keys == SqlStep(q, op, life).0.tokens.Keys
    ensures Deadlines(MemoryStep(m, op, life).0.tokens, SqlStep(q, op, life).0, life, TimeOf(op, clock))
  {
    SqlStepValid(q, op, life);
    if op.Issue? {
      FreshFamily(m, q, op.context.familyId);
      IssueKeepsDeadlines(m, q, op.context, op.h, op.now, life, clock);
    } else {
      if op.Rotate? { RotateAgrees(m, q, op, life); }
      if op.Rotate? && SqlStep(q, op, life).1.rotation.Rotated? {
        RotationKeepsDeadlines(m.tokens, q, op.h, op.next, op.now, life, clock);
      } else {
        StepKeepsTimes(q, op, life);
        TimesKept(m.tokens, q, SqlStep(q, op, life).0, life, clock, TimeOf(op, clock));
      }
    }
  }

  lemma {:induction false} EarlyRunSameExpiry(m: Memory, q: Tables, ops: seq<Op>, life: Lifetimes, clock: int)
    requires Simulates(m, q) && Deadlines(m.tokens, q, life, clock)
    requires MemoryFreshRun(m, ops, life) && EarlyRun(m, ops, life, clock)
    ensures SameExpiryRun(m, q, ops, life)
    decreases ops
  {
    if ops != [] {
      assert SameExpiry(m, q, ops[0]);
      StepSimulates(m, q, ops[0], life);
      StepKeepsDeadlines(m, q, ops[0], life, clock);
      EarlyRunSameExpiry(
        MemoryStep(m, ops[0], life).0, SqlStep(q, ops[0], life).0, ops[1..], life, TimeOf(ops[0], clock));
    }
  }

  /** From empty stores, the two forms give the same replies to every call of a run
      in which no family is rotated after its first token's lifetime. */
  lemma StoresAgreeEarly(ops: seq<Op>, life: Lifetimes, clock: int)
    requires MemoryFreshRun(NoMemory, ops, life) && EarlyRun(NoMemory, ops, life, clock)
    ensures MemoryRun(NoMemory, ops, life).1 == SqlRun(NoTables, ops, life).1
  {
    assert Simulates(NoMemory, NoTables);
    EarlyRunSameExpiry(NoMemory, NoTables, ops, life, clock);
    RunSimulates(NoMemory, NoTables, ops, life);
  }

  /** Thirty and ninety days, in milliseconds. */
  const DEFAULTS := Lifetimes(2_592_000_000, 7_776_000_000)

  /** Past that lifetime they part: SQL still rotates a token that memory calls expired. */
  lemma StoresPartLater(c: Context)
    ensures
      var ops := [Issue(c, "a", 0), Rotate("a", c.serviceCode, "b", "b", 60_000),
                  Rotate("b", c.serviceCode, "d", "d", 2_592_030_000)];
      && MemoryFreshRun(NoMemory, ops, DEFAULTS)
      && |MemoryRun(NoMemory, ops, DEFAULTS).1| == |SqlRun(NoTables, ops, DEFAULTS).1| == 3
      && MemoryRun(NoMemory, ops, DEFAULTS).1[2] == Rotation(Invalid)
      && SqlRun(NoTables, ops, DEFAULTS).1[2] == Rotation(Rotated("d", c))
  {
    var life := DEFAULTS;
    var ops := [Issue(c, "a", 0), Rotate("a", c.serviceCode, "b", "b", 60_000),
                Rotate("b", c.serviceCode, "d", "d", 2_592_030_000)];
    var m1, q1 := MemoryStep(NoMemory, ops[0], life).0, SqlStep(NoTables, ops[0], life).0;
    var m2, q2 := MemoryStep(m1, ops[1], life).0, SqlStep(q1, ops[1], life).0;
    assert ops[1..][1..] == ops[2..] && ops[2..][1..] == [];
    OneMore(m2, q2, ops[2..], life);
    OneMore(m1, q1, ops[1..], life);
    OneMore(NoMemory, NoTables, ops, life);
  }

  /** One unrolling of both runs. */
  lemma OneMore(m: Memory, q: Tables, ops: seq<Op>, life: Lifetimes)
    requires q.Valid() && ops != []
    ensures SqlStep(q, ops[0], life).0.Valid()
    ensures MemoryRun(m, ops, life).1 ==
      [MemoryStep(m, ops[0], life).1] + MemoryRun(MemoryStep(m, ops[0], life).0, ops[1..], life).1
    ensures SqlRun(q, ops, life).1 ==
      [SqlStep(q, ops[0], life).1] + SqlRun(SqlStep(q, ops[0], life).0, ops[1..], life).1
    ensures MemoryFreshRun(m, ops, life) <==>
      MemoryFresh(m, ops[0]) && MemoryFreshRun(MemoryStep(m, ops[0], life).0, ops[1..], life)
  {
    SqlStepValid(q, ops[0], life);
  }

  /** The claims a subject-wide revocation hands over, in memory and in SQL. */
  ghost predicate MemoryHandsOver(m: Memory, filter: SubjectFilter, c: Claims) {
    exists h :: h in m.tokens && filter.Covers(m.tokens[h].context) && c in m.ClaimsOf(m.tokens[h].context.familyId)
  }

  ghost predicate SqlHandsOver(q: Tables, filter: SubjectFilter, c: Claims) {
    exists f :: f in q.families && filter.Covers(q.families[f].context) && c in q.families[f].claims
  }

  /** Memory hands over what SQL does, and besides only claims recorded for a family already revoked. */
  lemma SubjectClaimsAgree(m: Memory, q: Tables, filter: SubjectFilter, c: Claims)
    requires Simulates(m, q)
    ensures SqlHandsOver(q, filter, c) ==> MemoryHandsOver(m, filter, c)
    ensures MemoryHandsOver(m, filter, c) && !SqlHandsOver(q, filter, c) ==>
      exists f :: f in m.revokedFamilies && c in m.ClaimsOf(f)
  {
    if SqlHandsOver(q, filter, c) {
      var f :| f in q.families && filter.Covers(q.families[f].context) && c in q.families[f].claims;
      assert HasToken(m.tokens, f) && SameFamilyClaims(q.families[f], m.ClaimsOf(f));
      var h :| h in m.tokens && m.tokens[h].context.familyId == f;
      assert SameToken(m.tokens[h], q.tokens[h], q.FamilyOf(h));
    }
    if MemoryHandsOver(m, filter, c) && !SqlHandsOver(q, filter, c) {
      var h :| h in m.tokens && filter.Covers(m.tokens[h].context) && c in m.ClaimsOf(m.tokens[h].context.familyId);
      assert SameFamilyClaims(q.FamilyOf(h), m.ClaimsOf(m.tokens[h].context.familyId));
    }
  }
}
