/** Revoked access tokens: a table that survives restarts, and the set that verification looks into.

    `exp` is in seconds, everything else in milliseconds; one clock serves the table and the process. */
module AccessTokenRevocation {
  import opened Strings
  import Refreshing = RefreshTokenStore

  const RETENTION := 604_800_000

  datatype Revocations = Revocations(expiresAt: map<string, int>, revoked: set<string>) {

    /** The row is inserted, or keeps its expiry if it is there; then the id is remembered. */
    function Record(jti: string, exp: int): Revocations {
      Revocations(
        if jti in expiresAt then expiresAt else expiresAt[jti := exp * 1000],
        revoked + if Trim(jti) != "" then {Trim(jti)} else {})
    }

    /** A new process loads the rows that have not expired, and then deletes the ones long expired. */
    function Restart(loadedAt: int, prunedAt: int): Revocations {
      Revocations(
        map j | j in expiresAt && expiresAt[j] >= prunedAt - RETENTION :: expiresAt[j],
        set j | j in expiresAt && expiresAt[j] > loadedAt && Trim(j) != "" :: Trim(j))
    }

    /** A correctly signed token with these claims passes; the schema trims its id. */
    predicate Verifies(jti: string, exp: int, now: int) {
      exp > now / 1000 && Trim(jti) !in revoked
    }
  }

  /** `ServiceAccessTokenRevocationStore` with the process's set of revoked ids. */
  class Store {
    var expiresAt: map<string, int>
    var revokedTokenIds: set<string>

    constructor ()
      ensures View() == Revocations(map[], {})
    {
      expiresAt, revokedTokenIds := map[], {};
    }

    ghost function View(): Revocations
      reads this
    {
      Revocations(expiresAt, revokedTokenIds)
    }

    /** `rememberRevokedServiceAccessTokenIds` */
    method Remember(jtis: seq<string>)
      modifies this`revokedTokenIds
      ensures revokedTokenIds == old(revokedTokenIds) + set j | j in jtis && Trim(j) != "" :: Trim(j)
    {
      var i := 0;
      while i < |jtis|
        invariant 0 <= i <= |jtis|
        invariant revokedTokenIds == old(revokedTokenIds) + set j | j in jtis[..i] && Trim(j) != "" :: Trim(j)
      {
        var normalized := Trim(jtis[i]);
        if normalized != "" { revokedTokenIds := revokedTokenIds + {normalized}; }
        assert jtis[..i + 1] == jtis[..i] + [jtis[i]];
        i := i + 1;
      }
      assert jtis[..i] == jtis;
    }

    method RecordRevocation(jti: string, exp: int)
      modifies this
      ensures View() == old(View()).Record(jti, exp)
    {
      if jti !in expiresAt { expiresAt := expiresAt[jti := exp * 1000]; }
      Remember([jti]);
    }

    method LoadActiveRevocations(now: int)
      modifies this`revokedTokenIds
      ensures revokedTokenIds ==
        old(revokedTokenIds) + set j | j in expiresAt && expiresAt[j] > now && Trim(j) != "" :: Trim(j)
    {
      var pending := set j | j in expiresAt && expiresAt[j] > now;
      var rows: seq<string> := [];
      while pending != {}
        invariant forall j :: j in expiresAt && expiresAt[j] > now <==> j in pending || j in rows
        decreases pending
      {
        var j :| j in pending;
        rows := rows + [j];
        pending := pending - {j};
      }
      Remember(rows);
    }

    method PruneExpiredRevocations(now: int)
      modifies this`expiresAt
      ensures expiresAt == map j | j in old(expiresAt) && old(expiresAt)[j] >= now - RETENTION :: old(expiresAt)[j]
    {
      expiresAt := map j | j in expiresAt && expiresAt[j] >= now - RETENTION :: expiresAt[j];
    }

    /** The process starts again, with an empty set, and initializes its store. */
    method Restart(loadedAt: int, prunedAt: int)
      modifies this
      ensures View() == old(View()).Restart(loadedAt, prunedAt)
    {
      revokedTokenIds := {};
      LoadActiveRevocations(loadedAt);
      PruneExpiredRevocations(prunedAt);
    }
  }

  // ------------------------------------------------------------------ every run

  datatype Op = Recording(jti: string, exp: int, now: int) | Restarting(loadedAt: int, prunedAt: int) {
    function Begins(): int {
      match this
      case Recording(_, _, now) => now
      case Restarting(loadedAt, _) => loadedAt
    }

    function Ends(): int {
      match this
      case Recording(_, _, now) => now
      case Restarting(_, prunedAt) => prunedAt
    }
  }

  function Step(s: Revocations, op: Op): Revocations {
    match op
    case Recording(jti, exp, _) => s.Record(jti, exp)
    case Restarting(loadedAt, prunedAt) => s.Restart(loadedAt, prunedAt)
  }

  function Run(s: Revocations, ops: seq<Op>): Revocations
    decreases ops
  {
    if ops == [] then s else Run(Step(s, ops[0]), ops[1..])
  }

  /** The clock does not go back. */
  ghost predicate Timed(ops: seq<Op>, from: int, to: int)
    decreases ops
  {
    if ops == [] then from <= to
    else from <= ops[0].Begins() <= ops[0].Ends() && Timed(ops[1..], ops[0].Ends(), to)
  }

  /** Whoever revokes the id names the expiry of the one token that has it. */
  ghost predicate OneToken(ops: seq<Op>, jti: string, exp: int) {
    forall i :: 0 <= i < |ops| && ops[i].Recording? && ops[i].jti == jti ==> ops[i].exp == exp
  }

  /** The revocation is on record and in force, unless the token has expired. */
  predicate InForce(s: Revocations, jti: string, exp: int, clock: int) {
    exp * 1000 <= clock || (jti in s.revoked && jti in s.expiresAt && s.expiresAt[jti] == exp * 1000)
  }

  lemma StepInForce(s: Revocations, op: Op, jti: string, exp: int, clock: int)
    requires InForce(s, jti, exp, clock) && IsTrimmed(jti) && jti != ""
    requires clock <= op.Begins() <= op.Ends()
    ensures InForce(Step(s, op), jti, exp, op.Ends())
  {
    TrimmedIsFixed(jti);
  }

  lemma {:induction false} RunInForce(s: Revocations, ops: seq<Op>, jti: string, exp: int, clock: int, later: int)
    requires InForce(s, jti, exp, clock) && IsTrimmed(jti) && jti != "" && Timed(ops, clock, later)
    ensures InForce(Run(s, ops), jti, exp, later)
    decreases ops
  {
    if ops != [] {
      StepInForce(s, ops[0], jti, exp, clock);
      RunInForce(Step(s, ops[0]), ops[1..], jti, exp, ops[0].Ends(), later);
    }
  }

  /** The row of the id, if there is one, has the expiry of its token. */
  predicate RowAgrees(s: Revocations, jti: string, exp: int) {
    jti in s.expiresAt ==> s.expiresAt[jti] == exp * 1000
  }

  /** A revoked token never verifies again, over any number of restarts, loads and prunings: its id is in
      the set, or the token has expired. */
  lemma RevokedNeverVerifies(s: Revocations, jti: string, exp: int, now: int, ops: seq<Op>, later: int)
    requires IsTrimmed(jti) && jti != "" && RowAgrees(s, jti, exp) && Timed(ops, now, later)
    ensures !Run(s.Record(jti, exp), ops).Verifies(jti, exp, later)
  {
    TrimmedIsFixed(jti);
    RunInForce(s.Record(jti, exp), ops, jti, exp, now, later);
  }

  /** Rows agree with their tokens in every run in which ids are not shared. */
  lemma {:induction false} RunKeepsRows(s: Revocations, ops: seq<Op>, jti: string, exp: int)
    requires RowAgrees(s, jti, exp) && OneToken(ops, jti, exp)
    ensures RowAgrees(Run(s, ops), jti, exp)
    decreases ops
  {
    if ops != [] {
      assert OneToken(ops[1..], jti, exp);
      RunKeepsRows(Step(s, ops[0]), ops[1..], jti, exp);
    }
  }

  /** A restart refuses exactly the ids of the rows that have not expired, and keeps exactly the rows that are not
      more than seven days past their expiry. */
  lemma RestartExactly(s: Revocations, loadedAt: int, prunedAt: int, id: string)
    ensures var s' := s.Restart(loadedAt, prunedAt);
      && (id in s'.revoked <==> id != "" && exists j :: j in s.expiresAt && Trim(j) == id && loadedAt < s.expiresAt[j])
      && (id in s'.expiresAt <==> id in s.expiresAt && prunedAt <= s.expiresAt[id] + 7 * 24 * 60 * 60 * 1000)
      && (id in s'.expiresAt ==> s'.expiresAt[id] == s.expiresAt[id])
  {
    if id in s.Restart(loadedAt, prunedAt).revoked {
      var j :| j in s.expiresAt && s.expiresAt[j] > loadedAt && Trim(j) != "" && Trim(j) == id;
    }
  }

  /** Over a run that does not record the id again, its row stays, as it is, if and only if no restart prunes
      more than seven days after its expiry. */
  lemma {:induction false} RowStaysIff(s: Revocations, ops: seq<Op>, jti: string)
    requires jti in s.expiresAt && forall op <- ops :: op.Recording? ==> op.jti != jti
    ensures jti in Run(s, ops).expiresAt <==>
      forall i :: 0 <= i < |ops| && ops[i].Restarting? ==>
        ops[i].prunedAt <= s.expiresAt[jti] + 7 * 24 * 60 * 60 * 1000
    ensures jti in Run(s, ops).expiresAt ==> Run(s, ops).expiresAt[jti] == s.expiresAt[jti]
    decreases ops
  {
    if ops != [] {
      var s', rest := Step(s, ops[0]), ops[1..];
      if ops[0].Restarting? { RestartExactly(s, ops[0].loadedAt, ops[0].prunedAt, jti); }
      assert forall i :: 0 <= i < |rest| ==> rest[i] == ops[i + 1];
      if jti in s'.expiresAt {
        RowStaysIff(s', rest, jti);
      } else {
        StaysGone(s', rest, jti);
      }
    }
  }

  lemma {:induction false} StaysGone(s: Revocations, ops: seq<Op>, jti: string)
    requires jti !in s.expiresAt && forall op <- ops :: op.Recording? ==> op.jti != jti
    ensures jti !in Run(s, ops).expiresAt
    decreases ops
  {
    if ops != [] { StaysGone(Step(s, ops[0]), ops[1..], jti); }
  }

  /** A token that nobody revoked is not refused as revoked. */
  lemma {:induction false} OnlyRevokedAreRefused(s: Revocations, ops: seq<Op>, jti: string)
    requires IsTrimmed(jti) && jti != "" && jti !in s.revoked
    requires forall j <- s.expiresAt :: Trim(j) != jti
    requires forall i :: 0 <= i < |ops| && ops[i].Recording? ==> Trim(ops[i].jti) != jti
    ensures jti !in Run(s, ops).revoked
    decreases ops
  {
    if ops != [] {
      OnlyRevokedAreRefused(Step(s, ops[0]), ops[1..], jti);
    }
  }

  // ------------------------------------------------ reuse of a refresh token

  /** What the token handler does with the claims that a detected reuse returns. */
  function RecordAll(s: Revocations, claims: seq<Refreshing.Claims>): Revocations
    decreases claims
  {
    if claims == [] then s else RecordAll(s.Record(claims[0].jti, claims[0].exp), claims[1..])
  }

  lemma {:induction false} RecordAllInForce(s: Revocations, claims: seq<Refreshing.Claims>, i: nat, clock: int)
    requires i < |claims| && IsTrimmed(claims[i].jti) && claims[i].jti != ""
    requires RowAgrees(s, claims[i].jti, claims[i].exp)
    requires forall c <- claims :: c.jti == claims[i].jti ==> c.exp == claims[i].exp
    ensures InForce(RecordAll(s, claims), claims[i].jti, claims[i].exp, clock)
    decreases claims
  {
    var c, s' := claims[i], s.Record(claims[0].jti, claims[0].exp);
    TrimmedIsFixed(c.jti);
    if i == 0 {
      RecordAllKeeps(s', claims[1..], c.jti, c.exp, clock);
    } else {
      assert claims[1..][i - 1] == c && forall d <- claims[1..] :: d in claims;
      RecordAllInForce(s', claims[1..], i - 1, clock);
    }
  }

  lemma {:induction false} RecordAllKeeps(
    s: Revocations, claims: seq<Refreshing.Claims>, jti: string, exp: int, clock: int)
    requires InForce(s, jti, exp, clock)
    ensures InForce(RecordAll(s, claims), jti, exp, clock)
    decreases claims
  {
    if claims != [] { RecordAllKeeps(s.Record(claims[0].jti, claims[0].exp), claims[1..], jti, exp, clock); }
  }

  /** After a consumed refresh token is presented again, no access token recorded for its family ever
      verifies again. */
  lemma ReuseEndsFamily(
      m: Refreshing.Memory, h: string, service: string, next: string, nextToken: string, s: Revocations, i: nat,
      now: int, ops: seq<Op>, later: int)
    requires m.Rotate(h, service, next, nextToken, now).1.ReuseDetected? && Timed(ops, now, later)
    requires h in m.tokens && i < |m.ClaimsOf(m.tokens[h].context.familyId)|
    requires var claims := m.ClaimsOf(m.tokens[h].context.familyId);
      && IsTrimmed(claims[i].jti) && claims[i].jti != "" && RowAgrees(s, claims[i].jti, claims[i].exp)
      && forall c <- claims :: c.jti == claims[i].jti ==> c.exp == claims[i].exp
    ensures
      var claims := m.Rotate(h, service, next, nextToken, now).1.accessTokenClaims;
      && claims == m.ClaimsOf(m.tokens[h].context.familyId)
      && !Run(RecordAll(s, claims), ops).Verifies(claims[i].jti, claims[i].exp, later)
  {
    var claims := m.ClaimsOf(m.tokens[h].context.familyId);
    TrimmedIsFixed(claims[i].jti);
    RecordAllInForce(s, claims, i, now);
    RunInForce(RecordAll(s, claims), ops, claims[i].jti, claims[i].exp, now, later);
  }
}
