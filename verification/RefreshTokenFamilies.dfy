/** What every run keeps of a refresh-token family: it is one chain of rotations whose
    last token alone is unused, all its tokens carry the issued context, and once it is
    revoked no token of it rotates again. */
module RefreshTokenFamilies {
  import opened RefreshTokenStore
  import opened RefreshTokenRuns

  /** A token seen as a link of its family's chain, whichever form stores it. */
  datatype Link = Link(family: string, consumed: bool)

  function MemoryLinks(tokens: map<string, MemoryToken>): map<string, Link> {
    map h | h in tokens :: Link(tokens[h].context.familyId, tokens[h].consumed)
  }

  function SqlLinks(tokens: map<string, TokenRow>): map<string, Link> {
    map h | h in tokens :: Link(tokens[h].familyId, tokens[h].consumed)
  }

  /** `chain` lists the family's tokens, oldest first: all but the last are consumed. */
  ghost predicate IsChain(links: map<string, Link>, family: string, chain: seq<string>) {
    && chain != []
    && (forall h :: h in chain <==> h in links && links[h].family == family)
    && (forall i, j :: 0 <= i < j < |chain| ==> chain[i] != chain[j])
    && (forall i :: 0 <= i < |chain| && chain[i] in links ==> (links[chain[i]].consumed <==> i < |chain| - 1))
  }

  ghost predicate HasChain(links: map<string, Link>, family: string) {
    exists chain :: IsChain(links, family, chain)
  }

  /** Every family is a chain. */
  ghost predicate Chained(links: map<string, Link>) {
    forall h <- links :: HasChain(links, links[h].family)
  }

  /** A family never has two unused tokens. */
  lemma OneUnusedToken(links: map<string, Link>, h: string, h': string)
    requires Chained(links) && h in links && h' in links && links[h].family == links[h'].family
    requires !links[h].consumed && !links[h'].consumed
    ensures h == h'
  {
    assert HasChain(links, links[h].family);
    var chain :| IsChain(links, links[h].family, chain);
    assert h in chain && h' in chain;
    var i :| 0 <= i < |chain| && chain[i] == h;
    var j :| 0 <= j < |chain| && chain[j] == h';
  }

  /** What a store call may do to the links. */
  datatype Move = Stay | Start(h: string, family: string) | Extend(h: string, next: string)

  predicate Allowed(links: map<string, Link>, move: Move) {
    match move
    case Stay => true
    case Start(h, family) => h !in links && forall k <- links :: links[k].family != family
    case Extend(h, next) => h in links && !links[h].consumed && next !in links
  }

  function Moved(links: map<string, Link>, move: Move): map<string, Link>
    requires Allowed(links, move)
  {
    match move
    case Stay => links
    case Start(h, family) => links[h := Link(family, false)]
    case Extend(h, next) => links[h := links[h].(consumed := true)][next := Link(links[h].family, false)]
  }

  /** Rotating the last token of a chain makes the new token its last. */
  lemma ExtendChain(links: map<string, Link>, h: string, next: string, chain: seq<string>)
    requires Allowed(links, Extend(h, next)) && IsChain(links, links[h].family, chain)
    ensures IsChain(Moved(links, Extend(h, next)), links[h].family, chain + [next])
    ensures h == chain[|chain| - 1]
  {
    assert h in chain;
    var i :| 0 <= i < |chain| && chain[i] == h;
    var links', longer := Moved(links, Extend(h, next)), chain + [next];
    forall k ensures k in longer <==> k in links' && links'[k].family == links[h].family {
      assert k in longer <==> k in chain || k == next;
    }
    forall k | 0 <= k < |chain| ensures chain[k] in links {
      assert chain[k] in chain;
    }
  }

  /** Chains only grow at their end. */
  lemma MoveExtendsChain(
    links: map<string, Link>, move: Move, family: string, chain: seq<string>) returns (longer: seq<string>)
    requires Allowed(links, move) && IsChain(links, family, chain)
    ensures chain <= longer && IsChain(Moved(links, move), family, longer)
  {
    assert forall k :: 0 <= k < |chain| ==> chain[k] in chain;
    if move.Extend? && links[move.h].family == family {
      ExtendChain(links, move.h, move.next, chain);
      longer := chain + [move.next];
    } else {
      longer := chain;
      assert move.Start? ==> move.family != family by { assert chain[0] in chain; }
    }
  }

  lemma MoveKeepsChains(links: map<string, Link>, move: Move)
    requires Chained(links) && Allowed(links, move)
    ensures Chained(Moved(links, move))
  {
    var links' := Moved(links, move);
    forall k | k in links' ensures HasChain(links', links'[k].family) {
      var family := links'[k].family;
      if move.Start? && family == move.family {
        assert IsChain(links', family, [move.h]);
      } else {
        assert links[if k in links then k else move.h].family == family;
        assert HasChain(links, family);
        var chain :| IsChain(links, family, chain);
        var longer := MoveExtendsChain(links, move, family, chain);
      }
    }
  }

  /** The move a call makes in the memory form. */
  function MemoryMove(m: Memory, op: Op, life: Lifetimes): Move {
    match op
    case Issue(c, h, _) => Start(h, c.familyId)
    case Rotate(h, _, next, _, _) => if MemoryStep(m, op, life).1.rotation.Rotated? then Extend(h, next) else Stay
    case _ => Stay
  }

  function SqlMove(q: Tables, op: Op, life: Lifetimes): Move
    requires q.Valid()
  {
    match op
    case Issue(c, h, _) => Start(h, c.familyId)
    case Rotate(h, _, next, _, _) => if SqlStep(q, op, life).1.rotation.Rotated? then Extend(h, next) else Stay
    case _ => Stay
  }

  predicate SqlFresh(q: Tables, op: Op) {
    match op
    case Issue(context, h, _) => h !in q.tokens && context.familyId !in q.families
    case Rotate(_, _, next, _, _) => next !in q.tokens
    case _ => true
  }

  lemma MemoryStepMoves(m: Memory, op: Op, life: Lifetimes)
    requires MemoryFresh(m, op)
    ensures Allowed(MemoryLinks(m.tokens), MemoryMove(m, op, life))
    ensures MemoryLinks(MemoryStep(m, op, life).0.tokens) == Moved(MemoryLinks(m.tokens), MemoryMove(m, op, life))
  {
  }

  lemma RevokingStays(q: Tables, ids: set<string>)
    ensures SqlLinks(q.RevokeFamilies(ids).tokens) == SqlLinks(q.tokens)
  {
  }

  lemma SqlRotateMoves(q: Tables, op: Op, life: Lifetimes)
    requires q.Valid() && SqlFresh(q, op) && op.Rotate?
    ensures Allowed(SqlLinks(q.tokens), SqlMove(q, op, life))
    ensures SqlLinks(SqlStep(q, op, life).0.tokens) == Moved(SqlLinks(q.tokens), SqlMove(q, op, life))
  {
    if op.h in q.tokens { RevokingStays(q, {q.tokens[op.h].familyId}); }
  }

  lemma SqlStepMoves(q: Tables, op: Op, life: Lifetimes)
    requires q.Valid() && SqlFresh(q, op)
    ensures Allowed(SqlLinks(q.tokens), SqlMove(q, op, life))
    ensures SqlLinks(SqlStep(q, op, life).0.tokens) == Moved(SqlLinks(q.tokens), SqlMove(q, op, life))
  {
    if op.Rotate? {
      SqlRotateMoves(q, op, life);
    } else if op.Issue? {
      assert forall h <- q.tokens :: q.tokens[h].familyId in q.families;
    }
  }

  /** Every token of a family carries the same context. */
  ghost predicate OneContext(tokens: map<string, MemoryToken>) {
    forall h, k :: h in tokens && k in tokens && tokens[h].context.familyId == tokens[k].context.familyId
      ==> tokens[h].context == tokens[k].context
  }

  /** A token once stored keeps its context. */
  ghost predicate ContextsKept(tokens: map<string, MemoryToken>, tokens': map<string, MemoryToken>) {
    forall h <- tokens :: h in tokens' && tokens'[h].context == tokens[h].context
  }

  lemma MemoryStepKeepsContexts(m: Memory, op: Op, life: Lifetimes)
    requires MemoryFresh(m, op) && OneContext(m.tokens)
    ensures OneContext(MemoryStep(m, op, life).0.tokens)
    ensures ContextsKept(m.tokens, MemoryStep(m, op, life).0.tokens)
  {
  }

  /** In every reachable state of the memory form, each family is a chain of one context. */
  lemma {:induction false} MemoryRunChains(m: Memory, ops: seq<Op>, life: Lifetimes)
    requires MemoryFreshRun(m, ops, life) && Chained(MemoryLinks(m.tokens)) && OneContext(m.tokens)
    ensures Chained(MemoryLinks(MemoryRun(m, ops, life).0.tokens)) && OneContext(MemoryRun(m, ops, life).0.tokens)
    ensures ContextsKept(m.tokens, MemoryRun(m, ops, life).0.tokens)
    decreases ops
  {
    if ops != [] {
      var m1 := MemoryStep(m, ops[0], life).0;
      MemoryStepMoves(m, ops[0], life);
      MoveKeepsChains(MemoryLinks(m.tokens), MemoryMove(m, ops[0], life));
      MemoryStepKeepsContexts(m, ops[0], life);
      MemoryRunChains(m1, ops[1..], life);
    }
  }

  /** Over a run a family's chain is only extended: every rotation replaced its last token. */
  lemma {:induction false} MemoryRunExtendsChain(
    m: Memory, ops: seq<Op>, life: Lifetimes, family: string, chain: seq<string>)
    returns (longer: seq<string>)
    requires MemoryFreshRun(m, ops, life) && IsChain(MemoryLinks(m.tokens), family, chain)
    ensures chain <= longer && IsChain(MemoryLinks(MemoryRun(m, ops, life).0.tokens), family, longer)
    decreases ops
  {
    longer := chain;
    if ops != [] {
      MemoryStepMoves(m, ops[0], life);
      longer := MoveExtendsChain(MemoryLinks(m.tokens), MemoryMove(m, ops[0], life), family, chain);
      longer := MemoryRunExtendsChain(MemoryStep(m, ops[0], life).0, ops[1..], life, family, longer);
    }
  }

  ghost predicate SqlFreshRun(q: Tables, ops: seq<Op>, life: Lifetimes)
    requires q.Valid()
    decreases ops
  {
    ops == [] || (
      && SqlFresh(q, ops[0])
      && (SqlStepValid(q, ops[0], life); SqlFreshRun(SqlStep(q, ops[0], life).0, ops[1..], life)))
  }

  /** In every reachable state of the SQL form, each family is a chain. */
  lemma {:induction false} SqlRunChains(q: Tables, ops: seq<Op>, life: Lifetimes)
    requires q.Valid() && SqlFreshRun(q, ops, life) && Chained(SqlLinks(q.tokens))
    ensures Chained(SqlLinks(SqlRun(q, ops, life).0.tokens))
    decreases ops
  {
    if ops != [] {
      SqlStepMoves(q, ops[0], life);
      MoveKeepsChains(SqlLinks(q.tokens), SqlMove(q, ops[0], life));
      SqlStepValid(q, ops[0], life);
      SqlRunChains(SqlStep(q, ops[0], life).0, ops[1..], life);
    }
  }

  lemma {:induction false} SqlRunExtendsChain(
    q: Tables, ops: seq<Op>, life: Lifetimes, family: string, chain: seq<string>)
    returns (longer: seq<string>)
    requires q.Valid() && SqlFreshRun(q, ops, life) && IsChain(SqlLinks(q.tokens), family, chain)
    ensures chain <= longer && IsChain(SqlLinks(SqlRun(q, ops, life).0.tokens), family, longer)
    decreases ops
  {
    longer := chain;
    if ops != [] {
      SqlStepMoves(q, ops[0], life);
      longer := MoveExtendsChain(SqlLinks(q.tokens), SqlMove(q, ops[0], life), family, chain);
      SqlStepValid(q, ops[0], life);
      longer := SqlRunExtendsChain(SqlStep(q, ops[0], life).0, ops[1..], life, family, longer);
    }
  }

  // ---------------------------------------------------------- revocation is final

  /** The call is a bulk revocation that covers the context. */
  predicate Kills(c: Context, op: Op) {
    match op
    case RevokeByConsent(id) => c.consentId == id
    case RevokeByService(code) => c.serviceCode == code
    case RevokeBySubject(filter) => filter.Covers(c)
    case _ => false
  }

  /** The call revokes the family: a covering revocation, or a consumed live token presented again. */
  predicate MemoryKills(m: Memory, op: Op, family: string) {
    exists h :: h in m.tokens && m.tokens[h].context.familyId == family && (
      || Kills(m.tokens[h].context, op)
      || (op.RevokeToken? && op.h == h && m.tokens[h].context.serviceCode == op.service)
      || (op.Rotate? && op.h == h && m.tokens[h].context.serviceCode == op.service
            && m.tokens[h].consumed && !m.tokens[h].revoked && !m.Expired(h, op.now)))
  }

  predicate SqlKills(q: Tables, op: Op, family: string)
    requires q.Valid()
  {
    family in q.families && (
      || Kills(q.families[family].context, op)
      || (exists h :: h in q.tokens && q.tokens[h].familyId == family && (
            || (op.RevokeToken? && op.h == h && q.families[family].context.serviceCode == op.service)
            || (op.Rotate? && op.h == h && q.families[family].context.serviceCode == op.service
                  && q.tokens[h].consumed && !q.tokens[h].revoked && !q.Expired(h, op.now)))))
  }

  lemma {:induction false} MemoryStaysRevoked(m: Memory, ops: seq<Op>, life: Lifetimes, family: string)
    requires family in m.revokedFamilies
    ensures family in MemoryRun(m, ops, life).0.revokedFamilies
    decreases ops
  {
    if ops != [] { MemoryStaysRevoked(MemoryStep(m, ops[0], life).0, ops[1..], life, family); }
  }

  /** After reuse of a consumed token, or a revocation that covers a family, no later call
      of any run rotates any token of that family. */
  lemma MemoryRevocationIsFinal(m: Memory, kill: Op, ops: seq<Op>, life: Lifetimes, family: string, last: Op)
    requires MemoryKills(m, kill, family) && last.Rotate?
    ensures
      var later := MemoryRun(MemoryStep(m, kill, life).0, ops, life).0;
      last.h in later.tokens && later.tokens[last.h].context.familyId == family ==>
        MemoryStep(later, last, life) == (later, Rotation(Invalid))
  {
    assert family in MemoryStep(m, kill, life).0.revokedFamilies;
    MemoryStaysRevoked(MemoryStep(m, kill, life).0, ops, life, family);
  }

  lemma {:induction false} SqlStaysRevoked(q: Tables, ops: seq<Op>, life: Lifetimes, family: string)
    requires q.Valid() && SqlFreshRun(q, ops, life) && family in q.families && q.families[family].revoked
    ensures var q' := SqlRun(q, ops, life).0; family in q'.families && q'.families[family].revoked
    decreases ops
  {
    if ops != [] {
      SqlStepValid(q, ops[0], life);
      var q1 := SqlStep(q, ops[0], life).0;
      assert family in q1.families && q1.families[family].revoked;
      SqlStaysRevoked(q1, ops[1..], life, family);
    }
  }

  lemma SqlRunValid(q: Tables, ops: seq<Op>, life: Lifetimes)
    requires q.Valid()
    ensures SqlRun(q, ops, life).0.Valid()
    decreases ops
  {
    if ops != [] { SqlStepValid(q, ops[0], life); SqlRunValid(SqlStep(q, ops[0], life).0, ops[1..], life); }
  }

  lemma SqlRevocationIsFinal(q: Tables, kill: Op, ops: seq<Op>, life: Lifetimes, family: string, last: Op)
    requires q.Valid() && SqlKills(q, kill, family) && last.Rotate?
    requires SqlStep(q, kill, life).0.Valid() && SqlFreshRun(SqlStep(q, kill, life).0, ops, life)
    ensures
      var later := SqlRun(SqlStep(q, kill, life).0, ops, life).0;
      later.Valid() && (last.h in later.tokens && later.tokens[last.h].familyId == family ==>
        SqlStep(later, last, life) == (later, Rotation(Invalid)))
  {
    SqlStaysRevoked(SqlStep(q, kill, life).0, ops, life, family);
    SqlRunValid(SqlStep(q, kill, life).0, ops, life);
  }
}
