/** Pushed authorization requests over whole runs: what was pushed comes back once, in time, and to the service
    that pushed it. */
module PushedRequestRuns {
  import opened Wrappers
  import opened Environments
  import opened PushedAuthorizationRequestStore

  datatype Op =
    | Pushing(uriHash: string, serviceCode: string, environment: Environment, payload: Payload, ttl: int, now: int)
    | Using(uriHash: string, serviceCode: string, now: int)

  function Step(pushes: Pushes, op: Op): (Pushes, Option<Pushed>) {
    match op
    case Pushing(uri, service, environment, payload, ttl, now) =>
      (Create(pushes, uri, service, environment, payload, ttl, now), None)
    case Using(uri, service, now) => Consume(pushes, uri, service, now)
  }

  function Run(pushes: Pushes, ops: seq<Op>): (Pushes, seq<Option<Pushed>>)
    decreases ops
  {
    if ops == [] then (pushes, [])
    else
      var (pushes1, r) := Step(pushes, ops[0]);
      var (pushes2, rs) := Run(pushes1, ops[1..]);
      (pushes2, [r] + rs)
  }

  /** Uris are new when they are drawn. */
  ghost predicate Fresh(ops: seq<Op>) {
    forall i, j :: 0 <= i < j < |ops| && ops[i].Pushing? && ops[j].Pushing? ==> ops[i].uriHash != ops[j].uriHash
  }

  /** The `j`-th call uses what the `i`-th pushed, for the same service and before it expires. */
  predicate Matches(ops: seq<Op>, i: int, j: int) {
    && 0 <= i < j < |ops| && ops[i].Pushing? && ops[j].Using? && ops[i].uriHash == ops[j].uriHash
    && ops[i].serviceCode == ops[j].serviceCode && ops[j].now < ops[i].now + 1000 * ops[i].ttl
  }

  lemma {:induction false} RunSplit(pushes: Pushes, ops: seq<Op>, k: nat)
    requires k < |ops|
    ensures |Run(pushes, ops).1| == |ops|
    ensures Run(pushes, ops).1[k] == Step(Run(pushes, ops[..k]).0, ops[k]).1
    ensures Run(pushes, ops[..k + 1]).0 == Step(Run(pushes, ops[..k]).0, ops[k]).0
    decreases ops
  {
    RunLength(pushes, ops);
    if k == 0 {
      assert ops[..0] == [] && ops[..1][1..] == [];
    } else {
      assert ops[..k][1..] == ops[1..][..k - 1] && ops[..k + 1][1..] == ops[1..][..k];
      RunSplit(Step(pushes, ops[0]).0, ops[1..], k - 1);
    }
  }

  lemma {:induction false} RunLength(pushes: Pushes, ops: seq<Op>)
    ensures |Run(pushes, ops).1| == |ops|
    decreases ops
  {
    if ops != [] { RunLength(Step(pushes, ops[0]).0, ops[1..]); }
  }

  /** The use found what an earlier call of the run had used. */
  predicate UsedBefore(ops: seq<Op>, replies: seq<Option<Pushed>>, uriHash: string, k: nat) {
    exists j ::
      0 <= j < k && j < |ops| && j < |replies| && ops[j].Using? && ops[j].uriHash == uriHash && replies[j].Some?
  }

  /** The row of a pushed request. */
  function RowOf(op: Op, used: bool): Pushed
    requires op.Pushing?
  {
    Pushed(op.serviceCode, op.environment, op.payload, op.now + 1000 * op.ttl, used)
  }

  ghost predicate PushedBefore(ops: seq<Op>, uriHash: string, k: nat) {
    exists i :: 0 <= i < k && i < |ops| && ops[i].Pushing? && ops[i].uriHash == uriHash
  }

  /** What is stored is what was pushed, and marked if it was used; only that can have been used. */
  ghost predicate Stored(pushes: Pushes, ops: seq<Op>, replies: seq<Option<Pushed>>, k: nat) {
    && k <= |ops| == |replies|
    && (forall i :: 0 <= i < k && ops[i].Pushing? ==>
          && ops[i].uriHash in pushes
          && pushes[ops[i].uriHash] == RowOf(ops[i], UsedBefore(ops, replies, ops[i].uriHash, k)))
    && (forall uri <- pushes :: PushedBefore(ops, uri, k))
    && (forall j :: 0 <= j < k && ops[j].Using? && replies[j].Some? ==> ops[j].uriHash in pushes)
  }

  lemma UsedNext(ops: seq<Op>, replies: seq<Option<Pushed>>, uriHash: string, k: nat)
    requires k < |ops| == |replies|
    ensures UsedBefore(ops, replies, uriHash, k + 1) <==>
      UsedBefore(ops, replies, uriHash, k) || (ops[k].Using? && ops[k].uriHash == uriHash && replies[k].Some?)
  {
  }

  lemma NewUri(pushes: Pushes, ops: seq<Op>, replies: seq<Option<Pushed>>, k: nat)
    requires Fresh(ops) && k < |ops| && Stored(pushes, ops, replies, k) && ops[k].Pushing?
    ensures ops[k].uriHash !in pushes && !UsedBefore(ops, replies, ops[k].uriHash, k)
  {
    assert !PushedBefore(ops, ops[k].uriHash, k);
  }

  lemma StoredStep(pushes: Pushes, ops: seq<Op>, replies: seq<Option<Pushed>>, k: nat)
    requires Fresh(ops) && k < |ops| && Stored(pushes, ops, replies, k) && replies[k] == Step(pushes, ops[k]).1
    ensures Stored(Step(pushes, ops[k]).0, ops, replies, k + 1)
  {
    var pushes' := Step(pushes, ops[k]).0;
    if ops[k].Pushing? { NewUri(pushes, ops, replies, k); }
    forall i | 0 <= i < k + 1 && ops[i].Pushing?
      ensures ops[i].uriHash in pushes'
      ensures pushes'[ops[i].uriHash] == RowOf(ops[i], UsedBefore(ops, replies, ops[i].uriHash, k + 1))
    {
      UsedNext(ops, replies, ops[i].uriHash, k);
    }
    forall uri | uri in pushes' ensures PushedBefore(ops, uri, k + 1) {
      if uri in pushes { assert PushedBefore(ops, uri, k); } else { assert ops[k].uriHash == uri; }
    }
  }

  lemma {:induction false} StoredAfter(ops: seq<Op>, k: nat)
    requires Fresh(ops) && k <= |ops|
    ensures Stored(Run(map[], ops[..k]).0, ops, Run(map[], ops).1, k)
  {
    RunLength(map[], ops);
    if k == 0 {
      assert ops[..0] == [];
    } else {
      StoredAfter(ops, k - 1);
      RunSplit(map[], ops, k - 1);
      StoredStep(Run(map[], ops[..k - 1]).0, ops, Run(map[], ops).1, k - 1);
    }
  }

  /** In every run a use succeeds if and only if the same service pushed the request, it has not expired, and no
      earlier use succeeded; and then it gives back what was pushed. */
  lemma UseSucceedsIff(ops: seq<Op>, k: nat)
    requires Fresh(ops) && k < |ops| && ops[k].Using?
    ensures
      var replies := Run(map[], ops).1;
      && |replies| == |ops|
      && (replies[k].Some? <==>
            !UsedBefore(ops, replies, ops[k].uriHash, k) && exists i :: Matches(ops, i, k))
      && forall i :: Matches(ops, i, k) && replies[k].Some? ==>
           replies[k].value == Pushed(ops[i].serviceCode, ops[i].environment, ops[i].payload,
                                      ops[i].now + 1000 * ops[i].ttl, false)
  {
    var replies, pushes, uri := Run(map[], ops).1, Run(map[], ops[..k]).0, ops[k].uriHash;
    RunSplit(map[], ops, k);
    StoredAfter(ops, k);
    if uri in pushes {
      assert PushedBefore(ops, uri, k);
      var i :| 0 <= i < k && ops[i].Pushing? && ops[i].uriHash == uri;
      assert pushes[uri] == RowOf(ops[i], UsedBefore(ops, replies, uri, k));
      assert replies[k].Some? ==> Matches(ops, i, k);
    }
  }
}
