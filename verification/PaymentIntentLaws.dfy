/** What every run keeps of the payment intents: sound indexes, one intent a reference, keys bound for
    good, and the facts an intent was created with. */
module PaymentIntentLaws {
  import opened Strings
  import opened PaymentIntentStore

  datatype Op = Creating(input: CreateInput, freshId: string) | Updating(copy: Intent, patch: Patch)

  function Step(b: Book, op: Op): Book {
    match op
    case Creating(input, freshId) => b.Create(input, freshId).0
    case Updating(copy, patch) => b.Update(copy, patch)
  }

  /** Ids are new, service codes have no colon, and only intents of the store are updated, if out of date ones. */
  predicate Possible(b: Book, op: Op) {
    match op
    case Creating(input, freshId) => freshId !in b.intents && ':' !in input.serviceCode
    case Updating(copy, _) => copy.core.id in b.intents && b.intents[copy.core.id].core == copy.core
  }

  ghost predicate PossibleRun(b: Book, ops: seq<Op>)
    decreases ops
  {
    ops == [] || (Possible(b, ops[0]) && PossibleRun(Step(b, ops[0]), ops[1..]))
  }

  function Run(b: Book, ops: seq<Op>): Book
    decreases ops
  {
    if ops == [] then b else Run(Step(b, ops[0]), ops[1..])
  }

  // --------------------------------------------------------------- what is stored

  /** A new intent holds what it was asked for, its currency in capitals and its key without white space around
      it, and awaits confirmation; the fingerprint in the caller's metadata gives way to the one given. */
  lemma NewIntentHolds(b: Book, input: CreateInput, freshId: string)
    requires !b.KeyBound(input) && IndexKey(input.serviceCode, input.reference) !in b.byReference
    ensures
      var (b', r) := b.Create(input, freshId);
      && r.Returned? && b'.intents == b.intents[freshId := r.intent]
      && r.intent.core.id == freshId && r.intent.core.serviceCode == input.serviceCode
      && r.intent.core.reference == input.reference && r.intent.core.amount == input.amount
      && r.intent.core.currency == Upper(input.currency) && r.intent.core.idempotencyKey == Trim(input.idempotencyKey)
      && (input.fingerprint != "" ==> r.intent.core.fingerprint == input.fingerprint)
      && (input.fingerprint == "" ==> r.intent.core.fingerprint == input.metadataFingerprint)
      && r.intent.progress == Progress("requires_confirmation", "", "", "", "")
  {
  }

  /** An intent is given to its own service only. */
  lemma GetIff(b: Book, serviceCode: string, id: string)
    ensures b.Get(serviceCode, id) ==
      if id in b.intents && b.intents[id].core.serviceCode == serviceCode then Returned(b.intents[id])
      else Failed(NotFound)
  {
  }

  /** An update keeps what the caller's copy was created with, and changes its status, a record, or both. */
  lemma UpdateChanges(b: Book, copy: Intent, patch: Patch)
    ensures
      var b', p := b.Update(copy, patch), copy.progress;
      var p' := match patch
        case Processing =>
          Progress("processing", p.coreSubmission, p.providerResponse, p.webhookDelivery, p.coreResult)
        case SubmittedToCore(response) =>
          Progress("submitted_to_core", response, p.providerResponse, p.webhookDelivery, p.coreResult)
        case CoreSubmissionFailed(error) =>
          Progress("failed", error, p.providerResponse, p.webhookDelivery, p.coreResult)
        case ProviderResponse(response, status) =>
          Progress(status, p.coreSubmission, response, p.webhookDelivery, p.coreResult)
        case WebhookDelivery(delivery) =>
          Progress(p.status, p.coreSubmission, p.providerResponse, delivery, p.coreResult)
        case CoreEvent(result, status) =>
          Progress(status, p.coreSubmission, p.providerResponse, p.webhookDelivery, result);
      b' == b.(intents := b.intents[copy.core.id := Intent(copy.core, p')])
  {
  }

  // ------------------------------------------------------------------ index keys

  lemma {:induction false} KeysDiffer(a: string, b: string, c: string, d: string)
    requires ':' !in a && ':' !in c && IndexKey(a, b) == IndexKey(c, d)
    ensures a == c && b == d
  {
    var k := IndexKey(a, b);
    assert k[|a|] == ':' && k[|c|] == ':';
    assert forall i :: 0 <= i < |a| ==> k[i] == a[i] && k[i] != ':';
    assert forall i :: 0 <= i < |c| ==> k[i] == c[i] && k[i] != ':';
    assert k[..|a|] == a && k[..|c|] == c && k[|a| + 1..] == b && k[|c| + 1..] == d;
  }

  // ------------------------------------------------------------------- soundness

  ghost predicate IntentsSound(intents: map<string, Intent>) {
    forall id <- intents :: intents[id].core.id == id && ':' !in intents[id].core.serviceCode
  }

  /** The reference index points to each intent from its own service and reference, and to nothing else. */
  ghost predicate ReferencesSound(intents: map<string, Intent>, byReference: map<string, string>) {
    && (forall k <- byReference :: byReference[k] in intents
          && k == IndexKey(intents[byReference[k]].core.serviceCode, intents[byReference[k]].core.reference))
    && (forall id <- intents ::
          var k := IndexKey(intents[id].core.serviceCode, intents[id].core.reference);
          k in byReference && byReference[k] == id)
  }

  /** The key index points to the intent that was created with the key, for the same service. */
  ghost predicate KeysSound(intents: map<string, Intent>, byKey: map<string, string>) {
    forall k <- byKey :: byKey[k] in intents && intents[byKey[k]].core.idempotencyKey != ""
      && k == IndexKey(intents[byKey[k]].core.serviceCode, intents[byKey[k]].core.idempotencyKey)
  }

  ghost predicate Sound(b: Book) {
    IntentsSound(b.intents) && ReferencesSound(b.intents, b.byReference) && KeysSound(b.intents, b.byKey)
  }

  /** Intents stay, with the facts they were created with, and a bound key stays bound to its intent. */
  ghost predicate Later(b: Book, b': Book) {
    && (forall id <- b.intents :: id in b'.intents && b'.intents[id].core == b.intents[id].core)
    && (forall k <- b.byKey :: k in b'.byKey && b'.byKey[k] == b.byKey[k])
    && (forall k <- b.byReference :: k in b'.byReference && b'.byReference[k] == b.byReference[k])
  }

  lemma CreateSound(b: Book, input: CreateInput, freshId: string)
    requires Sound(b) && freshId !in b.intents && ':' !in input.serviceCode
    ensures Sound(b.Create(input, freshId).0)
  {
  }

  lemma UpdateSound(b: Book, copy: Intent, patch: Patch)
    requires Sound(b) && copy.core.id in b.intents && b.intents[copy.core.id].core == copy.core
    ensures Sound(b.Update(copy, patch)) && Later(b, b.Update(copy, patch))
  {
  }

  lemma StepSound(b: Book, op: Op)
    requires Sound(b) && Possible(b, op)
    ensures Sound(Step(b, op)) && Later(b, Step(b, op))
  {
    match op
    case Creating(input, freshId) => CreateSound(b, input, freshId);
    case Updating(copy, patch) => UpdateSound(b, copy, patch);
  }

  /** In every run the indexes stay sound, no intent loses the facts it was created with, and no key is rebound. */
  lemma {:induction false} RunSound(b: Book, ops: seq<Op>)
    requires Sound(b) && PossibleRun(b, ops)
    ensures Sound(Run(b, ops)) && Later(b, Run(b, ops))
    decreases ops
  {
    if ops != [] {
      StepSound(b, ops[0]);
      RunSound(Step(b, ops[0]), ops[1..]);
    }
  }

  /** There is at most one intent for a service and a reference. */
  lemma OnePerReference(b: Book, id: string, id': string)
    requires Sound(b) && id in b.intents && id' in b.intents
    requires b.intents[id].core.serviceCode == b.intents[id'].core.serviceCode
    requires b.intents[id].core.reference == b.intents[id'].core.reference
    ensures id == id'
  {
  }

  /** A creation never fails for want of an intent, and returns one of the same service. */
  lemma CreateReturnsOwn(b: Book, input: CreateInput, freshId: string)
    requires Sound(b) && freshId !in b.intents && ':' !in input.serviceCode
    ensures var (b', r) := b.Create(input, freshId);
      && (r.Failed? ==> r.error == IdempotencyMismatch && b' == b)
      && (r.Returned? ==>
            r.intent.core.serviceCode == input.serviceCode && r.intent.core.id in b'.intents
                && b'.intents[r.intent.core.id] == r.intent)
      && (r.Returned? && !b.KeyBound(input) ==> r.intent.core.reference == input.reference)
  {
    if b.KeyBound(input) {
      var k := IndexKey(input.serviceCode, Trim(input.idempotencyKey));
      var core := b.intents[b.byKey[k]].core;
      KeysDiffer(core.serviceCode, core.idempotencyKey, input.serviceCode, Trim(input.idempotencyKey));
    } else if IndexKey(input.serviceCode, input.reference) in b.byReference {
      var core := b.intents[b.byReference[IndexKey(input.serviceCode, input.reference)]].core;
      KeysDiffer(core.serviceCode, core.reference, input.serviceCode, input.reference);
    }
  }

  /** A key once bound: after every run, a creation with it changes nothing, and returns the intent it was
      bound to as it is then, or a mismatch exactly when both fingerprints are given and differ. */
  lemma BoundKeyAnswers(b: Book, ops: seq<Op>, input: CreateInput, freshId: string)
    requires Sound(b) && PossibleRun(b, ops) && ':' !in input.serviceCode && b.KeyBound(input)
    ensures
      var id := b.byKey[IndexKey(input.serviceCode, Trim(input.idempotencyKey))];
      var later := Run(b, ops);
      && id in b.intents && id in later.intents
      && later.Create(input, freshId) ==
           (later, if Mismatch(input, b.intents[id]) then Failed(IdempotencyMismatch) else Returned(later.intents[id]))
  {
    RunSound(b, ops);
    var k := IndexKey(input.serviceCode, Trim(input.idempotencyKey));
    var core := b.intents[b.byKey[k]].core;
    KeysDiffer(core.serviceCode, core.idempotencyKey, input.serviceCode, Trim(input.idempotencyKey));
  }

  /** A creation that finds its reference taken does not bind the key it came with. */
  lemma ReferenceHitBindsNoKey(b: Book, input: CreateInput, freshId: string)
    requires Sound(b) && ':' !in input.serviceCode && !b.KeyBound(input)
    requires IndexKey(input.serviceCode, input.reference) in b.byReference
    ensures b.Create(input, freshId).0 == b && !b.Create(input, freshId).0.KeyBound(input)
    ensures b.Create(input, freshId).1 ==
      Returned(b.intents[b.byReference[IndexKey(input.serviceCode, input.reference)]])
  {
    var core := b.intents[b.byReference[IndexKey(input.serviceCode, input.reference)]].core;
    KeysDiffer(core.serviceCode, core.reference, input.serviceCode, input.reference);
  }

  lemma FirstAnswer(b: Book, input: CreateInput, freshId: string)
    requires Sound(b) && freshId !in b.intents && ':' !in input.serviceCode && b.Create(input, freshId).1.Returned?
    ensures var (b1, r) := b.Create(input, freshId);
      && Sound(b1)
      && (b1.KeyBound(input) ==>
            && b1.byKey[IndexKey(input.serviceCode, Trim(input.idempotencyKey))] == r.intent.core.id
            && !Mismatch(input, r.intent) && b1.intents[r.intent.core.id] == r.intent)
      && (!b1.KeyBound(input) ==> b1.byReference[IndexKey(input.serviceCode, input.reference)] == r.intent.core.id)
  {
    CreateSound(b, input, freshId);
    CreateReturnsOwn(b, input, freshId);
  }

  // ----------------------------------------------------------------- idempotence

  /** Asking again gives back the intent as it is then, and changes nothing. */
  predicate SameAnswer(later: Book, input: CreateInput, id: string, freshId: string) {
    id in later.intents && later.Create(input, freshId) == (later, Returned(later.intents[id]))
  }

  /** Unless the run newly binds the key, asking again gives back the first intent. */
  lemma SameUnlessBound(b: Book, input: CreateInput, freshId: string, ops: seq<Op>, freshId': string)
    requires Sound(b) && freshId !in b.intents && ':' !in input.serviceCode
    requires b.Create(input, freshId).1.Returned? && PossibleRun(b.Create(input, freshId).0, ops)
    requires Run(b.Create(input, freshId).0, ops).KeyBound(input) ==> b.Create(input, freshId).0.KeyBound(input)
    ensures var (b1, r) := b.Create(input, freshId); SameAnswer(Run(b1, ops), input, r.intent.core.id, freshId')
  {
    var (b1, r) := b.Create(input, freshId);
    FirstAnswer(b, input, freshId);
    RunSound(b1, ops);
    if b1.KeyBound(input) {
      BoundKeyAnswers(b1, ops, input, freshId');
    } else {
      ReferenceHitBindsNoKey(Run(b1, ops), input, freshId');
    }
  }

  lemma {:induction false} StepBindsNew(b: Book, op: Op, k: string)
    requires Possible(b, op) && k !in b.byKey && k in Step(b, op).byKey
    ensures Step(b, op).byKey[k] !in b.intents
  {
  }

  /** A run binds keys only to intents that it makes. */
  lemma {:induction false} BoundToNew(b: Book, ops: seq<Op>, k: string)
    requires Sound(b) && PossibleRun(b, ops) && k !in b.byKey && k in Run(b, ops).byKey
    ensures Run(b, ops).byKey[k] !in b.intents
    decreases ops
  {
    if ops != [] {
      var b1 := Step(b, ops[0]);
      StepSound(b, ops[0]);
      if k in b1.byKey {
        StepBindsNew(b, ops[0], k);
        RunSound(b1, ops[1..]);
      } else {
        BoundToNew(b1, ops[1..], k);
      }
    }
  }

  /** If the run newly binds the key, asking again never gives back an intent from before. */
  lemma {:induction false} BoundNeverReturnsOld(b: Book, ops: seq<Op>, input: CreateInput, freshId: string, id: string)
    requires Sound(b) && PossibleRun(b, ops) && !b.KeyBound(input) && Run(b, ops).KeyBound(input) && id in b.intents
    ensures !SameAnswer(Run(b, ops), input, id, freshId)
  {
    var k := IndexKey(input.serviceCode, Trim(input.idempotencyKey));
    BoundToNew(b, ops, k);
    RunSound(b, ops);
    var later := Run(b, ops);
    assert later.intents[later.byKey[k]].core.id == later.byKey[k] && later.intents[id].core.id == id;
  }

  /** A creation with the same key and an unused reference makes an intent and binds the key to it. */
  lemma {:induction false} KeyTakesOver(b: Book, input: CreateInput) returns (other: Op)
    requires Sound(b) && ':' !in input.serviceCode && Trim(input.idempotencyKey) != "" && !b.KeyBound(input)
    ensures PossibleRun(b, [other]) && Run(b, [other]).KeyBound(input)
    ensures other.Creating? && other.input == input.(reference := other.input.reference)
    ensures other.input.reference != "" && IsTrimmed(other.input.reference)
  {
    var n := LongerThan(b.byReference.Keys);
    var reference := seq(n + 1, _ => '0');
    var freshId := FreshString(b.intents.Keys);
    assert |IndexKey(input.serviceCode, reference)| > n;
    other := Creating(input.(reference := reference), freshId);
    assert Run(b, [other]) == Step(b, other) by { assert [other][1..] == []; }
    assert PossibleRun(Step(b, other), [other][1..]);
  }

  /** The first creation finds its answer by its key, or leaves one for it: no key is given, or it is bound, or
      the reference is not taken. */
  predicate Settles(b: Book, input: CreateInput) {
    || Trim(input.idempotencyKey) == "" || b.KeyBound(input)
    || IndexKey(input.serviceCode, input.reference) !in b.byReference
  }

  /** Asking again gives back the intent after every possible run. */
  ghost predicate AlwaysSame(b: Book, input: CreateInput, id: string) {
    forall ops, freshId :: PossibleRun(b, ops) ==> SameAnswer(Run(b, ops), input, id, freshId)
  }

  /** The exact condition for idempotence, known when the first creation is made. */
  lemma {:induction false} IdempotentIff(b: Book, input: CreateInput, freshId: string)
    requires Sound(b) && freshId !in b.intents && ':' !in input.serviceCode && b.Create(input, freshId).1.Returned?
    ensures var (b1, r) := b.Create(input, freshId); AlwaysSame(b1, input, r.intent.core.id) <==> Settles(b, input)
  {
    var (b1, r) := b.Create(input, freshId);
    FirstAnswer(b, input, freshId);
    CreateReturnsOwn(b, input, freshId);
    if Settles(b, input) {
      assert Trim(input.idempotencyKey) == "" || b1.KeyBound(input);
      forall ops, freshId' | PossibleRun(b1, ops) ensures SameAnswer(Run(b1, ops), input, r.intent.core.id, freshId') {
        SameUnlessBound(b, input, freshId, ops, freshId');
      }
    } else {
      var other := KeyTakesOver(b1, input);
      BoundNeverReturnsOld(b1, [other], input, freshId, r.intent.core.id);
    }
  }
}
