/** The key-sorting printers: the webhook body printer and the internal body serializer.

    `less` is the order their sort puts object keys in, taken as a strict total order. */
module CanonicalJson {
  import opened Json

  type Order = (Text, Text) -> bool

  ghost predicate StrictTotalOrder(less: Order) {
    && (forall a :: !less(a, a))
    && (forall a, b :: a != b ==> less(a, b) || less(b, a))
    && (forall a, b, c :: less(a, b) && less(b, c) ==> less(a, c))
  }

  // -------------------------------------------------------------------- sorting

  function Insert<T>(f: Field<T>, fs: seq<Field<T>>, less: Order): (r: seq<Field<T>>)
    ensures multiset(r) == multiset(fs) + multiset{f}
  {
    if fs == [] then [f]
    else if less(f.key, fs[0].key) then [f] + fs
    else
      assert fs == [fs[0]] + fs[1..];
      [fs[0]] + Insert(f, fs[1..], less)
  }

  /** The entries in key order. */
  function Sort<T>(fs: seq<Field<T>>, less: Order): (r: seq<Field<T>>)
    ensures multiset(r) == multiset(fs)
  {
    if fs == [] then []
    else
      assert fs == [fs[0]] + fs[1..];
      Insert(fs[0], Sort(fs[1..], less), less)
  }

  ghost predicate DistinctKeys<T>(fs: seq<Field<T>>) {
    forall i, j :: 0 <= i < j < |fs| ==> fs[i].key != fs[j].key
  }

  ghost predicate InOrder<T>(fs: seq<Field<T>>, less: Order) {
    forall i, j :: 0 <= i < j < |fs| ==> less(fs[i].key, fs[j].key)
  }

  lemma SameMember<T>(fs: seq<Field<T>>, gs: seq<Field<T>>, f: Field<T>)
    requires multiset(fs) == multiset(gs) && f in fs
    ensures f in gs
  {
    assert f in multiset(fs);
    assert f in multiset(gs);
  }

  lemma {:induction false} InsertInOrder<T>(f: Field<T>, fs: seq<Field<T>>, less: Order)
    requires StrictTotalOrder(less) && InOrder(fs, less)
    requires forall g <- fs :: g.key != f.key
    ensures InOrder(Insert(f, fs, less), less)
  {
    if fs != [] && !less(f.key, fs[0].key) {
      InsertInOrder(f, fs[1..], less);
      var rest := Insert(f, fs[1..], less);
      assert multiset(rest) == multiset(fs[1..] + [f]);
      forall g | g in rest ensures less(fs[0].key, g.key) {
        SameMember(rest, fs[1..] + [f], g);
      }
    }
  }

  lemma {:induction false} SortInOrder<T>(fs: seq<Field<T>>, less: Order)
    requires StrictTotalOrder(less) && DistinctKeys(fs)
    ensures InOrder(Sort(fs, less), less)
  {
    if fs != [] {
      SortInOrder(fs[1..], less);
      var rest := Sort(fs[1..], less);
      forall g | g in rest ensures g.key != fs[0].key {
        SameMember(rest, fs[1..], g);
      }
      InsertInOrder(fs[0], rest, less);
    }
  }

  lemma InOrderDistinct<T>(fs: seq<Field<T>>, less: Order)
    requires StrictTotalOrder(less) && InOrder(fs, less) && fs != []
    ensures fs[0] !in fs[1..]
  {
  }

  /** Entries can be put in key order in one way only. */
  lemma {:induction false} OneOrder<T>(fs: seq<Field<T>>, gs: seq<Field<T>>, less: Order)
    requires StrictTotalOrder(less) && InOrder(fs, less) && InOrder(gs, less)
    requires forall f :: f in fs <==> f in gs
    ensures fs == gs
  {
    if gs != [] { assert gs[0] in fs; }
    if fs != [] {
      assert fs[0] in gs && (gs != [] ==> gs[0] in fs);
      assert fs[0] == gs[0];
      InOrderDistinct(fs, less);
      InOrderDistinct(gs, less);
      forall f ensures f in fs[1..] <==> f in gs[1..] {
        assert f in fs <==> f == fs[0] || f in fs[1..];
        assert f in gs <==> f == gs[0] || f in gs[1..];
      }
      OneOrder(fs[1..], gs[1..], less);
    }
  }

  // ------------------------------------------------------------- normal forms

  /** Object keys are distinct, as in every JavaScript object, and numbers are finite. */
  ghost predicate WellFormed(v: Value) {
    match v
    case Num(literal) => ValidNumber(literal)
    case Arr(items) => forall i :: 0 <= i < |items| ==> WellFormed(items[i])
    case Obj(fields) => DistinctKeys(fields) && forall i :: 0 <= i < |fields| ==> WellFormed(fields[i].value)
    case _ => true
  }

  /** `filter(([, entry]) => entry !== undefined)` */
  function Defined(fields: seq<Field<Value>>): (r: seq<Field<Value>>)
    ensures forall f <- r :: f in fields && !f.value.Undefined?
  {
    if fields == [] then []
    else (if fields[0].value.Undefined? then [] else [fields[0]]) + Defined(fields[1..])
  }

  /** What is left of a value once it has been through `JSON.stringify` and `JSON.parse`:
      undefined fields vanish and undefined array entries become null. */
  function Wire(v: Value): (r: Value)
    decreases v, 1
  {
    match v
    case Undefined => Null
    case Arr(items) => Arr(WireItems(items))
    case Obj(fields) => Obj(WireFields(fields))
    case _ => v
  }

  function WireItems(items: seq<Value>): (r: seq<Value>)
    ensures |r| == |items|
    decreases items, 0
  {
    if items == [] then [] else [Wire(items[0])] + WireItems(items[1..])
  }

  function WireFields(fields: seq<Field<Value>>): seq<Field<Value>>
    decreases fields, 0
  {
    if fields == [] then []
    else
      (if fields[0].value.Undefined? then [] else [Field(fields[0].key, Wire(fields[0].value))])
      + WireFields(fields[1..])
  }

  /** The value with the keys of every object in order. */
  function Ordered(v: Value, less: Order): Value
    decreases v, 1
  {
    match v
    case Arr(items) => Arr(OrderedItems(items, less))
    case Obj(fields) => Obj(Sort(OrderedFields(fields, less), less))
    case _ => v
  }

  function OrderedItems(items: seq<Value>, less: Order): (r: seq<Value>)
    ensures |r| == |items|
    decreases items, 0
  {
    if items == [] then [] else [Ordered(items[0], less)] + OrderedItems(items[1..], less)
  }

  function OrderedFields(fields: seq<Field<Value>>, less: Order): (r: seq<Field<Value>>)
    ensures |r| == |fields|
    decreases fields, 0
  {
    if fields == [] then []
    else [Field(fields[0].key, Ordered(fields[0].value, less))] + OrderedFields(fields[1..], less)
  }

  /** Undefined fields dropped, undefined array entries null, keys in order. */
  function Normal(v: Value, less: Order): Value {
    Ordered(Wire(v), less)
  }

  // -------------------------------------------------------------- the printers

  /** The recursion both printers share: drop undefined fields, sort by key, print. */
  function Canonical(v: Value, less: Order, nil: Text): Text
    decreases v, 2, 0
  {
    match v
    case Undefined => nil
    case Arr(items) => [OPEN_BRACKET] + CanonicalItems(items, less, nil) + [CLOSE_BRACKET]
    case Obj(fields) =>
      var members := Sort(Defined(fields), less);
      assert forall f <- members :: f in fields by {
        forall f | f in members ensures f in fields { SameMember(members, Defined(fields), f); }
      }
      [OPEN_BRACE] + CanonicalFields(members, v, less, nil) + [CLOSE_BRACE]
    case _ => PrintScalar(v, nil)
  }

  function CanonicalItems(items: seq<Value>, less: Order, nil: Text): Text
    decreases items, 1, 0
  {
    if items == [] then []
    else if |items| == 1 then Canonical(items[0], less, nil)
    else Canonical(items[0], less, nil) + [COMMA] + CanonicalItems(items[1..], less, nil)
  }

  function CanonicalFields(fields: seq<Field<Value>>, ghost whole: Value, less: Order, nil: Text): Text
    requires forall f <- fields :: f.value < whole
    decreases whole, 1, |fields|
  {
    if fields == [] then []
    else
      var first := Quote(fields[0].key) + [COLON] + Canonical(fields[0].value, less, nil);
      if |fields| == 1 then first else first + [COMMA] + CanonicalFields(fields[1..], whole, less, nil)
  }

  /** `stableJson`: the body of a signed webhook. */
  function StableJson(v: Value, less: Order): Text {
    Canonical(v, less, NULL_TEXT)
  }

  /** `stableSerialize`: what the internal signer hashes; null and undefined print as nothing. */
  function StableSerialize(v: Value, less: Order): Text {
    Canonical(v, less, [])
  }
}
