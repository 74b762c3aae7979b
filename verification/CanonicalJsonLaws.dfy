/** The key-sorting printers print a normal form, and so their texts agree exactly when
    two values have the same content. */
module CanonicalJsonLaws {
  import opened Wrappers
  import opened Json
  import opened JsonRoundTrip
  import opened CanonicalJson

  // ------------------------------------------- printing prints the normal form

  /** What `JSON.stringify` and `JSON.parse` leave of a value is JSON. */
  lemma {:induction false} WireIsJson(v: Value)
    requires WellFormed(v)
    ensures IsJson(Wire(v)) && WellFormed(Wire(v))
    decreases v, 1
  {
    match v
    case Arr(items) => WireItemsAreJson(items);
    case Obj(fields) => WireFieldsAreJson(fields);
    case _ =>
  }

  lemma {:induction false} WireItemsAreJson(items: seq<Value>)
    requires forall i :: 0 <= i < |items| ==> WellFormed(items[i])
    ensures forall i :: 0 <= i < |items| ==> IsJson(WireItems(items)[i]) && WellFormed(WireItems(items)[i])
    decreases items, 0
  {
    if items != [] {
      WireIsJson(items[0]);
      WireItemsAreJson(items[1..]);
    }
  }

  lemma {:induction false} WireFieldKeys(fields: seq<Field<Value>>)
    requires DistinctKeys(fields)
    ensures DistinctKeys(WireFields(fields))
    ensures forall f <- WireFields(fields) :: exists g :: g in fields && g.key == f.key
  {
    if fields != [] {
      WireFieldKeys(fields[1..]);
      assert forall g <- fields[1..] :: g in fields;
      var r := WireFields(fields[1..]);
      forall i | 0 <= i < |r| ensures r[i].key != fields[0].key {
        assert r[i] in r;
        var g :| g in fields[1..] && g.key == r[i].key;
      }
      forall f | f in WireFields(fields) ensures exists g :: g in fields && g.key == f.key {
        if f in r {
          var g :| g in fields[1..] && g.key == f.key;
        } else {
          assert fields[0].key == f.key;
        }
      }
    }
  }

  lemma {:induction false} WireFieldsAreJson(fields: seq<Field<Value>>)
    requires DistinctKeys(fields) && forall i :: 0 <= i < |fields| ==> WellFormed(fields[i].value)
    ensures DistinctKeys(WireFields(fields))
    ensures forall i :: 0 <= i < |WireFields(fields)| ==>
      IsJson(WireFields(fields)[i].value) && WellFormed(WireFields(fields)[i].value)
    decreases fields, 0
  {
    WireFieldKeys(fields);
    if fields != [] {
      WireIsJson(fields[0].value);
      WireFieldsAreJson(fields[1..]);
    }
  }

  function NormalFields(fields: seq<Field<Value>>, less: Order): (r: seq<Field<Value>>)
    ensures |r| == |fields|
  {
    if fields == [] then []
    else [Field(fields[0].key, Normal(fields[0].value, less))] + NormalFields(fields[1..], less)
  }

  lemma {:induction false} DefinedFieldsNormal(fields: seq<Field<Value>>, less: Order)
    ensures OrderedFields(WireFields(fields), less) == NormalFields(Defined(fields), less)
  {
    if fields != [] {
      DefinedFieldsNormal(fields[1..], less);
      if !fields[0].value.Undefined? {
        var first := Field(fields[0].key, Wire(fields[0].value));
        assert WireFields(fields) == [first] + WireFields(fields[1..]);
        assert WireFields(fields)[1..] == WireFields(fields[1..]);
        assert Defined(fields) == [fields[0]] + Defined(fields[1..]);
        assert Defined(fields)[1..] == Defined(fields[1..]);
      } else {
        assert WireFields(fields) == WireFields(fields[1..]) && Defined(fields) == Defined(fields[1..]);
      }
    }
  }

  lemma {:induction false} InsertCommutes(f: Field<Value>, fs: seq<Field<Value>>, less: Order)
    ensures NormalFields(Insert(f, fs, less), less)
      == Insert(Field(f.key, Normal(f.value, less)), NormalFields(fs, less), less)
  {
    if fs != [] && !less(f.key, fs[0].key) {
      InsertCommutes(f, fs[1..], less);
    }
  }

  /** Sorting by key does not look at the values. */
  lemma {:induction false} SortCommutes(fs: seq<Field<Value>>, less: Order)
    ensures NormalFields(Sort(fs, less), less) == Sort(NormalFields(fs, less), less)
  {
    if fs != [] {
      SortCommutes(fs[1..], less);
      InsertCommutes(fs[0], Sort(fs[1..], less), less);
    }
  }

  lemma {:induction false} OrderedIsJson(v: Value, less: Order)
    requires IsJson(v)
    ensures IsJson(Ordered(v, less))
    decreases v, 1
  {
    match v
    case Arr(items) => OrderedItemsAreJson(items, less);
    case Obj(fields) =>
      var fs := OrderedFields(fields, less);
      OrderedFieldsAreJson(fields, less);
      forall i | 0 <= i < |Sort(fs, less)| ensures IsJson(Sort(fs, less)[i].value) {
        SameMember(Sort(fs, less), fs, Sort(fs, less)[i]);
      }
    case _ =>
  }

  lemma {:induction false} OrderedItemsAreJson(items: seq<Value>, less: Order)
    requires forall i :: 0 <= i < |items| ==> IsJson(items[i])
    ensures forall i :: 0 <= i < |items| ==> IsJson(OrderedItems(items, less)[i])
    decreases items, 0
  {
    if items != [] {
      OrderedIsJson(items[0], less);
      OrderedItemsAreJson(items[1..], less);
    }
  }

  lemma {:induction false} OrderedFieldsAreJson(fields: seq<Field<Value>>, less: Order)
    requires forall i :: 0 <= i < |fields| ==> IsJson(fields[i].value)
    ensures forall f <- OrderedFields(fields, less) :: IsJson(f.value)
    decreases fields, 0
  {
    if fields != [] {
      OrderedIsJson(fields[0].value, less);
      OrderedFieldsAreJson(fields[1..], less);
    }
  }

  lemma NormalIsJson(v: Value, less: Order)
    requires WellFormed(v)
    ensures IsJson(Normal(v, less))
  {
    WireIsJson(v);
    OrderedIsJson(Wire(v), less);
  }

  lemma {:induction false} NormalFieldsAreJson(fs: seq<Field<Value>>, less: Order)
    requires forall f <- fs :: WellFormed(f.value)
    ensures forall i :: 0 <= i < |fs| ==> IsJson(NormalFields(fs, less)[i].value)
  {
    if fs != [] {
      NormalIsJson(fs[0].value, less);
      NormalFieldsAreJson(fs[1..], less);
    }
  }

  /** The recursive printer prints the value's normal form. */
  lemma {:induction false} CanonicalIsPrinted(v: Value, less: Order, nil: Text)
    requires WellFormed(v)
    ensures IsJson(Normal(v, less)) && Canonical(v, less, nil) == PrintAs(Normal(v, less), nil)
    decreases v, 2, 0
  {
    NormalIsJson(v, less);
    match v
    case Arr(items) => CanonicalItemsArePrinted(items, less, nil);
    case Obj(fields) =>
      var members := Sort(Defined(fields), less);
      forall f | f in members ensures f in fields { SameMember(members, Defined(fields), f); }
      CanonicalFieldsArePrinted(members, v, less, nil);
      DefinedFieldsNormal(fields, less);
      SortCommutes(Defined(fields), less);
    case _ =>
  }

  lemma {:induction false} CanonicalItemsArePrinted(items: seq<Value>, less: Order, nil: Text)
    requires forall i :: 0 <= i < |items| ==> WellFormed(items[i])
    ensures var printed := OrderedItems(WireItems(items), less);
      && (forall i :: 0 <= i < |items| ==> IsJson(printed[i]))
      && CanonicalItems(items, less, nil) == PrintItems(printed, nil)
    decreases items, 1, 0
  {
    if items != [] {
      CanonicalIsPrinted(items[0], less, nil);
      CanonicalItemsArePrinted(items[1..], less, nil);
      var printed := OrderedItems(WireItems(items), less);
      assert printed[1..] == OrderedItems(WireItems(items[1..]), less);
    }
  }

  lemma {:induction false} CanonicalFieldsArePrinted(fs: seq<Field<Value>>, whole: Value, less: Order, nil: Text)
    requires (forall f <- fs :: f.value < whole) && forall f <- fs :: WellFormed(f.value)
    ensures (forall i :: 0 <= i < |fs| ==> IsJson(NormalFields(fs, less)[i].value))
    ensures CanonicalFields(fs, whole, less, nil) == PrintFields(NormalFields(fs, less), nil)
    decreases whole, 1, |fs|
  {
    NormalFieldsAreJson(fs, less);
    if fs != [] {
      CanonicalIsPrinted(fs[0].value, less, nil);
      CanonicalFieldsArePrinted(fs[1..], whole, less, nil);
      assert NormalFields(fs, less)[1..] == NormalFields(fs[1..], less);
    }
  }

  /** A JSON parser applied to a webhook body gives back the payload in normal form. */
  lemma WebhookBodyParses(v: Value, less: Order)
    requires WellFormed(v)
    ensures ParseText(StableJson(v, less)) == Some(Normal(v, less))
  {
    CanonicalIsPrinted(v, less, NULL_TEXT);
    PrintedTextParses(Normal(v, less));
  }

  // ---------------------------------------------------------- the same content

  /** Equal up to the order of object keys. */
  ghost predicate SameContent(v: Value, w: Value)
    decreases v, 1
  {
    match (v, w)
    case (Arr(items), Arr(items')) =>
      |items| == |items'| && forall i :: 0 <= i < |items| ==> SameContent(items[i], items'[i])
    case (Obj(fields), Obj(fields')) =>
      && (forall f {:trigger InOther(f, fields')} :: f in fields ==> InOther(f, fields'))
      && (forall f' {:trigger FromOther(fields, f')} :: f' in fields' ==> FromOther(fields, f'))
    case _ => v == w
  }

  ghost predicate InOther(f: Field<Value>, fields': seq<Field<Value>>)
    decreases f.value, 3
  {
    exists f' :: f' in fields' && SameField(f, f')
  }

  ghost predicate FromOther(fields: seq<Field<Value>>, f': Field<Value>)
    decreases fields, 0
  {
    exists f :: f in fields && SameField(f, f')
  }

  ghost predicate SameField(f: Field<Value>, f': Field<Value>)
    decreases f.value, 2
  {
    f.key == f'.key && SameContent(f.value, f'.value)
  }

  lemma {:induction false} OrderedItemAt(items: seq<Value>, less: Order, i: nat)
    requires i < |items|
    ensures OrderedItems(items, less)[i] == Ordered(items[i], less)
  {
    if i > 0 { OrderedItemAt(items[1..], less, i - 1); }
  }

  lemma {:induction false} OrderedFieldAt(fields: seq<Field<Value>>, less: Order, i: nat)
    requires i < |fields|
    ensures OrderedFields(fields, less)[i] == Field(fields[i].key, Ordered(fields[i].value, less))
  {
    if i > 0 { OrderedFieldAt(fields[1..], less, i - 1); }
  }

  /** Membership in an object's ordered fields. */
  lemma OrderedMember(fields: seq<Field<Value>>, less: Order, f: Field<Value>)
    ensures f in Sort(OrderedFields(fields, less), less) <==>
      exists g :: g in fields && f == OrderedField(g, less)
  {
    var fs := OrderedFields(fields, less);
    if f in Sort(fs, less) {
      SameMember(Sort(fs, less), fs, f);
      var i :| 0 <= i < |fs| && fs[i] == f;
      OrderedFieldAt(fields, less, i);
      assert fields[i] in fields;
    }
    if exists g :: g in fields && f == OrderedField(g, less) {
      var g :| g in fields && f == OrderedField(g, less);
      var i :| 0 <= i < |fields| && fields[i] == g;
      OrderedFieldAt(fields, less, i);
      assert fs[i] == f;
      SameMember(fs, Sort(fs, less), f);
    }
  }

  lemma OrderedFieldsInOrder(fields: seq<Field<Value>>, less: Order)
    requires StrictTotalOrder(less) && DistinctKeys(fields)
    ensures InOrder(Sort(OrderedFields(fields, less), less), less)
  {
    forall i | 0 <= i < |fields| ensures OrderedFields(fields, less)[i].key == fields[i].key {
      OrderedFieldAt(fields, less, i);
    }
    SortInOrder(OrderedFields(fields, less), less);
  }

  /** Ordering the keys identifies exactly the values with the same content. */
  lemma {:induction false} OrderedIffSameContent(v: Value, w: Value, less: Order)
    requires StrictTotalOrder(less) && WellFormed(v) && WellFormed(w)
    ensures Ordered(v, less) == Ordered(w, less) <==> SameContent(v, w)
    decreases v
  {
    match (v, w)
    case (Arr(items), Arr(items')) =>
      if |items| == |items'| {
        forall i | 0 <= i < |items|
          ensures OrderedItems(items, less)[i] == OrderedItems(items', less)[i] <==> SameContent(items[i], items'[i])
        {
          OrderedItemAt(items, less, i);
          OrderedItemAt(items', less, i);
          OrderedIffSameContent(items[i], items'[i], less);
        }
      }
    case (Obj(fields), Obj(fields')) =>
      forall f, f' | f in fields && f' in fields'
        ensures OrderedField(f, less) == OrderedField(f', less) <==> SameField(f, f')
      {
        OrderedIffSameContent(f.value, f'.value, less);
      }
      SortedIffSameFields(fields, fields', less);
    case _ =>
  }

  function OrderedField(f: Field<Value>, less: Order): Field<Value> {
    Field(f.key, Ordered(f.value, less))
  }

  /** For fields of the two objects, ordering identifies exactly the same fields. */
  ghost predicate OrderSeparates(fields: seq<Field<Value>>, fields': seq<Field<Value>>, less: Order) {
    forall f, f' :: f in fields && f' in fields' ==>
      (OrderedField(f, less) == OrderedField(f', less) <==> SameField(f, f'))
  }

  lemma SortedThenSameFields(fields: seq<Field<Value>>, fields': seq<Field<Value>>, less: Order)
    requires OrderSeparates(fields, fields', less)
    requires Sort(OrderedFields(fields, less), less) == Sort(OrderedFields(fields', less), less)
    ensures SameContent(Obj(fields), Obj(fields'))
  {
    forall f | f in fields ensures InOther(f, fields') {
      OrderedMember(fields, less, OrderedField(f, less));
      OrderedMember(fields', less, OrderedField(f, less));
      var f' :| f' in fields' && OrderedField(f, less) == OrderedField(f', less);
    }
    forall f' | f' in fields' ensures FromOther(fields, f') {
      OrderedMember(fields, less, OrderedField(f', less));
      OrderedMember(fields', less, OrderedField(f', less));
      var f :| f in fields && OrderedField(f, less) == OrderedField(f', less);
    }
  }

  lemma SameFieldsThenMember(fields: seq<Field<Value>>, fields': seq<Field<Value>>, less: Order, x: Field<Value>)
    requires OrderSeparates(fields, fields', less) && SameContent(Obj(fields), Obj(fields'))
    ensures x in Sort(OrderedFields(fields, less), less) <==> x in Sort(OrderedFields(fields', less), less)
  {
    OrderedMember(fields, less, x);
    OrderedMember(fields', less, x);
    if exists f :: f in fields && x == OrderedField(f, less) {
      var f :| f in fields && x == OrderedField(f, less);
      assert InOther(f, fields');
      var f' :| f' in fields' && SameField(f, f');
      assert x == OrderedField(f', less);
    }
    if exists f' :: f' in fields' && x == OrderedField(f', less) {
      var f' :| f' in fields' && x == OrderedField(f', less);
      assert FromOther(fields, f');
      var f :| f in fields && SameField(f, f');
      assert x == OrderedField(f, less);
    }
  }

  /** Two objects' ordered fields agree when each field of one has its match in the other. */
  lemma SortedIffSameFields(fields: seq<Field<Value>>, fields': seq<Field<Value>>, less: Order)
    requires StrictTotalOrder(less) && DistinctKeys(fields) && DistinctKeys(fields')
    requires OrderSeparates(fields, fields', less)
    ensures Sort(OrderedFields(fields, less), less) == Sort(OrderedFields(fields', less), less)
      <==> SameContent(Obj(fields), Obj(fields'))
  {
    var a, b := Sort(OrderedFields(fields, less), less), Sort(OrderedFields(fields', less), less);
    if a == b { SortedThenSameFields(fields, fields', less); }
    if SameContent(Obj(fields), Obj(fields')) {
      forall x ensures x in a <==> x in b { SameFieldsThenMember(fields, fields', less, x); }
      OrderedFieldsInOrder(fields, less);
      OrderedFieldsInOrder(fields', less);
      OneOrder(a, b, less);
    }
  }

  /** Two payloads have the same signed text exactly when they have the same content on the wire. */
  lemma SameBodyIffSameContent(v: Value, w: Value, less: Order)
    requires StrictTotalOrder(less) && WellFormed(v) && WellFormed(w)
    ensures StableJson(v, less) == StableJson(w, less) <==> SameContent(Wire(v), Wire(w))
  {
    CanonicalIsPrinted(v, less, NULL_TEXT);
    CanonicalIsPrinted(w, less, NULL_TEXT);
    WireIsJson(v);
    WireIsJson(w);
    if StableJson(v, less) == StableJson(w, less) { PrintInjective(Normal(v, less), Normal(w, less)); }
    OrderedIffSameContent(Wire(v), Wire(w), less);
  }

  // -------------------------------------------------------- surviving the wire

  /** `JSON.stringify` of a value that is not itself undefined. */
  function Stringify(v: Value): Text
    requires WellFormed(v)
  {
    WireIsJson(v);
    Print(Wire(v))
  }

  lemma StringifiedTextParses(v: Value)
    requires WellFormed(v)
    ensures ParseText(Stringify(v)) == Some(Wire(v))
  {
    WireIsJson(v);
    PrintedTextParses(Wire(v));
  }

  /** A receiver that parses the body, and may list its keys in another order, serializes it
      to the text the sender hashed. */
  lemma SerializedAlikeAfterWire(sent: Value, received: Value, less: Order)
    requires StrictTotalOrder(less) && WellFormed(sent) && WellFormed(received)
    requires ParseText(Stringify(sent)).Some? && SameContent(ParseText(Stringify(sent)).value, Wire(received))
    ensures StableSerialize(received, less) == StableSerialize(sent, less)
  {
    StringifiedTextParses(sent);
    WireIsJson(sent);
    WireIsJson(received);
    OrderedIffSameContent(Wire(sent), Wire(received), less);
    CanonicalIsPrinted(sent, less, []);
    CanonicalIsPrinted(received, less, []);
  }
}
