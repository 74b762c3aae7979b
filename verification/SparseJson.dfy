/** What the internal serializer's text tells apart. It prints null as nothing, so that an array of one null
    and the empty array look alike; all other content is told apart. */
module SparseJson {
  import opened Json
  import opened JsonRoundTrip
  import opened CanonicalJson
  import opened CanonicalJsonLaws

  /** The value with every array of one null emptied. */
  function Collapse(v: Value): Value
    decreases v, 1
  {
    match v
    case Arr(items) => Arr(if CollapseItems(items) == [Null] then [] else CollapseItems(items))
    case Obj(fields) => Obj(CollapseFields(fields))
    case _ => v
  }

  function CollapseItems(items: seq<Value>): (r: seq<Value>)
    ensures |r| == |items|
    decreases items, 0
  {
    if items == [] then [] else [Collapse(items[0])] + CollapseItems(items[1..])
  }

  function CollapseFields(fields: seq<Field<Value>>): (r: seq<Field<Value>>)
    ensures |r| == |fields|
    decreases fields, 0
  {
    if fields == [] then [] else [Field(fields[0].key, Collapse(fields[0].value))] + CollapseFields(fields[1..])
  }

  lemma {:induction false} CollapsedItem(items: seq<Value>, i: nat)
    requires i < |items|
    ensures CollapseItems(items)[i] == Collapse(items[i])
  {
    if i > 0 { CollapsedItem(items[1..], i - 1); }
  }

  lemma {:induction false} CollapsedField(fields: seq<Field<Value>>, i: nat)
    requires i < |fields|
    ensures CollapseFields(fields)[i] == Field(fields[i].key, Collapse(fields[i].value))
  {
    if i > 0 { CollapsedField(fields[1..], i - 1); }
  }

  /** No array in the value is an array of one null. */
  predicate Tight(v: Value) {
    match v
    case Arr(items) => items != [Null] && forall i :: 0 <= i < |items| ==> Tight(items[i])
    case Obj(fields) => forall i :: 0 <= i < |fields| ==> Tight(fields[i].value)
    case _ => true
  }

  /** Collapsing keeps a value what it was, and makes it tight. */
  lemma {:induction false} CollapseSound(v: Value)
    ensures Tight(Collapse(v))
    ensures IsJson(v) ==> IsJson(Collapse(v))
    ensures WellFormed(v) ==> WellFormed(Collapse(v))
    decreases v
  {
    match v
    case Arr(items) =>
      forall i | 0 <= i < |items| ensures CollapseItems(items)[i] == Collapse(items[i]) && Tight(Collapse(items[i]))
        && (IsJson(items[i]) ==> IsJson(Collapse(items[i])))
        && (WellFormed(items[i]) ==> WellFormed(Collapse(items[i])))
      {
        CollapsedItem(items, i);
        CollapseSound(items[i]);
      }
    case Obj(fields) =>
      forall i | 0 <= i < |fields|
        ensures CollapseFields(fields)[i] == Field(fields[i].key, Collapse(fields[i].value))
        ensures Tight(Collapse(fields[i].value))
        ensures IsJson(fields[i].value) ==> IsJson(Collapse(fields[i].value))
        ensures WellFormed(fields[i].value) ==> WellFormed(Collapse(fields[i].value))
      {
        CollapsedField(fields, i);
        CollapseSound(fields[i].value);
      }
    case _ =>
  }

  // ------------------------------------------------------- collapsing is not seen

  lemma {:induction false} CollapsePrints(v: Value)
    requires IsJson(v)
    ensures IsJson(Collapse(v)) && PrintAs(Collapse(v), []) == PrintAs(v, [])
    decreases v, 1
  {
    CollapseSound(v);
    match v
    case Arr(items) =>
      CollapsedItemsPrint(items);
      if CollapseItems(items) == [Null] { assert PrintItems(CollapseItems(items), []) == []; }
    case Obj(fields) => CollapsedFieldsPrint(fields);
    case _ =>
  }

  lemma {:induction false} CollapsedItemsPrint(items: seq<Value>)
    requires forall i :: 0 <= i < |items| ==> IsJson(items[i])
    ensures forall i :: 0 <= i < |items| ==> IsJson(CollapseItems(items)[i])
    ensures PrintItems(CollapseItems(items), []) == PrintItems(items, [])
    decreases items, 0
  {
    if items != [] {
      CollapsePrints(items[0]);
      CollapsedItemsPrint(items[1..]);
      assert CollapseItems(items)[1..] == CollapseItems(items[1..]);
    }
  }

  lemma {:induction false} CollapsedFieldsPrint(fields: seq<Field<Value>>)
    requires forall i :: 0 <= i < |fields| ==> IsJson(fields[i].value)
    ensures forall i :: 0 <= i < |fields| ==> IsJson(CollapseFields(fields)[i].value)
    ensures PrintFields(CollapseFields(fields), []) == PrintFields(fields, [])
    decreases fields, 0
  {
    if fields != [] {
      CollapsePrints(fields[0].value);
      CollapsedFieldsPrint(fields[1..]);
      assert CollapseFields(fields)[1..] == CollapseFields(fields[1..]);
    }
  }

  // --------------------------------------------------------- nothing else is lost

  predicate EndsValue(u: CodeUnit) {
    u == COMMA || u == CLOSE_BRACKET || u == CLOSE_BRACE
  }

  /** The text is at its end, or goes on as it does after a value. */
  predicate Ends(rest: Text) {
    rest == [] || EndsValue(rest[0])
  }

  /** The kind of a value other than null shows in the first code unit of its text. */
  lemma {:induction false} SparseStart(v: Value)
    requires IsJson(v) && v != Null
    ensures PrintAs(v, []) != [] && !EndsValue(PrintAs(v, [])[0])
    ensures v.Arr? <==> PrintAs(v, [])[0] == OPEN_BRACKET
    ensures v.Obj? <==> PrintAs(v, [])[0] == OPEN_BRACE
  {
    if v.Num? { NumberCharacters(v.literal); }
  }

  lemma {:induction false} ScalarsApart(v: Value, w: Value, rest: Text, rest': Text)
    requires IsJson(v) && IsJson(w) && v != Null && w != Null && !v.Arr? && !v.Obj? && !w.Arr? && !w.Obj?
    requires Ends(rest) && Ends(rest') && PrintAs(v, []) + rest == PrintAs(w, []) + rest'
    ensures v == w && rest == rest'
  {
    ParseScalar(v, rest);
    ParseScalar(w, rest');
  }

  /** The text of a value, with what may follow it, determines both. */
  lemma {:induction false} SparseInjective(v: Value, w: Value, rest: Text, rest': Text)
    requires IsJson(v) && IsJson(w) && Tight(v) && Tight(w) && Ends(rest) && Ends(rest')
    requires PrintAs(v, []) + rest == PrintAs(w, []) + rest'
    ensures v == w && rest == rest'
    decreases v, 1
  {
    var text := PrintAs(v, []) + rest;
    if v != Null { SparseStart(v); assert text[0] == PrintAs(v, [])[0]; }
    if w != Null { SparseStart(w); assert text[0] == PrintAs(w, [])[0]; }
    if v.Arr? && w.Arr? {
      ArraysApart(v.items, w.items, rest, rest');
    } else if v.Obj? && w.Obj? {
      ObjectsApart(v.fields, w.fields, rest, rest');
    } else if v != Null && w != Null {
      ScalarsApart(v, w, rest, rest');
    } else if v == Null && w == Null {
      assert [] + rest == rest && [] + rest' == rest';
    }
  }

  function More(items: seq<Value>, rest: Text): Text
    requires items != [] && forall i :: 0 <= i < |items| ==> IsJson(items[i])
  {
    if |items| == 1 then [CLOSE_BRACKET] + rest else [COMMA] + (PrintItems(items[1..], []) + ([CLOSE_BRACKET] + rest))
  }

  lemma {:induction false} SparseItemsText(items: seq<Value>, rest: Text)
    requires items != [] && forall i :: 0 <= i < |items| ==> IsJson(items[i])
    ensures PrintItems(items, []) + ([CLOSE_BRACKET] + rest) == PrintAs(items[0], []) + More(items, rest)
  {
  }

  /** The items of an array that is neither empty nor of one null do not start with its end. */
  lemma {:induction false} SparseItemsStart(items: seq<Value>, rest: Text)
    requires items != [] && items != [Null] && forall i :: 0 <= i < |items| ==> IsJson(items[i])
    ensures (PrintItems(items, []) + ([CLOSE_BRACKET] + rest))[0] != CLOSE_BRACKET
  {
    SparseItemsText(items, rest);
    if items[0] == Null {
      assert PrintAs(items[0], []) + More(items, rest) == More(items, rest);
    } else {
      SparseStart(items[0]);
    }
  }

  lemma {:induction false} ArraysApart(items: seq<Value>, items': seq<Value>, rest: Text, rest': Text)
    requires (forall i :: 0 <= i < |items| ==> IsJson(items[i]) && Tight(items[i])) && items != [Null]
    requires (forall i :: 0 <= i < |items'| ==> IsJson(items'[i]) && Tight(items'[i])) && items' != [Null]
    requires [OPEN_BRACKET] + PrintItems(items, []) + [CLOSE_BRACKET] + rest
          == [OPEN_BRACKET] + PrintItems(items', []) + [CLOSE_BRACKET] + rest'
    ensures items == items' && rest == rest'
    decreases items, 1
  {
    var a, b := PrintItems(items, []) + ([CLOSE_BRACKET] + rest), PrintItems(items', []) + ([CLOSE_BRACKET] + rest');
    assert [OPEN_BRACKET] + PrintItems(items, []) + [CLOSE_BRACKET] + rest == [OPEN_BRACKET] + a;
    assert [OPEN_BRACKET] + PrintItems(items', []) + [CLOSE_BRACKET] + rest' == [OPEN_BRACKET] + b;
    assert a == ([OPEN_BRACKET] + a)[1..] == ([OPEN_BRACKET] + b)[1..] == b;
    if items != [] { SparseItemsStart(items, rest); }
    if items' != [] { SparseItemsStart(items', rest'); }
    if items != [] && items' != [] {
      ItemsApart(items, items', rest, rest');
    } else {
      assert a[0] == b[0];
      assert a == [CLOSE_BRACKET] + rest && b == [CLOSE_BRACKET] + rest';
      assert rest == a[1..] == b[1..] == rest';
    }
  }

  lemma {:induction false} MoreApart(items: seq<Value>, items': seq<Value>, rest: Text, rest': Text)
    requires items != [] && forall i :: 0 <= i < |items| ==> IsJson(items[i])
    requires items' != [] && forall i :: 0 <= i < |items'| ==> IsJson(items'[i])
    requires More(items, rest) == More(items', rest')
    ensures |items| == 1 <==> |items'| == 1
    ensures |items| == 1 ==> rest == rest'
    ensures |items| > 1 ==>
      PrintItems(items[1..], []) + ([CLOSE_BRACKET] + rest) == PrintItems(items'[1..], []) + ([CLOSE_BRACKET] + rest')
  {
    var m, m' := More(items, rest), More(items', rest');
    assert m[0] == m'[0] && m[1..] == m'[1..];
  }

  lemma {:induction false} ItemsApart(items: seq<Value>, items': seq<Value>, rest: Text, rest': Text)
    requires items != [] && forall i :: 0 <= i < |items| ==> IsJson(items[i]) && Tight(items[i])
    requires items' != [] && forall i :: 0 <= i < |items'| ==> IsJson(items'[i]) && Tight(items'[i])
    requires PrintItems(items, []) + ([CLOSE_BRACKET] + rest) == PrintItems(items', []) + ([CLOSE_BRACKET] + rest')
    ensures items == items' && rest == rest'
    decreases items, 0
  {
    SparseItemsText(items, rest);
    SparseItemsText(items', rest');
    SparseInjective(items[0], items'[0], More(items, rest), More(items', rest'));
    MoreApart(items, items', rest, rest');
    if |items| > 1 {
      ItemsApart(items[1..], items'[1..], rest, rest');
      assert items == [items[0]] + items[1..] && items' == [items'[0]] + items'[1..];
    }
  }

  function MoreFields(fields: seq<Field<Value>>, rest: Text): Text
    requires fields != [] && forall i :: 0 <= i < |fields| ==> IsJson(fields[i].value)
  {
    if |fields| == 1 then [CLOSE_BRACE] + rest else [COMMA] + (PrintFields(fields[1..], []) + ([CLOSE_BRACE] + rest))
  }

  lemma {:induction false} Regroup(escaped: Text, value: Text, tail: Text, rest: Text)
    ensures ([QUOTE] + escaped + [QUOTE]) + [COLON] + value + rest ==
      [QUOTE] + (escaped + [QUOTE] + ([COLON] + (value + rest)))
    ensures ([QUOTE] + escaped + [QUOTE]) + [COLON] + value + [COMMA] + tail + rest
         == [QUOTE] + (escaped + [QUOTE] + ([COLON] + (value + ([COMMA] + (tail + rest)))))
  {
  }

  lemma {:induction false} SparseFieldsText(fields: seq<Field<Value>>, rest: Text)
    requires fields != [] && forall i :: 0 <= i < |fields| ==> IsJson(fields[i].value)
    ensures PrintFields(fields, []) + ([CLOSE_BRACE] + rest) == [QUOTE] +
      (Escape(fields[0].key) + [QUOTE] + ([COLON] + (PrintAs(fields[0].value, []) + MoreFields(fields, rest))))
  {
    var value := PrintAs(fields[0].value, []);
    var tail := if |fields| == 1 then [] else PrintFields(fields[1..], []);
    Regroup(Escape(fields[0].key), value, tail, [CLOSE_BRACE] + rest);
  }

  lemma {:induction false} ObjectsApart(fields: seq<Field<Value>>, fields': seq<Field<Value>>, rest: Text, rest': Text)
    requires forall i :: 0 <= i < |fields| ==> IsJson(fields[i].value) && Tight(fields[i].value)
    requires forall i :: 0 <= i < |fields'| ==> IsJson(fields'[i].value) && Tight(fields'[i].value)
    requires [OPEN_BRACE] + PrintFields(fields, []) + [CLOSE_BRACE] + rest
          == [OPEN_BRACE] + PrintFields(fields', []) + [CLOSE_BRACE] + rest'
    ensures fields == fields' && rest == rest'
    decreases fields, 1
  {
    var a, b := PrintFields(fields, []) + ([CLOSE_BRACE] + rest), PrintFields(fields', []) + ([CLOSE_BRACE] + rest');
    assert [OPEN_BRACE] + PrintFields(fields, []) + [CLOSE_BRACE] + rest == [OPEN_BRACE] + a;
    assert [OPEN_BRACE] + PrintFields(fields', []) + [CLOSE_BRACE] + rest' == [OPEN_BRACE] + b;
    assert a == ([OPEN_BRACE] + a)[1..] == ([OPEN_BRACE] + b)[1..] == b;
    if fields != [] { SparseFieldsText(fields, rest); assert a[0] == QUOTE; }
    if fields' != [] { SparseFieldsText(fields', rest'); assert b[0] == QUOTE; }
    if fields != [] && fields' != [] {
      FieldsApart(fields, fields', rest, rest');
    } else {
      assert a[0] == b[0];
      assert a == [CLOSE_BRACE] + rest && b == [CLOSE_BRACE] + rest';
      assert rest == a[1..] == b[1..] == rest';
    }
  }

  lemma {:induction false} KeysApart(key: Text, key': Text, x: Text, x': Text)
    requires [QUOTE] + (Escape(key) + [QUOTE] + x) == [QUOTE] + (Escape(key') + [QUOTE] + x')
    ensures key == key' && x == x'
  {
    var a, b := Escape(key) + [QUOTE] + x, Escape(key') + [QUOTE] + x';
    assert a == ([QUOTE] + a)[1..] == ([QUOTE] + b)[1..] == b;
    ReadQuoted(key, x);
    ReadQuoted(key', x');
  }

  lemma {:induction false} MoreFieldsApart(
    fields: seq<Field<Value>>, fields': seq<Field<Value>>, rest: Text, rest': Text)
    requires fields != [] && forall i :: 0 <= i < |fields| ==> IsJson(fields[i].value)
    requires fields' != [] && forall i :: 0 <= i < |fields'| ==> IsJson(fields'[i].value)
    requires MoreFields(fields, rest) == MoreFields(fields', rest')
    ensures |fields| == 1 <==> |fields'| == 1
    ensures |fields| == 1 ==> rest == rest'
    ensures |fields| > 1 ==>
      PrintFields(fields[1..], []) + ([CLOSE_BRACE] + rest) == PrintFields(fields'[1..], []) + ([CLOSE_BRACE] + rest')
  {
    var m, m' := MoreFields(fields, rest), MoreFields(fields', rest');
    assert m[0] == m'[0] && m[1..] == m'[1..];
  }

  /** The first field's key and value, and the text after it. */
  lemma {:induction false} FirstFieldApart(
    fields: seq<Field<Value>>, fields': seq<Field<Value>>, rest: Text, rest': Text)
    requires fields != [] && forall i :: 0 <= i < |fields| ==> IsJson(fields[i].value)
    requires fields' != [] && forall i :: 0 <= i < |fields'| ==> IsJson(fields'[i].value)
    requires PrintFields(fields, []) + ([CLOSE_BRACE] + rest) == PrintFields(fields', []) + ([CLOSE_BRACE] + rest')
    ensures fields[0].key == fields'[0].key
    ensures PrintAs(fields[0].value, []) + MoreFields(fields, rest) ==
      PrintAs(fields'[0].value, []) + MoreFields(fields', rest')
  {
    SparseFieldsText(fields, rest);
    SparseFieldsText(fields', rest');
    var x := PrintAs(fields[0].value, []) + MoreFields(fields, rest);
    var x' := PrintAs(fields'[0].value, []) + MoreFields(fields', rest');
    KeysApart(fields[0].key, fields'[0].key, [COLON] + x, [COLON] + x');
    assert x == ([COLON] + x)[1..] == ([COLON] + x')[1..] == x';
  }

  lemma {:induction false} FieldsApart(fields: seq<Field<Value>>, fields': seq<Field<Value>>, rest: Text, rest': Text)
    requires fields != [] && forall i :: 0 <= i < |fields| ==> IsJson(fields[i].value) && Tight(fields[i].value)
    requires fields' != [] && forall i :: 0 <= i < |fields'| ==> IsJson(fields'[i].value) && Tight(fields'[i].value)
    requires PrintFields(fields, []) + ([CLOSE_BRACE] + rest) == PrintFields(fields', []) + ([CLOSE_BRACE] + rest')
    ensures fields == fields' && rest == rest'
    decreases fields, 0
  {
    FirstFieldApart(fields, fields', rest, rest');
    SparseInjective(fields[0].value, fields'[0].value, MoreFields(fields, rest), MoreFields(fields', rest'));
    MoreFieldsApart(fields, fields', rest, rest');
    if |fields| > 1 {
      FieldsApart(fields[1..], fields'[1..], rest, rest');
      assert fields == [fields[0]] + fields[1..] && fields' == [fields'[0]] + fields'[1..];
    }
  }

  // ------------------------------------------------------------- key order aside

  lemma {:induction false} InsertCollapses(f: Field<Value>, fs: seq<Field<Value>>, less: Order)
    ensures CollapseFields(Insert(f, fs, less)) == Insert(Field(f.key, Collapse(f.value)), CollapseFields(fs), less)
  {
    if fs != [] && !less(f.key, fs[0].key) {
      InsertCollapses(f, fs[1..], less);
      assert ([fs[0]] + Insert(f, fs[1..], less))[1..] == Insert(f, fs[1..], less);
      assert CollapseFields(fs)[1..] == CollapseFields(fs[1..]);
    } else {
      assert ([f] + fs)[1..] == fs;
    }
  }

  lemma {:induction false} SortCollapses(fs: seq<Field<Value>>, less: Order)
    ensures CollapseFields(Sort(fs, less)) == Sort(CollapseFields(fs), less)
  {
    if fs != [] {
      SortCollapses(fs[1..], less);
      InsertCollapses(fs[0], Sort(fs[1..], less), less);
      assert CollapseFields(fs)[1..] == CollapseFields(fs[1..]);
    }
  }

  lemma {:induction false} OneNullOrdered(items: seq<Value>, less: Order)
    ensures OrderedItems(items, less) == [Null] <==> items == [Null]
  {
    if |items| == 1 { OrderedItemAt(items, less, 0); }
  }

  /** Ordering keys and emptying arrays do not interfere. */
  lemma {:induction false} CollapseOrdered(v: Value, less: Order)
    ensures Collapse(Ordered(v, less)) == Ordered(Collapse(v), less)
    decreases v, 1
  {
    match v
    case Arr(items) =>
      OrderedItemsCollapse(items, less);
      ArrayCollapses(items, less);
    case Obj(fields) =>
      OrderedFieldsCollapse(fields, less);
      ObjectCollapses(fields, less);
    case _ =>
  }

  lemma {:induction false} ArrayCollapses(items: seq<Value>, less: Order)
    requires CollapseItems(OrderedItems(items, less)) == OrderedItems(CollapseItems(items), less)
    ensures Collapse(Ordered(Arr(items), less)) == Ordered(Collapse(Arr(items)), less)
  {
    OneNullOrdered(CollapseItems(items), less);
  }

  lemma {:induction false} ObjectCollapses(fields: seq<Field<Value>>, less: Order)
    requires CollapseFields(OrderedFields(fields, less)) == OrderedFields(CollapseFields(fields), less)
    ensures Collapse(Ordered(Obj(fields), less)) == Ordered(Collapse(Obj(fields)), less)
  {
    SortCollapses(OrderedFields(fields, less), less);
  }

  lemma {:induction false} OrderedItemsCollapse(items: seq<Value>, less: Order)
    ensures CollapseItems(OrderedItems(items, less)) == OrderedItems(CollapseItems(items), less)
    decreases items, 0
  {
    if items != [] {
      CollapseOrdered(items[0], less);
      OrderedItemsCollapse(items[1..], less);
      assert OrderedItems(items, less)[1..] == OrderedItems(items[1..], less);
      assert CollapseItems(items)[1..] == CollapseItems(items[1..]);
    }
  }

  lemma {:induction false} OrderedFieldsCollapse(fields: seq<Field<Value>>, less: Order)
    ensures CollapseFields(OrderedFields(fields, less)) == OrderedFields(CollapseFields(fields), less)
    decreases fields, 0
  {
    if fields != [] {
      CollapseOrdered(fields[0].value, less);
      OrderedFieldsCollapse(fields[1..], less);
      assert OrderedFields(fields, less)[1..] == OrderedFields(fields[1..], less);
      assert CollapseFields(fields)[1..] == CollapseFields(fields[1..]);
    }
  }

  /** Two bodies serialize alike if and only if they have the same content on the wire, arrays of one null
      being taken as empty. */
  lemma {:induction false} SerializedAlikeIff(v: Value, w: Value, less: Order)
    requires StrictTotalOrder(less) && WellFormed(v) && WellFormed(w)
    ensures StableSerialize(v, less) == StableSerialize(w, less) <==> SameContent(Collapse(Wire(v)), Collapse(Wire(w)))
  {
    SerializedText(v, less);
    SerializedText(w, less);
    var a, b := Collapse(Normal(v, less)), Collapse(Normal(w, less));
    if StableSerialize(v, less) == StableSerialize(w, less) {
      assert PrintAs(a, []) + [] == PrintAs(b, []) + [];
      SparseInjective(a, b, [], []);
    }
    CollapseOrdered(Wire(v), less);
    CollapseOrdered(Wire(w), less);
    WireIsJson(v);
    WireIsJson(w);
    CollapseSound(Wire(v));
    CollapseSound(Wire(w));
    OrderedIffSameContent(Collapse(Wire(v)), Collapse(Wire(w)), less);
  }

  lemma {:induction false} SerializedText(v: Value, less: Order)
    requires WellFormed(v)
    ensures IsJson(Collapse(Normal(v, less))) && Tight(Collapse(Normal(v, less)))
    ensures StableSerialize(v, less) == PrintAs(Collapse(Normal(v, less)), [])
  {
    CanonicalIsPrinted(v, less, []);
    CollapseSound(Normal(v, less));
    CollapsePrints(Normal(v, less));
  }

  /** The two different contents that serialize alike. */
  lemma OneNullLooksEmpty(less: Order)
    ensures StableSerialize(Arr([Null]), less) == StableSerialize(Arr([]), less)
    ensures !SameContent(Wire(Arr([Null])), Wire(Arr([])))
  {
  }
}
