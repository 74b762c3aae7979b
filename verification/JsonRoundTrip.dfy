/** Parsing printed JSON gives back exactly the value printed. */
module JsonRoundTrip {
  import opened Wrappers
  import opened Json

  /** The signs and words of the grammar of RFC 8259, sections 2 and 7, as characters. */
  lemma Grammar()
    ensures QUOTE == '"' as int && BACKSLASH == '\\' as int && SLASH == '/' as int
    ensures COMMA == ',' as int && COLON == ':' as int && PLUS == '+' as int && MINUS == '-' as int && DOT == '.' as int
    ensures OPEN_BRACKET == '[' as int && CLOSE_BRACKET == ']' as int
    ensures OPEN_BRACE == '{' as int && CLOSE_BRACE == '}' as int
    ensures NULL_TEXT == ['n' as int, 'u' as int, 'l' as int, 'l' as int]
    ensures TRUE_TEXT == ['t' as int, 'r' as int, 'u' as int, 'e' as int]
    ensures FALSE_TEXT == ['f' as int, 'a' as int, 'l' as int, 's' as int, 'e' as int]
    ensures EscapeUnit('\n' as int) == [BACKSLASH, 'n' as int] && EscapeUnit('\r' as int) == [BACKSLASH, 'r' as int]
    ensures EscapeUnit('\t' as int) == [BACKSLASH, 't' as int] && EscapeUnit(8) == [BACKSLASH, 'b' as int]
    ensures EscapeUnit(12) == [BACKSLASH, 'f' as int]
    ensures EscapeUnit(0x1F) == [BACKSLASH, 'u' as int, '0' as int, '0' as int, '1' as int, 'f' as int]
  {
  }

  /** The text does not go on in a way that a number before it could absorb. */
  predicate Delimited(rest: Text) {
    rest == [] || !InNumber(rest[0])
  }

  lemma HexRoundTrip(n: int)
    requires 0 <= n < 16
    ensures HexValue(HexDigit(n)) == Some(n)
  {
  }

  lemma HexDigits(u: CodeUnit)
    ensures u == u / 16 / 16 / 16 * 0x1000 + u / 16 / 16 % 16 * 0x100 + u / 16 % 16 * 0x10 + u % 16
    ensures u / 16 / 16 / 16 < 16
  {
    var a := u / 16;
    var b := a / 16;
    assert u == a * 16 + u % 16 && a == b * 16 + a % 16 && b == b / 16 * 16 + b % 16;
  }

  lemma {:induction false} ReadEscaped(u: CodeUnit, rest: Text)
    ensures ReadUnit(EscapeUnit(u) + rest) == Some(Parsed(u, rest))
    ensures EscapeUnit(u)[0] != QUOTE
  {
    var t := EscapeUnit(u) + rest;
    assert t[|EscapeUnit(u)|..] == rest;
    if |EscapeUnit(u)| == 6 {
      HexDigits(u);
      HexRoundTrip(u / 16 / 16 / 16);
      HexRoundTrip(u / 16 / 16 % 16);
      HexRoundTrip(u / 16 % 16);
      HexRoundTrip(u % 16);
      assert t[2..6] ==
        [HexDigit(u / 16 / 16 / 16), HexDigit(u / 16 / 16 % 16), HexDigit(u / 16 % 16), HexDigit(u % 16)];
    }
  }

  lemma {:induction false} ReadCharsStep(front: Text, u: CodeUnit, rest: Text, s: Text, rest': Text)
    requires front != [] && front[0] != QUOTE && ReadUnit(front + rest) == Some(Parsed(u, rest))
    requires ReadChars(rest) == Some(Parsed(s, rest'))
    ensures ReadChars(front + rest) == Some(Parsed([u] + s, rest'))
  {
  }

  lemma {:induction false} EscapeText(s: Text, rest: Text)
    requires s != []
    ensures
      var pair := |s| > 1 && IsLead(s[0]) && IsTrail(s[1]);
      Escape(s) + [QUOTE] + rest ==
        if pair then [s[0]] + ([s[1]] + (Escape(s[2..]) + [QUOTE] + rest))
        else EscapeUnit(s[0]) + (Escape(s[1..]) + [QUOTE] + rest)
  {
  }

  lemma {:induction false} ReadQuoted(s: Text, rest: Text)
    ensures ReadChars(Escape(s) + [QUOTE] + rest) == Some(Parsed(s, rest))
    decreases |s|
  {
    if s == [] {
      assert Escape(s) + [QUOTE] + rest == [QUOTE] + rest;
    } else {
      EscapeText(s, rest);
      if |s| > 1 && IsLead(s[0]) && IsTrail(s[1]) {
        ReadQuoted(s[2..], rest);
        ReadPair(s[0], s[1], Escape(s[2..]) + [QUOTE] + rest, s[2..], rest);
        assert [s[0], s[1]] + s[2..] == s;
      } else {
        ReadQuoted(s[1..], rest);
        ReadOne(s[0], Escape(s[1..]) + [QUOTE] + rest, s[1..], rest);
        assert [s[0]] + s[1..] == s;
      }
    }
  }

  lemma {:induction false} ReadPair(lead: CodeUnit, trail: CodeUnit, tail: Text, s: Text, rest: Text)
    requires IsLead(lead) && IsTrail(trail) && ReadChars(tail) == Some(Parsed(s, rest))
    ensures ReadChars([lead] + ([trail] + tail)) == Some(Parsed([lead, trail] + s, rest))
  {
    assert ([trail] + tail)[1..] == tail;
    ReadCharsStep([trail], trail, tail, s, rest);
    assert ([lead] + ([trail] + tail))[1..] == [trail] + tail;
    ReadCharsStep([lead], lead, [trail] + tail, [trail] + s, rest);
    assert [lead] + ([trail] + s) == [lead, trail] + s;
  }

  lemma {:induction false} ReadOne(u: CodeUnit, tail: Text, s: Text, rest: Text)
    requires ReadChars(tail) == Some(Parsed(s, rest))
    ensures ReadChars(EscapeUnit(u) + tail) == Some(Parsed([u] + s, rest))
  {
    ReadEscaped(u, tail);
    ReadCharsStep(EscapeUnit(u), u, tail, s, rest);
  }

  lemma {:induction false} NumberRunOfPrefix(a: Text, rest: Text)
    requires AllInNumber(a) && Delimited(rest)
    ensures NumberRun(a + rest) == |a|
  {
    if a == [] {
      assert a + rest == rest;
    } else {
      assert (a + rest)[1..] == a[1..] + rest;
      NumberRunOfPrefix(a[1..], rest);
    }
  }

  lemma {:induction false} DigitsInNumber(t: Text)
    ensures forall i :: 0 <= i < Digits(t) ==> IsDigit(t[i])
  {
    if t != [] && IsDigit(t[0]) {
      DigitsInNumber(t[1..]);
      assert forall i :: 1 <= i < Digits(t) ==> t[i] == t[1..][i - 1];
    }
  }

  lemma {:induction false} NoSpaceToSkip(t: Text)
    requires t == [] || !IsSpace(t[0])
    ensures SkipSpace(t) == t
  {
  }

  ghost predicate AllInNumber(t: Text) {
    forall i :: 0 <= i < |t| ==> InNumber(t[i])
  }

  lemma Rejoin(t: Text, n: nat)
    requires n <= |t| && AllInNumber(t[..n]) && AllInNumber(t[n..])
    ensures AllInNumber(t)
  {
    assert t == t[..n] + t[n..];
  }

  /** A number literal is a non-empty run of the characters the parser collects. */
  lemma {:induction false} NumberCharacters(t: Text)
    requires ValidNumber(t)
    ensures t != [] && (t[0] == MINUS || IsDigit(t[0]))
    ensures AllInNumber(t)
  {
    var sign := if t[0] == MINUS then 1 else 0;
    var a := t[sign..];
    var n := Digits(a);
    DigitsInNumber(a);
    FractionCharacters(a[n..]);
    Rejoin(a, n);
    Rejoin(t, sign);
  }

  lemma {:induction false} FractionCharacters(t: Text)
    requires ValidFraction(t)
    ensures AllInNumber(t)
  {
    if t != [] && t[0] == DOT {
      var a := t[1..];
      var n := Digits(a);
      DigitsInNumber(a);
      ExponentCharacters(a[n..]);
      Rejoin(a, n);
      Rejoin(t, 1);
    } else {
      ExponentCharacters(t);
    }
  }

  lemma {:induction false} ExponentCharacters(t: Text)
    requires ValidExponent(t)
    ensures AllInNumber(t)
  {
    if t != [] {
      var k := if |t| > 1 && (t[1] == PLUS || t[1] == MINUS) then 2 else 1;
      DigitsInNumber(t[k..]);
      Rejoin(t, k);
    }
  }

  lemma {:induction false} ReadNumberBack(literal: Text, rest: Text)
    requires ValidNumber(literal) && Delimited(rest)
    ensures ReadNumber(literal + rest) == Some(Parsed(Num(literal), rest))
  {
    NumberCharacters(literal);
    NumberRunOfPrefix(literal, rest);
    assert (literal + rest)[..|literal|] == literal && (literal + rest)[|literal|..] == rest;
  }

  lemma {:induction false} ParseNumber(literal: Text, rest: Text)
    requires ValidNumber(literal) && Delimited(rest)
    ensures Parse(literal + rest) == Some(Parsed(Num(literal), rest))
  {
    ReadNumberBack(literal, rest);
    NumberCharacters(literal);
    var t := literal + rest;
    assert t[0] == literal[0];
    NoSpaceToSkip(t);
    assert Parse(t) == ReadNumber(t);
  }

  lemma {:induction false} ParseWord(word: Text, v: Value, rest: Text)
    requires
      || (word == NULL_TEXT && v == Null) || (word == TRUE_TEXT && v == Bool(true))
      || (word == FALSE_TEXT && v == Bool(false))
    ensures Parse(word + rest) == Some(Parsed(v, rest))
  {
    var t := word + rest;
    NoSpaceToSkip(t);
    assert word <= t && t[|word|..] == rest;
  }

  lemma {:induction false} ParseString(s: Text, rest: Text)
    ensures Parse(Quote(s) + rest) == Some(Parsed(Str(s), rest))
  {
    var t := Quote(s) + rest;
    NoSpaceToSkip(t);
    ReadQuoted(s, rest);
    assert t[1..] == Escape(s) + [QUOTE] + rest;
  }

  lemma {:induction false} ParseScalar(v: Value, rest: Text)
    requires IsJson(v) && !v.Arr? && !v.Obj? && Delimited(rest)
    ensures Parse(PrintScalar(v, NULL_TEXT) + rest) == Some(Parsed(v, rest))
  {
    match v
    case Num(literal) => ParseNumber(literal, rest);
    case Str(s) => ParseString(s, rest);
    case Null => ParseWord(NULL_TEXT, v, rest);
    case Bool(b) => ParseWord(if b then TRUE_TEXT else FALSE_TEXT, v, rest);
  }

  /** Printed JSON starts with neither white space nor a closing bracket. */
  lemma {:induction false} PrintStart(v: Value)
    requires IsJson(v)
    ensures Print(v) != [] && !IsSpace(Print(v)[0]) && Print(v)[0] != CLOSE_BRACKET
  {
    if v.Num? { NumberCharacters(v.literal); }
  }

  // ----------------------------------------------- one step of each list parser

  lemma {:induction false} LastItem(t: Text, v: Value, rest: Text)
    requires Parse(t) == Some(Parsed(v, [CLOSE_BRACKET] + rest))
    ensures ParseItems(t) == Some(Parsed([v], rest))
  {
    NoSpaceToSkip([CLOSE_BRACKET] + rest);
  }

  lemma {:induction false} NextItem(t: Text, v: Value, more: Text, vs: seq<Value>, rest: Text)
    requires Parse(t) == Some(Parsed(v, [COMMA] + more)) && ParseItems(more) == Some(Parsed(vs, rest))
    ensures ParseItems(t) == Some(Parsed([v] + vs, rest))
  {
    NoSpaceToSkip([COMMA] + more);
    assert ([COMMA] + more)[1..] == more;
  }

  lemma {:induction false} LastField(t: Text, f: Field<Value>, rest: Text)
    requires ParseField(t) == Some(Parsed(f, [CLOSE_BRACE] + rest))
    ensures ParseFields(t) == Some(Parsed([f], rest))
  {
    NoSpaceToSkip([CLOSE_BRACE] + rest);
  }

  lemma {:induction false} NextField(t: Text, f: Field<Value>, more: Text, fs: seq<Field<Value>>, rest: Text)
    requires ParseField(t) == Some(Parsed(f, [COMMA] + more)) && ParseFields(more) == Some(Parsed(fs, rest))
    ensures ParseFields(t) == Some(Parsed([f] + fs, rest))
  {
    NoSpaceToSkip([COMMA] + more);
    assert ([COMMA] + more)[1..] == more;
  }

  lemma {:induction false} OneField(chars: Text, key: Text, text: Text, v: Value, rest: Text)
    requires ReadChars(chars) == Some(Parsed(key, [COLON] + text)) && Parse(text) == Some(Parsed(v, rest))
    ensures ParseField([QUOTE] + chars) == Some(Parsed(Field(key, v), rest))
  {
    NoSpaceToSkip([QUOTE] + chars);
    assert ([QUOTE] + chars)[1..] == chars;
    NoSpaceToSkip([COLON] + text);
    assert ([COLON] + text)[1..] == text;
  }

  lemma {:induction false} WholeArray(inner: Text, items: seq<Value>, rest: Text)
    requires inner != [] && !IsSpace(inner[0])
    requires
      if inner[0] == CLOSE_BRACKET then items == [] && inner[1..] == rest
      else ParseItems(inner) == Some(Parsed(items, rest))
    ensures Parse([OPEN_BRACKET] + inner) == Some(Parsed(Arr(items), rest))
  {
    NoSpaceToSkip([OPEN_BRACKET] + inner);
    NoSpaceToSkip(inner);
    assert ([OPEN_BRACKET] + inner)[1..] == inner;
  }

  lemma {:induction false} WholeObject(inner: Text, fields: seq<Field<Value>>, rest: Text)
    requires inner != [] && !IsSpace(inner[0])
    requires
      if inner[0] == CLOSE_BRACE then fields == [] && inner[1..] == rest
      else ParseFields(inner) == Some(Parsed(fields, rest))
    ensures Parse([OPEN_BRACE] + inner) == Some(Parsed(Obj(fields), rest))
  {
    NoSpaceToSkip([OPEN_BRACE] + inner);
    NoSpaceToSkip(inner);
    assert ([OPEN_BRACE] + inner)[1..] == inner;
  }

  // ------------------------------------------------------- arrays and objects

  /** Parsing what was printed, with other text after it, gives back the value and that text. */
  lemma {:induction false} RoundTrip(v: Value, rest: Text)
    requires IsJson(v) && Delimited(rest)
    ensures Parse(Print(v) + rest) == Some(Parsed(v, rest))
    decreases v, 1
  {
    match v
    case Arr(items) =>
      var inner := PrintItems(items, NULL_TEXT) + [CLOSE_BRACKET] + rest;
      assert Print(v) + rest == [OPEN_BRACKET] + inner;
      if items == [] {
        assert inner == [CLOSE_BRACKET] + rest;
      } else {
        ItemsStart(items);
        ItemsRoundTrip(items, rest);
      }
      WholeArray(inner, items, rest);
    case Obj(fields) =>
      var inner := PrintFields(fields, NULL_TEXT) + [CLOSE_BRACE] + rest;
      assert Print(v) + rest == [OPEN_BRACE] + inner;
      if fields == [] {
        assert inner == [CLOSE_BRACE] + rest;
      } else {
        assert PrintFields(fields, NULL_TEXT)[0] == QUOTE;
        FieldsRoundTrip(fields, rest);
      }
      WholeObject(inner, fields, rest);
    case _ => ParseScalar(v, rest);
  }

  lemma {:induction false} ItemsStart(items: seq<Value>)
    requires items != [] && forall i :: 0 <= i < |items| ==> IsJson(items[i])
    ensures PrintItems(items, NULL_TEXT) != [] && !IsSpace(PrintItems(items, NULL_TEXT)[0])
    ensures PrintItems(items, NULL_TEXT)[0] != CLOSE_BRACKET
  {
    PrintStart(items[0]);
  }

  /** How the text of an array's items splits after the first. */
  lemma {:induction false} ItemsText(items: seq<Value>, rest: Text)
    requires items != [] && forall i :: 0 <= i < |items| ==> IsJson(items[i])
    ensures PrintItems(items, NULL_TEXT) + [CLOSE_BRACKET] + rest == Print(items[0]) +
      if |items| == 1 then [CLOSE_BRACKET] + rest
      else [COMMA] + (PrintItems(items[1..], NULL_TEXT) + [CLOSE_BRACKET] + rest)
  {
  }

  lemma {:induction false} ItemsRoundTrip(items: seq<Value>, rest: Text)
    requires items != [] && forall i :: 0 <= i < |items| ==> IsJson(items[i])
    ensures ParseItems(PrintItems(items, NULL_TEXT) + [CLOSE_BRACKET] + rest) == Some(Parsed(items, rest))
    decreases items, 0
  {
    var t := PrintItems(items, NULL_TEXT) + [CLOSE_BRACKET] + rest;
    ItemsText(items, rest);
    if |items| == 1 {
      RoundTrip(items[0], [CLOSE_BRACKET] + rest);
      LastItem(t, items[0], rest);
      assert [items[0]] == items;
    } else {
      var more := PrintItems(items[1..], NULL_TEXT) + [CLOSE_BRACKET] + rest;
      RoundTrip(items[0], [COMMA] + more);
      ItemsRoundTrip(items[1..], rest);
      NextItem(t, items[0], more, items[1..], rest);
      assert [items[0]] + items[1..] == items;
    }
  }

  lemma {:induction false} FieldText(key: Text, value: Value, rest: Text)
    requires IsJson(value)
    ensures PrintField(key, value, NULL_TEXT) + rest ==
      [QUOTE] + (Escape(key) + [QUOTE] + ([COLON] + (Print(value) + rest)))
  {
  }

  lemma {:induction false} FieldRoundTrip(key: Text, value: Value, rest: Text)
    requires IsJson(value) && Delimited(rest)
    ensures ParseField(PrintField(key, value, NULL_TEXT) + rest) == Some(Parsed(Field(key, value), rest))
    decreases value, 2
  {
    FieldText(key, value, rest);
    var text := Print(value) + rest;
    ReadQuoted(key, [COLON] + text);
    RoundTrip(value, rest);
    OneField(Escape(key) + [QUOTE] + ([COLON] + text), key, text, value, rest);
  }

  /** How the text of an object's members splits after the first. */
  lemma {:induction false} FieldsText(fields: seq<Field<Value>>, rest: Text)
    requires fields != [] && forall i :: 0 <= i < |fields| ==> IsJson(fields[i].value)
    ensures PrintFields(fields, NULL_TEXT) + [CLOSE_BRACE] + rest ==
      PrintField(fields[0].key, fields[0].value, NULL_TEXT) +
      if |fields| == 1 then [CLOSE_BRACE] + rest
      else [COMMA] + (PrintFields(fields[1..], NULL_TEXT) + [CLOSE_BRACE] + rest)
  {
  }

  lemma {:induction false} FieldsRoundTrip(fields: seq<Field<Value>>, rest: Text)
    requires fields != [] && forall i :: 0 <= i < |fields| ==> IsJson(fields[i].value)
    ensures ParseFields(PrintFields(fields, NULL_TEXT) + [CLOSE_BRACE] + rest) == Some(Parsed(fields, rest))
    decreases fields, 0
  {
    var t := PrintFields(fields, NULL_TEXT) + [CLOSE_BRACE] + rest;
    var f := fields[0];
    FieldsText(fields, rest);
    if |fields| == 1 {
      FieldRoundTrip(f.key, f.value, [CLOSE_BRACE] + rest);
      LastField(t, f, rest);
      assert [f] == fields;
    } else {
      var more := PrintFields(fields[1..], NULL_TEXT) + [CLOSE_BRACE] + rest;
      FieldRoundTrip(f.key, f.value, [COMMA] + more);
      FieldsRoundTrip(fields[1..], rest);
      NextField(t, f, more, fields[1..], rest);
      assert [f] + fields[1..] == fields;
    }
  }

  /** Parsing the printed text of a JSON value gives back that value. */
  lemma {:induction false} PrintedTextParses(v: Value)
    requires IsJson(v)
    ensures ParseText(Print(v)) == Some(v)
  {
    RoundTrip(v, []);
    assert Print(v) + [] == Print(v);
  }

  /** Two JSON values are printed alike only if they are the same. */
  lemma {:induction false} PrintInjective(v: Value, w: Value)
    requires IsJson(v) && IsJson(w) && Print(v) == Print(w)
    ensures v == w
  {
    PrintedTextParses(v);
    PrintedTextParses(w);
  }
}
