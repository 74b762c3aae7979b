/** JSON text as UTF-16 code units: the printer every signer builds on, and a parser.

    Numbers are known by their literal text, which the printer copies; strings are
    sequences of code units, lone surrogates included. */
module Json {
  import opened Wrappers

  type CodeUnit = u: int | 0 <= u < 0x1_0000
  type Text = seq<CodeUnit>

  datatype Field<T> = Field(key: Text, value: T)

  /** A JavaScript value with JSON content; `Undefined` may occur as an array entry or a field. */
  datatype Value =
    | Undefined
    | Null
    | Bool(b: bool)
    | Num(literal: Text)
    | Str(s: Text)
    | Arr(items: seq<Value>)
    | Obj(fields: seq<Field<Value>>)

  const QUOTE: CodeUnit := 0x22
  const PLUS: CodeUnit := 0x2B
  const COMMA: CodeUnit := 0x2C
  const MINUS: CodeUnit := 0x2D
  const DOT: CodeUnit := 0x2E
  const SLASH: CodeUnit := 0x2F
  const COLON: CodeUnit := 0x3A
  const OPEN_BRACKET: CodeUnit := 0x5B
  const BACKSLASH: CodeUnit := 0x5C
  const CLOSE_BRACKET: CodeUnit := 0x5D
  const OPEN_BRACE: CodeUnit := 0x7B
  const CLOSE_BRACE: CodeUnit := 0x7D

  const NULL_TEXT: Text := [0x6E, 0x75, 0x6C, 0x6C]
  const TRUE_TEXT: Text := [0x74, 0x72, 0x75, 0x65]
  const FALSE_TEXT: Text := [0x66, 0x61, 0x6C, 0x73, 0x65]

  // -------------------------------------------------------------------- numbers

  predicate IsDigit(u: CodeUnit) {
    0x30 <= u <= 0x39
  }

  predicate IsExponentMark(u: CodeUnit) {
    u == 0x65 || u == 0x45
  }

  predicate InNumber(u: CodeUnit) {
    IsDigit(u) || u == PLUS || u == MINUS || u == DOT || IsExponentMark(u)
  }

  /** How many digits `t` starts with. */
  function Digits(t: Text): (n: nat)
    ensures n <= |t|
  {
    if t != [] && IsDigit(t[0]) then 1 + Digits(t[1..]) else 0
  }

  /** How many code units at the front of `t` may belong to a number. */
  function NumberRun(t: Text): (n: nat)
    ensures n <= |t|
  {
    if t != [] && InNumber(t[0]) then 1 + NumberRun(t[1..]) else 0
  }

  /** The number grammar of RFC 8259 section 6. */
  predicate ValidNumber(t: Text) {
    var a := if t != [] && t[0] == MINUS then t[1..] else t;
    var n := Digits(a);
    n > 0 && (a[0] == 0x30 ==> n == 1) && ValidFraction(a[n..])
  }

  predicate ValidFraction(t: Text) {
    if t != [] && t[0] == DOT then
      var n := Digits(t[1..]);
      n > 0 && ValidExponent(t[1..][n..])
    else ValidExponent(t)
  }

  predicate ValidExponent(t: Text) {
    t == [] ||
    (IsExponentMark(t[0]) &&
      var a := if |t| > 1 && (t[1] == PLUS || t[1] == MINUS) then t[2..] else t[1..];
      a != [] && Digits(a) == |a|)
  }

  // -------------------------------------------------------------------- strings

  predicate IsLead(u: CodeUnit) { 0xD800 <= u <= 0xDBFF }
  predicate IsTrail(u: CodeUnit) { 0xDC00 <= u <= 0xDFFF }

  function HexDigit(n: int): CodeUnit
    requires 0 <= n < 16
  {
    if n < 10 then 0x30 + n else 0x61 + n - 10
  }

  /** `JSON.stringify` on one code unit of a string. */
  function EscapeUnit(u: CodeUnit): Text {
    if u == QUOTE || u == BACKSLASH then [BACKSLASH, u]
    else if u == 0x08 then [BACKSLASH, 0x62]
    else if u == 0x09 then [BACKSLASH, 0x74]
    else if u == 0x0A then [BACKSLASH, 0x6E]
    else if u == 0x0C then [BACKSLASH, 0x66]
    else if u == 0x0D then [BACKSLASH, 0x72]
    else if u < 0x20 || IsLead(u) || IsTrail(u) then
      [BACKSLASH, 0x75, HexDigit(u / 16 / 16 / 16), HexDigit(u / 16 / 16 % 16), HexDigit(u / 16 % 16), HexDigit(u % 16)]
    else [u]
  }

  /** Surrogate pairs are copied, lone surrogates escaped. */
  function Escape(s: Text): Text {
    if s == [] then []
    else if |s| > 1 && IsLead(s[0]) && IsTrail(s[1]) then s[..2] + Escape(s[2..])
    else EscapeUnit(s[0]) + Escape(s[1..])
  }

  function Quote(s: Text): Text {
    [QUOTE] + Escape(s) + [QUOTE]
  }

  // ------------------------------------------------------------------- printing

  /** Nothing in the value is undefined and every number literal is one JSON allows. */
  predicate IsJson(v: Value) {
    match v
    case Undefined => false
    case Num(literal) => ValidNumber(literal)
    case Arr(items) => forall i :: 0 <= i < |items| ==> IsJson(items[i])
    case Obj(fields) => forall i :: 0 <= i < |fields| ==> IsJson(fields[i].value)
    case _ => true
  }

  /** The values that hold no others. The printers differ only in the text for null. */
  function PrintScalar(v: Value, nil: Text): Text {
    match v
    case Null => nil
    case Bool(b) => if b then TRUE_TEXT else FALSE_TEXT
    case Num(literal) => literal
    case Str(s) => Quote(s)
    case _ => []
  }

  function PrintAs(v: Value, nil: Text): Text
    requires IsJson(v)
    decreases v, 1
  {
    match v
    case Arr(items) => [OPEN_BRACKET] + PrintItems(items, nil) + [CLOSE_BRACKET]
    case Obj(fields) => [OPEN_BRACE] + PrintFields(fields, nil) + [CLOSE_BRACE]
    case _ => PrintScalar(v, nil)
  }

  function PrintItems(items: seq<Value>, nil: Text): Text
    requires forall i :: 0 <= i < |items| ==> IsJson(items[i])
    decreases items, 0
  {
    if items == [] then []
    else if |items| == 1 then PrintAs(items[0], nil)
    else PrintAs(items[0], nil) + [COMMA] + PrintItems(items[1..], nil)
  }

  function PrintFields(fields: seq<Field<Value>>, nil: Text): Text
    requires forall i :: 0 <= i < |fields| ==> IsJson(fields[i].value)
    decreases fields, 0
  {
    if fields == [] then []
    else if |fields| == 1 then PrintField(fields[0].key, fields[0].value, nil)
    else PrintField(fields[0].key, fields[0].value, nil) + [COMMA] + PrintFields(fields[1..], nil)
  }

  function PrintField(key: Text, value: Value, nil: Text): Text
    requires IsJson(value)
    decreases value, 2
  {
    Quote(key) + [COLON] + PrintAs(value, nil)
  }

  /** The value as JSON text. */
  function Print(v: Value): Text
    requires IsJson(v)
  {
    PrintAs(v, NULL_TEXT)
  }

  // -------------------------------------------------------------------- parsing

  /** A parsed value and the text after it. */
  datatype Parsed<+T> = Parsed(value: T, rest: Text)

  predicate IsSpace(u: CodeUnit) {
    u == 0x20 || u == 0x09 || u == 0x0A || u == 0x0D
  }

  function SkipSpace(t: Text): (r: Text)
    ensures |r| <= |t|
  {
    if t != [] && IsSpace(t[0]) then SkipSpace(t[1..]) else t
  }

  function HexValue(u: CodeUnit): Option<int> {
    if IsDigit(u) then Some(u - 0x30)
    else if 0x61 <= u <= 0x66 then Some(u - 0x61 + 10)
    else if 0x41 <= u <= 0x46 then Some(u - 0x41 + 10)
    else None
  }

  function ReadHex4(t: Text): Option<CodeUnit>
    requires |t| == 4
  {
    match (HexValue(t[0]), HexValue(t[1]), HexValue(t[2]), HexValue(t[3]))
    case (Some(a), Some(b), Some(c), Some(d)) =>
      var n := a * 0x1000 + b * 0x100 + c * 0x10 + d;
      if 0 <= n < 0x1_0000 then Some(n) else None
    case _ => None
  }

  /** One character of a string (RFC 8259 section 7), escaped or not. */
  function ReadUnit(t: Text): (r: Option<Parsed<CodeUnit>>)
    ensures r.Some? ==> |r.value.rest| < |t|
  {
    if t == [] || t[0] == QUOTE || t[0] < 0x20 then None
    else if t[0] != BACKSLASH then Some(Parsed(t[0], t[1..]))
    else if |t| < 2 then None
    else if t[1] == QUOTE || t[1] == BACKSLASH || t[1] == SLASH then Some(Parsed(t[1], t[2..]))
    else if t[1] == 0x62 then Some(Parsed(0x08, t[2..]))
    else if t[1] == 0x74 then Some(Parsed(0x09, t[2..]))
    else if t[1] == 0x6E then Some(Parsed(0x0A, t[2..]))
    else if t[1] == 0x66 then Some(Parsed(0x0C, t[2..]))
    else if t[1] == 0x72 then Some(Parsed(0x0D, t[2..]))
    else if t[1] == 0x75 && |t| >= 6 then
      match ReadHex4(t[2..6])
      case Some(u) => Some(Parsed(u, t[6..]))
      case None => None
    else None
  }

  /** The characters of a string up to its closing quote, which is consumed. */
  function ReadChars(t: Text): (r: Option<Parsed<Text>>)
    ensures r.Some? ==> |r.value.rest| < |t|
    decreases |t|
  {
    if t != [] && t[0] == QUOTE then Some(Parsed([], t[1..]))
    else
      match ReadUnit(t)
      case None => None
      case Some(Parsed(u, rest)) =>
        match ReadChars(rest)
        case None => None
        case Some(Parsed(s, rest')) => Some(Parsed([u] + s, rest'))
  }

  function ReadLiteral(t: Text, literal: Text, v: Value): (r: Option<Parsed<Value>>)
    requires literal != []
    ensures r.Some? ==> |r.value.rest| < |t|
  {
    if literal <= t then Some(Parsed(v, t[|literal|..])) else None
  }

  function ReadNumber(t: Text): (r: Option<Parsed<Value>>)
    ensures r.Some? ==> |r.value.rest| < |t|
  {
    var n := NumberRun(t);
    if ValidNumber(t[..n]) then Some(Parsed(Num(t[..n]), t[n..])) else None
  }

  /** A value (RFC 8259 sections 3 to 7), with white space allowed before it. */
  function Parse(text: Text): (r: Option<Parsed<Value>>)
    ensures r.Some? ==> |r.value.rest| < |text|
    decreases |text|, 1
  {
    var t := SkipSpace(text);
    if t == [] then None
    else if t[0] == NULL_TEXT[0] then ReadLiteral(t, NULL_TEXT, Null)
    else if t[0] == TRUE_TEXT[0] then ReadLiteral(t, TRUE_TEXT, Bool(true))
    else if t[0] == FALSE_TEXT[0] then ReadLiteral(t, FALSE_TEXT, Bool(false))
    else if t[0] == QUOTE then
      match ReadChars(t[1..])
      case None => None
      case Some(Parsed(s, rest)) => Some(Parsed(Str(s), rest))
    else if t[0] == OPEN_BRACKET then
      var inner := SkipSpace(t[1..]);
      if inner != [] && inner[0] == CLOSE_BRACKET then Some(Parsed(Arr([]), inner[1..]))
      else
        match ParseItems(inner)
        case None => None
        case Some(Parsed(items, rest)) => Some(Parsed(Arr(items), rest))
    else if t[0] == OPEN_BRACE then
      var inner := SkipSpace(t[1..]);
      if inner != [] && inner[0] == CLOSE_BRACE then Some(Parsed(Obj([]), inner[1..]))
      else
        match ParseFields(inner)
        case None => None
        case Some(Parsed(fields, rest)) => Some(Parsed(Obj(fields), rest))
    else ReadNumber(t)
  }

  /** The values of a non-empty array up to its closing bracket, which is consumed. */
  function ParseItems(text: Text): (r: Option<Parsed<seq<Value>>>)
    ensures r.Some? ==> |r.value.rest| < |text|
    decreases |text|, 2
  {
    match Parse(text)
    case None => None
    case Some(Parsed(v, after)) =>
      var t := SkipSpace(after);
      if t == [] then None
      else if t[0] == CLOSE_BRACKET then Some(Parsed([v], t[1..]))
      else if t[0] != COMMA then None
      else
        match ParseItems(t[1..])
        case None => None
        case Some(Parsed(vs, rest)) => Some(Parsed([v] + vs, rest))
  }

  /** The members of a non-empty object up to its closing brace, which is consumed. */
  function ParseFields(text: Text): (r: Option<Parsed<seq<Field<Value>>>>)
    ensures r.Some? ==> |r.value.rest| < |text|
    decreases |text|, 2
  {
    match ParseField(text)
    case None => None
    case Some(Parsed(f, after)) =>
      var t := SkipSpace(after);
      if t == [] then None
      else if t[0] == CLOSE_BRACE then Some(Parsed([f], t[1..]))
      else if t[0] != COMMA then None
      else
        match ParseFields(t[1..])
        case None => None
        case Some(Parsed(fs, rest)) => Some(Parsed([f] + fs, rest))
  }

  function ParseField(text: Text): (r: Option<Parsed<Field<Value>>>)
    ensures r.Some? ==> |r.value.rest| < |text|
    decreases |text|, 1
  {
    var t := SkipSpace(text);
    if t == [] || t[0] != QUOTE then None
    else
      match ReadChars(t[1..])
      case None => None
      case Some(Parsed(key, after)) =>
        var colon := SkipSpace(after);
        if colon == [] || colon[0] != COLON then None
        else
          match Parse(colon[1..])
          case None => None
          case Some(Parsed(v, rest)) => Some(Parsed(Field(key, v), rest))
  }

  /** A whole JSON text. */
  function ParseText(t: Text): Option<Value> {
    match Parse(t)
    case None => None
    case Some(Parsed(v, rest)) => if SkipSpace(rest) == [] then Some(v) else None
  }
}
