/** Base32 secrets of the portal: the encoding of random bytes and its decoder. Strings of `0` and
    `1` are sequences of booleans here. */
module Base32 {
  import opened Wrappers
  import opened Strings

  type Byte = b: nat | b < 256 witness 0
  type Digit = d: nat | d < 32 witness 0

  // ------------------------------------------------------------ numbers and bits

  function Pow2(n: nat): (r: nat)
    ensures r >= 1
  {
    if n == 0 then 1 else 2 * Pow2(n - 1)
  }

  /** `n.toString(2).padStart(width, '0')` */
  function Bits(n: nat, width: nat): (r: seq<bool>)
    requires n < Pow2(width)
    ensures |r| == width
  {
    if width == 0 then [] else Bits(n / 2, width - 1) + [n % 2 == 1]
  }

  /** `parseInt(bits, 2)` */
  function Value(bits: seq<bool>): (r: nat)
    ensures r < Pow2(|bits|)
  {
    if bits == [] then 0
    else 2 * Value(bits[..|bits| - 1]) + if bits[|bits| - 1] then 1 else 0
  }

  lemma {:induction false} ValueOfBits(n: nat, width: nat)
    requires n < Pow2(width)
    ensures Value(Bits(n, width)) == n
  {
    if width > 0 {
      var bits := Bits(n, width);
      assert bits[..|bits| - 1] == Bits(n / 2, width - 1);
      ValueOfBits(n / 2, width - 1);
    }
  }

  lemma {:induction false} BitsOfValue(bits: seq<bool>)
    ensures Bits(Value(bits), |bits|) == bits
  {
    if bits != [] {
      var front := bits[..|bits| - 1];
      BitsOfValue(front);
      assert Value(bits) / 2 == Value(front);
      assert bits == front + [bits[|bits| - 1]];
    }
  }

  lemma Widths()
    ensures Pow2(5) == 32 && Pow2(8) == 256
  {
    assert Pow2(2) == 4 && Pow2(4) == 16 && Pow2(6) == 64;
  }

  // ---------------------------------------------------------------- the alphabet

  /** `ABCDEFGHIJKLMNOPQRSTUVWXYZ234567` */
  function Symbol(d: Digit): char {
    if d < 26 then ('A' as int + d) as char else ('2' as int + (d - 26)) as char
  }

  predicate IsSymbol(c: char) {
    'A' <= c <= 'Z' || '2' <= c <= '7'
  }

  function Index(c: char): Digit
    requires IsSymbol(c)
  {
    if 'A' <= c <= 'Z' then c as int - 'A' as int else c as int - '2' as int + 26
  }

  const ALPHABET := "ABCDEFGHIJKLMNOPQRSTUVWXYZ234567"

  lemma SymbolAt(d: Digit)
    ensures |ALPHABET| == 32 && ALPHABET[d] == Symbol(d)
  {
    if d < 26 {
      assert forall i :: 0 <= i < 26 ==> ALPHABET[i] == ('A' as int + i) as char;
    } else {
      assert forall i :: 26 <= i < 32 ==> ALPHABET[i] == ('2' as int + (i - 26)) as char;
    }
  }

  /** The symbols are those of the alphabet, each at its own place. */
  lemma SymbolsAreTheAlphabet(d: Digit, c: char)
    ensures |ALPHABET| == 32 && Symbol(d) == ALPHABET[d] && IsSymbol(ALPHABET[d]) && Index(ALPHABET[d]) == d
    ensures IsSymbol(c) <==> c in ALPHABET
  {
    SymbolAt(d);
    forall i: Digit ensures ALPHABET[i] == Symbol(i) { SymbolAt(i); }
    if IsSymbol(c) { assert ALPHABET[Index(c)] == c; }
  }

  // ------------------------------------------------------------------- encoding

  function ByteBits(b: Byte): (r: seq<bool>)
    ensures |r| == 8
  {
    Widths();
    Bits(b, 8)
  }

  function DigitBits(d: Digit): (r: seq<bool>)
    ensures |r| == 5
  {
    Widths();
    Bits(d, 5)
  }

  function DataBits(data: seq<Byte>): (r: seq<bool>)
    ensures |r| == 8 * |data|
  {
    if data == [] then [] else ByteBits(data[0]) + DataBits(data[1..])
  }

  function Zeros(n: nat): (r: seq<bool>)
    ensures |r| == n
  {
    if n == 0 then [] else [false] + Zeros(n - 1)
  }

  /** `padEnd(5, '0')` */
  function Padded(bits: seq<bool>): (r: seq<bool>)
    ensures |bits| <= 5 ==> |r| == 5
    ensures bits <= r
  {
    if |bits| < 5 then bits + Zeros(5 - |bits|) else bits
  }

  function GroupSymbol(bits: seq<bool>): char
    requires |bits| == 5
  {
    Widths();
    Symbol(Value(bits))
  }

  function EncodeBits(bits: seq<bool>): string {
    if bits == [] then ""
    else if |bits| < 5 then [GroupSymbol(Padded(bits))]
    else [GroupSymbol(bits[..5])] + EncodeBits(bits[5..])
  }

  function Encode(data: seq<Byte>): string {
    EncodeBits(DataBits(data))
  }

  lemma {:induction false} DataBitsAppend(data: seq<Byte>, b: Byte)
    ensures DataBits(data + [b]) == DataBits(data) + ByteBits(b)
  {
    if data == [] {
      assert data + [b] == [b] && DataBits([b]) == ByteBits(b) + DataBits([]);
    } else {
      assert (data + [b])[1..] == data[1..] + [b];
      DataBitsAppend(data[1..], b);
    }
  }

  /** The group of up to five bits at `i`. */
  function Group(bits: seq<bool>, i: nat): (r: seq<bool>)
    requires i < |bits|
    ensures |r| == 5
  {
    Padded(bits[i..if i + 5 <= |bits| then i + 5 else |bits|])
  }

  function EncodeFrom(bits: seq<bool>, i: nat): string {
    if i < |bits| then EncodeBits(bits[i..]) else ""
  }

  lemma {:induction false} EncodeStep(bits: seq<bool>, i: nat)
    requires i < |bits|
    ensures EncodeFrom(bits, i) == [GroupSymbol(Group(bits, i))] + EncodeFrom(bits, i + 5)
  {
    var rest := bits[i..];
    if |rest| > 5 {
      assert rest[..5] == bits[i..i + 5] && rest[5..] == bits[i + 5..];
    } else if |rest| == 5 {
      assert rest[..5] == bits[i..i + 5] && rest[5..] == [];
      assert EncodeBits(rest[5..]) == "" && Group(bits, i) == rest[..5];
    } else {
      assert rest == bits[i..|bits|];
      assert [GroupSymbol(Padded(rest))] + "" == [GroupSymbol(Padded(rest))];
    }
  }

  /** The second loop of `randomBase32`. */
  method BitsToSymbols(bits: seq<bool>) returns (out: string)
    ensures out == EncodeBits(bits)
  {
    out := "";
    var i := 0;
    assert bits[0..] == bits;
    while i < |bits|
      invariant 0 <= i
      invariant EncodeBits(bits) == out + EncodeFrom(bits, i)
    {
      EncodeStep(bits, i);
      var c := GroupSymbol(Group(bits, i));
      assert out + ([c] + EncodeFrom(bits, i + 5)) == (out + [c]) + EncodeFrom(bits, i + 5);
      out := out + [c];
      i := i + 5;
    }
  }

  /** `randomBase32`, on given random bytes. */
  method EncodeBase32(data: seq<Byte>) returns (out: string)
    ensures out == Encode(data)
  {
    var bits: seq<bool> := [];
    var k := 0;
    while k < |data|
      invariant 0 <= k <= |data|
      invariant bits == DataBits(data[..k])
    {
      DataBitsAppend(data[..k], data[k]);
      assert data[..k] + [data[k]] == data[..k + 1];
      bits := bits + ByteBits(data[k]);
      k := k + 1;
    }
    assert data[..k] == data;
    out := BitsToSymbols(bits);
  }

  // ------------------------------------------------------------------- decoding

  function WithoutSpaces(s: string): string {
    if s == "" then "" else (if IsSpace(s[0]) then "" else [s[0]]) + WithoutSpaces(s[1..])
  }

  function WithoutPadding(s: string): (r: string)
    ensures r <= s
  {
    if s != "" && s[|s| - 1] == '=' then WithoutPadding(s[..|s| - 1]) else s
  }

  function Clean(value: string): string {
    Upper(WithoutPadding(WithoutSpaces(value)))
  }

  /** None if some character is not in the alphabet. */
  function SymbolBits(s: string): Option<seq<bool>> {
    if s == "" then Some([])
    else if !IsSymbol(s[0]) then None
    else match SymbolBits(s[1..])
      case Some(rest) => Some(DigitBits(Index(s[0])) + rest)
      case None => None
  }

  function ByteValue(bits: seq<bool>): Byte
    requires |bits| == 8
  {
    Widths();
    Value(bits)
  }

  /** Whole groups of eight bits; what is left over is dropped. */
  function WholeBytes(bits: seq<bool>): seq<Byte> {
    if |bits| < 8 then [] else [ByteValue(bits[..8])] + WholeBytes(bits[8..])
  }

  /** `base32Decode`; None stands for the error `Invalid TOTP secret.` */
  function Decode(value: string): Option<seq<Byte>> {
    match SymbolBits(Clean(value))
    case Some(bits) => Some(WholeBytes(bits))
    case None => None
  }

  lemma SymbolBitsStep(c: char, rest: string)
    requires IsSymbol(c) && SymbolBits(rest).Some?
    ensures SymbolBits([c] + rest) == Some(DigitBits(Index(c)) + SymbolBits(rest).value)
  {
    assert ([c] + rest)[1..] == rest;
  }

  lemma WholeBytesFrom(bits: seq<bool>, i: nat)
    requires i + 8 <= |bits|
    ensures WholeBytes(bits[i..]) == [ByteValue(bits[i..i + 8])] + WholeBytes(bits[i + 8..])
  {
    assert bits[i..][..8] == bits[i..i + 8] && bits[i..][8..] == bits[i + 8..];
  }

  lemma {:induction false} SymbolBitsFail(s: string, k: nat)
    requires k < |s| && !IsSymbol(s[k])
    ensures SymbolBits(s) == None
  {
    if k > 0 { SymbolBitsFail(s[1..], k - 1); }
  }

  lemma {:induction false} SymbolBitsAppend(s: string, c: char)
    requires SymbolBits(s).Some? && IsSymbol(c)
    ensures SymbolBits(s + [c]) == Some(SymbolBits(s).value + DigitBits(Index(c)))
  {
    var own := DigitBits(Index(c));
    if s == "" {
      assert s + [c] == [c] && [c][1..] == "";
      assert own + [] == own && [] + own == own;
    } else {
      assert (s + [c])[1..] == s[1..] + [c];
      SymbolBitsAppend(s[1..], c);
      assert DigitBits(Index(s[0])) + (SymbolBits(s[1..]).value + own) ==
        (DigitBits(Index(s[0])) + SymbolBits(s[1..]).value) + own;
    }
  }

  /** The second loop of `base32Decode`. */
  method BitsToBytes(bits: seq<bool>) returns (bytes: seq<Byte>)
    ensures bytes == WholeBytes(bits)
  {
    bytes := [];
    var i := 0;
    assert bits[0..] == bits;
    while i + 8 <= |bits|
      invariant 0 <= i <= |bits|
      invariant WholeBytes(bits) == bytes + WholeBytes(bits[i..])
    {
      WholeBytesFrom(bits, i);
      assert bytes + ([ByteValue(bits[i..i + 8])] + WholeBytes(bits[i + 8..])) ==
        (bytes + [ByteValue(bits[i..i + 8])]) + WholeBytes(bits[i + 8..]);
      bytes := bytes + [ByteValue(bits[i..i + 8])];
      i := i + 8;
    }
    assert WholeBytes(bits[i..]) == [];
  }

  method DecodeBase32(value: string) returns (r: Option<seq<Byte>>)
    ensures r == Decode(value)
  {
    var clean := Clean(value);
    var bits: seq<bool> := [];
    var k := 0;
    while k < |clean|
      invariant 0 <= k <= |clean|
      invariant SymbolBits(clean[..k]) == Some(bits)
    {
      if !IsSymbol(clean[k]) {
        SymbolBitsFail(clean, k);
        return None;
      }
      SymbolBitsAppend(clean[..k], clean[k]);
      assert clean[..k] + [clean[k]] == clean[..k + 1];
      bits := bits + DigitBits(Index(clean[k]));
      k := k + 1;
    }
    assert clean[..k] == clean;
    var bytes := BitsToBytes(bits);
    r := Some(bytes);
  }

  // ----------------------------------------------------------------- round trip

  lemma SymbolIndex(d: Digit)
    ensures IsSymbol(Symbol(d)) && Index(Symbol(d)) == d
  {
  }

  /** A symbol stands for its five bits. */
  lemma GroupRoundTrip(bits: seq<bool>)
    requires |bits| == 5
    ensures IsSymbol(GroupSymbol(bits)) && DigitBits(Index(GroupSymbol(bits))) == bits
  {
    Widths();
    SymbolIndex(Value(bits));
    BitsOfValue(bits);
  }

  /** The symbols stand for the bits and fewer than five surplus zero bits. */
  lemma {:induction false} EncodedAreSymbols(bits: seq<bool>)
    ensures AllSymbols(EncodeBits(bits))
  {
    if |bits| >= 5 {
      GroupRoundTrip(bits[..5]);
      EncodedAreSymbols(bits[5..]);
    } else if bits != [] {
      GroupRoundTrip(Padded(bits));
    }
  }

  lemma LastGroup(bits: seq<bool>)
    requires |bits| < 5
    ensures SymbolBits(EncodeBits(bits)) == Some(bits + Zeros(if bits == [] then 0 else 5 - |bits|))
  {
    if bits == [] {
      assert bits + Zeros(0) == [];
    } else {
      var c := GroupSymbol(Padded(bits));
      GroupRoundTrip(Padded(bits));
      SymbolBitsStep(c, "");
      assert [c] + "" == [c] && Padded(bits) + [] == Padded(bits);
    }
  }

  lemma {:induction false} SymbolBitsGroup(group: seq<bool>, rest: string)
    requires |group| == 5 && SymbolBits(rest).Some?
    ensures SymbolBits([GroupSymbol(group)] + rest) == Some(group + SymbolBits(rest).value)
  {
    GroupRoundTrip(group);
    SymbolBitsStep(GroupSymbol(group), rest);
  }

  lemma {:induction false} FirstGroup(bits: seq<bool>, tail: seq<bool>)
    requires |bits| >= 5 && SymbolBits(EncodeBits(bits[5..])) == Some(bits[5..] + tail)
    ensures SymbolBits(EncodeBits(bits)) == Some(bits + tail)
  {
    var group, rest := bits[..5], bits[5..];
    assert EncodeBits(bits) == [GroupSymbol(group)] + EncodeBits(rest);
    SymbolBitsGroup(group, EncodeBits(rest));
    assert bits == group + rest;
    SplitTail(group, rest, tail);
  }

  lemma SplitTail(group: seq<bool>, rest: seq<bool>, tail: seq<bool>)
    ensures group + (rest + tail) == (group + rest) + tail
  {
  }

  lemma {:induction false} BitsRoundTrip(bits: seq<bool>) returns (surplus: nat)
    ensures surplus < 5
    ensures SymbolBits(EncodeBits(bits)) == Some(bits + Zeros(surplus))
  {
    if |bits| < 5 {
      surplus := if bits == [] then 0 else 5 - |bits|;
      LastGroup(bits);
    } else {
      surplus := BitsRoundTrip(bits[5..]);
      FirstGroup(bits, Zeros(surplus));
    }
  }

  lemma ByteRoundTrip(b: Byte)
    ensures ByteValue(ByteBits(b)) == b
  {
    Widths();
    ValueOfBits(b, 8);
  }

  lemma {:induction false} BytesRoundTrip(data: seq<Byte>, surplus: seq<bool>)
    requires |surplus| < 8
    ensures WholeBytes(DataBits(data) + surplus) == data
  {
    if data == [] {
      assert DataBits(data) + surplus == surplus;
    } else {
      var bits := DataBits(data) + surplus;
      ByteRoundTrip(data[0]);
      assert bits[..8] == ByteBits(data[0]) && bits[8..] == DataBits(data[1..]) + surplus;
      BytesRoundTrip(data[1..], surplus);
    }
  }

  ghost predicate AllSymbols(s: string) {
    forall i :: 0 <= i < |s| ==> IsSymbol(s[i])
  }

  lemma {:induction false} SymbolsKept(s: string)
    requires AllSymbols(s)
    ensures WithoutSpaces(s) == s && Upper(s) == s
  {
    if s != "" {
      assert AllSymbols(s[1..]);
      SymbolsKept(s[1..]);
    }
  }

  lemma CleanSymbols(s: string)
    requires AllSymbols(s)
    ensures Clean(s) == s
  {
    SymbolsKept(s);
    assert s != "" ==> s[|s| - 1] != '=';
  }

  /** Decoding what was encoded gives back the bytes, whatever their number. */
  lemma RoundTrip(data: seq<Byte>)
    ensures Decode(Encode(data)) == Some(data)
  {
    var surplus := BitsRoundTrip(DataBits(data));
    EncodedAreSymbols(DataBits(data));
    CleanSymbols(Encode(data));
    BytesRoundTrip(data, Zeros(surplus));
  }

  /** Decoding fails exactly when a character outside the alphabet is left after cleaning. */
  lemma {:induction false} DecodeFailsIff(value: string)
    ensures Decode(value) == None <==> !AllSymbols(Clean(value))
  {
    SymbolBitsFailsIff(Clean(value));
  }

  lemma {:induction false} SymbolBitsFailsIff(s: string)
    ensures SymbolBits(s) == None <==> !AllSymbols(s)
  {
    if s != "" {
      SymbolBitsFailsIff(s[1..]);
      assert AllSymbols(s) ==> AllSymbols(s[1..]);
      assert IsSymbol(s[0]) && AllSymbols(s[1..]) ==> AllSymbols([s[0]] + s[1..]);
      assert s == [s[0]] + s[1..];
    }
  }

  // ------------------------------------------------------ what decoding ignores

  /** Lower-case ASCII letters. */
  function LowerLetter(c: char): char {
    if 'A' <= c <= 'Z' then c + 32 as char else c
  }

  function LowerLetters(s: string): (r: string)
    ensures |r| == |s|
  {
    if s == "" then "" else [LowerLetter(s[0])] + LowerLetters(s[1..])
  }

  lemma LowerStep(c: char, rest: string)
    ensures LowerLetters([c] + rest) == [LowerLetter(c)] + LowerLetters(rest)
  {
    assert ([c] + rest)[1..] == rest;
  }

  lemma SpacesStep(c: char, rest: string)
    ensures WithoutSpaces([c] + rest) == (if IsSpace(c) then "" else [c]) + WithoutSpaces(rest)
  {
    assert ([c] + rest)[1..] == rest;
  }

  lemma {:induction false} LowerSpaces(s: string)
    ensures WithoutSpaces(LowerLetters(s)) == LowerLetters(WithoutSpaces(s))
  {
    if s != "" {
      var c, rest := s[0], s[1..];
      LowerSpaces(rest);
      SpacesStep(LowerLetter(c), LowerLetters(rest));
      LowerStep(c, WithoutSpaces(rest));
      assert "" + WithoutSpaces(rest) == WithoutSpaces(rest);
      assert "" + WithoutSpaces(LowerLetters(rest)) == WithoutSpaces(LowerLetters(rest));
    }
  }

  lemma {:induction false} LowerUpper(s: string)
    ensures Upper(LowerLetters(s)) == Upper(s)
  {
    if s != "" { LowerUpper(s[1..]); }
  }

  lemma {:induction false} LowerAt(s: string, i: nat)
    requires i < |s|
    ensures LowerLetters(s)[i] == LowerLetter(s[i])
    ensures LowerLetters(s)[..i] == LowerLetters(s[..i])
  {
    if i > 0 {
      LowerAt(s[1..], i - 1);
      assert s[..i][1..] == s[1..][..i - 1];
      assert LowerLetters(s)[..i] == [LowerLetters(s)[0]] + LowerLetters(s[1..])[..i - 1];
    }
  }

  lemma {:induction false} LowerPadding(s: string)
    ensures WithoutPadding(LowerLetters(s)) == LowerLetters(WithoutPadding(s))
  {
    if s != "" {
      LowerAt(s, |s| - 1);
      if s[|s| - 1] == '=' { LowerPadding(s[..|s| - 1]); }
    }
  }

  /** Letters in either case decode alike. */
  lemma CaseIsIgnored(value: string)
    ensures Decode(LowerLetters(value)) == Decode(value)
  {
    LowerSpaces(value);
    LowerPadding(WithoutSpaces(value));
    LowerUpper(WithoutPadding(WithoutSpaces(value)));
  }

  lemma {:induction false} SpaceDropped(left: string, space: char, right: string)
    requires IsSpace(space)
    ensures WithoutSpaces(left + [space] + right) == WithoutSpaces(left + right)
  {
    if left == "" {
      assert left + [space] + right == [space] + right && left + right == right;
    } else {
      assert (left + [space] + right)[1..] == left[1..] + [space] + right && (left + right)[1..] == left[1..] + right;
      SpaceDropped(left[1..], space, right);
    }
  }

  /** White space anywhere makes no difference. */
  lemma SpaceIsIgnored(left: string, space: char, right: string)
    requires IsSpace(space)
    ensures Decode(left + [space] + right) == Decode(left + right)
  {
    SpaceDropped(left, space, right);
  }

  lemma {:induction false} PaddingKept(s: string)
    ensures WithoutSpaces(s + "=") == WithoutSpaces(s) + "="
  {
    if s != "" {
      assert (s + "=")[1..] == s[1..] + "=";
      PaddingKept(s[1..]);
    }
  }

  /** A trailing `=` makes no difference. */
  lemma PaddingIsIgnored(value: string)
    ensures Decode(value + "=") == Decode(value)
  {
    PaddingKept(value);
    var s := WithoutSpaces(value);
    assert (s + "=")[..|s|] == s;
  }
}
