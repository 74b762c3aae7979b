/** The string operations of the language that the gateway's checks rest on. */
module Strings {

  /** The white space that `trim` removes and `\s` matches. */
  predicate IsSpace(c: char) {
    || '\t' <= c <= '\r' || c == ' ' || c == '\U{A0}' || c == '\U{1680}'
    || '\U{2000}' <= c <= '\U{200A}' || c == '\U{2028}' || c == '\U{2029}'
    || c == '\U{202F}' || c == '\U{205F}' || c == '\U{3000}' || c == '\U{FEFF}'
  }

  /** The white space and line terminators of ECMA-262, sections 12.2 and 12.3. */
  const SPACES := "\t\n\U{B}\U{C}\r \U{A0}\U{1680}\U{2000}\U{2001}\U{2002}\U{2003}\U{2004}\U{2005}\U{2006}"
    + "\U{2007}\U{2008}\U{2009}\U{200A}\U{2028}\U{2029}\U{202F}\U{205F}\U{3000}\U{FEFF}"

  lemma SpaceIff(c: char)
    ensures IsSpace(c) <==> c in SPACES
  {
    if IsSpace(c) {
      var i: nat := if c <= '\r' then c as int - 9 else if c == ' ' then 5 else if c == '\U{A0}' then 6
        else if c == '\U{1680}' then 7 else if c <= '\U{200A}' then c as int - 0x2000 + 8
        else if c == '\U{2028}' then 19 else if c == '\U{2029}' then 20 else if c == '\U{202F}' then 21
        else if c == '\U{205F}' then 22 else if c == '\U{3000}' then 23 else 24;
      assert SPACES[i] == c;
    }
  }

  function TrimStart(s: string): string {
    if s != "" && IsSpace(s[0]) then TrimStart(s[1..]) else s
  }

  function TrimEnd(s: string): string {
    if s != "" && IsSpace(s[|s| - 1]) then TrimEnd(s[..|s| - 1]) else s
  }

  function Trim(s: string): string {
    TrimEnd(TrimStart(s))
  }

  predicate IsTrimmed(s: string) {
    s == "" || (!IsSpace(s[0]) && !IsSpace(s[|s| - 1]))
  }

  lemma {:induction false} TrimmedIsFixed(s: string)
    requires IsTrimmed(s)
    ensures Trim(s) == s
  {
  }

  predicate Blank(s: string) {
    forall i :: 0 <= i < |s| ==> IsSpace(s[i])
  }

  lemma {:induction false} TrimStartDrops(a: string, s: string)
    requires Blank(a)
    ensures TrimStart(a + s) == TrimStart(s)
  {
    if a == "" {
      assert a + s == s;
    } else {
      assert (a + s)[1..] == a[1..] + s;
      TrimStartDrops(a[1..], s);
    }
  }

  lemma {:induction false} TrimEndDrops(s: string, b: string)
    requires Blank(b)
    ensures TrimEnd(s + b) == TrimEnd(s)
  {
    if b == "" {
      assert s + b == s;
    } else {
      assert (s + b)[..|s + b| - 1] == s + b[..|b| - 1];
      TrimEndDrops(s, b[..|b| - 1]);
    }
  }

  /** White space is dropped at both ends, and nowhere else. */
  lemma {:induction false} TrimDrops(a: string, s: string, b: string)
    requires Blank(a) && IsTrimmed(s) && Blank(b)
    ensures Trim(a + s + b) == s
  {
    assert a + s + b == a + (s + b);
    TrimStartDrops(a, s + b);
    if s == "" {
      assert s + b == b && b == b + "";
      TrimStartDrops(b, "");
    } else {
      assert (s + b)[0] == s[0];
      TrimEndDrops(s, b);
    }
  }

  /** `toUpperCase` of one character. Outside ASCII only these have an upper case that is all ASCII letters;
      any other one is left as it is here, and in either case holds a character outside ASCII. */
  function UpperChar(c: char): string {
    if 'a' <= c <= 'z' then [c - 32 as char]
    else if c == '\U{131}' then "I"
    else if c == '\U{17F}' then "S"
    else if c == '\U{DF}' then "SS"
    else if c == '\U{FB00}' then "FF"
    else if c == '\U{FB01}' then "FI"
    else if c == '\U{FB02}' then "FL"
    else if c == '\U{FB03}' then "FFI"
    else if c == '\U{FB04}' then "FFL"
    else if c == '\U{FB05}' || c == '\U{FB06}' then "ST"
    else [c]
  }

  const SMALL := "abcdefghijklmnopqrstuvwxyz"
  const LARGE := "ABCDEFGHIJKLMNOPQRSTUVWXYZ"

  /** The capitals of the letters, and of the signs that have ASCII capitals. */
  lemma UpperLetters(k: nat)
    requires k < 26
    ensures |SMALL| == |LARGE| == 26 && UpperChar(SMALL[k]) == [LARGE[k]] && UpperChar(LARGE[k]) == [LARGE[k]]
    ensures UpperChar('\U{131}') == "I" && UpperChar('\U{17F}') == "S" && UpperChar('\U{DF}') == "SS"
    ensures UpperChar('\U{FB00}') == "FF" && UpperChar('\U{FB01}') == "FI" && UpperChar('\U{FB02}') == "FL"
    ensures UpperChar('\U{FB03}') == "FFI" && UpperChar('\U{FB04}') == "FFL"
    ensures UpperChar('\U{FB05}') == UpperChar('\U{FB06}') == "ST"
  {
    assert forall i :: 0 <= i < 26 ==> SMALL[i] == ('a' as int + i) as char && LARGE[i] == ('A' as int + i) as char;
  }

  function Upper(s: string): string {
    if s == "" then "" else UpperChar(s[0]) + Upper(s[1..])
  }

  function Join(parts: seq<string>, separator: char): string {
    if parts == [] then ""
    else if |parts| == 1 then parts[0]
    else parts[0] + [separator] + Join(parts[1..], separator)
  }

  /** `split` with a one-character separator: never empty. */
  function Split(s: string, separator: char): (r: seq<string>)
    ensures r != []
  {
    if s == "" then [""]
    else
      var rest := Split(s[1..], separator);
      if s[0] == separator then [""] + rest else [[s[0]] + rest[0]] + rest[1..]
  }

  lemma {:induction false} SplitWord(word: string, rest: string, separator: char)
    requires separator !in word
    ensures Split(word + [separator] + rest, separator) == [word] + Split(rest, separator)
    ensures Split(word, separator) == [word]
  {
    if word == "" {
      assert word + [separator] + rest == [separator] + rest;
      assert ([separator] + rest)[1..] == rest;
    } else {
      assert word == [word[0]] + word[1..];
      SplitWord(word[1..], rest, separator);
      assert (word + [separator] + rest)[1..] == word[1..] + [separator] + rest;
    }
  }

  /** Splitting what was joined gives back the parts. */
  lemma {:induction false} SplitJoin(parts: seq<string>, separator: char)
    requires parts != [] && forall p <- parts :: separator !in p
    ensures Split(Join(parts, separator), separator) == parts
  {
    if |parts| == 1 {
      SplitWord(parts[0], "", separator);
    } else {
      SplitJoin(parts[1..], separator);
      SplitWord(parts[0], Join(parts[1..], separator), separator);
    }
  }

  /** There is always a longer string. */
  lemma {:induction false} LongerThan(taken: set<string>) returns (n: nat)
    ensures forall t <- taken :: |t| < n
  {
    n := 0;
    if t :| t in taken {
      var rest := LongerThan(taken - {t});
      n := if rest <= |t| then |t| + 1 else rest;
    }
  }

  lemma {:induction false} FreshString(taken: set<string>) returns (s: string)
    ensures s !in taken
  {
    var n := LongerThan(taken);
    s := seq(n, _ => '0');
  }
}
