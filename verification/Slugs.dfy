/** Service codes as they are derived from text: by the developer portal, which cuts them at
    48 characters, and by the consent store, which does not. */
module Slugs {
  import opened Strings

  predicate IsCodeChar(c: char) {
    'a' <= c <= 'z' || '0' <= c <= '9'
  }

  /** `toLowerCase` of one character. Outside ASCII only the two signs below have a lower case
      with an ASCII letter in it; every other one stays outside `[a-z0-9]` and so is left alone. */
  function LowerChar(c: char): string {
    if 'A' <= c <= 'Z' then [c + 32 as char]
    else if c == '\U{212A}' then "k"
    else if c == '\U{130}' then "i\U{307}"
    else [c]
  }

  function Lower(s: string): string {
    if s == "" then "" else LowerChar(s[0]) + Lower(s[1..])
  }

  function SkipBreaks(s: string): (r: string)
    ensures |r| <= |s|
  {
    if s != "" && !IsCodeChar(s[0]) then SkipBreaks(s[1..]) else s
  }

  /** Every run of other characters becomes one hyphen. */
  function Dashed(s: string): string
    decreases |s|
  {
    if s == "" then ""
    else if IsCodeChar(s[0]) then [s[0]] + Dashed(s[1..])
    else "-" + Dashed(SkipBreaks(s[1..]))
  }

  function StripStart(s: string): string {
    if s != "" && s[0] == '-' then StripStart(s[1..]) else s
  }

  function StripEnd(s: string): string {
    if s != "" && s[|s| - 1] == '-' then StripEnd(s[..|s| - 1]) else s
  }

  /** `normalizeServiceCode` */
  function Normalize(s: string): string {
    StripEnd(StripStart(Dashed(Lower(Trim(s)))))
  }

  const MAX_CODE := 48

  function Cut(s: string, max: nat): string {
    if |s| <= max then s else s[..max]
  }

  const FALLBACK := "service"

  /** `slug` */
  function Slug(s: string): string {
    var cut := Cut(Normalize(s), MAX_CODE);
    if cut == "" then FALLBACK else cut
  }

  // ---------------------------------------------------------------------- laws

  /** Lower-case letters, digits and single hyphens. */
  ghost predicate Shaped(c: string) {
    && (forall i :: 0 <= i < |c| ==> IsCodeChar(c[i]) || c[i] == '-')
    && (forall i, j :: 0 <= i < j < |c| && j == i + 1 && c[i] == '-' ==> c[j] != '-')
  }

  ghost predicate Canonical(c: string) {
    Shaped(c) && (c != "" ==> c[0] != '-' && c[|c| - 1] != '-')
  }

  lemma {:induction false} StripStartLaws(s: string)
    ensures var r := StripStart(s); |r| <= |s| && r == s[|s| - |r|..] && (r != "" ==> r[0] != '-')
  {
    if s != "" && s[0] == '-' { StripStartLaws(s[1..]); }
  }

  lemma {:induction false} StripEndLaws(s: string)
    ensures var r := StripEnd(s); r <= s && (r != "" ==> r[|r| - 1] != '-')
  {
    if s != "" && s[|s| - 1] == '-' { StripEndLaws(s[..|s| - 1]); }
  }

  lemma {:induction false} SkippedStart(s: string)
    ensures SkipBreaks(s) != "" ==> IsCodeChar(SkipBreaks(s)[0])
  {
    if s != "" && !IsCodeChar(s[0]) { SkippedStart(s[1..]); }
  }

  lemma {:induction false} DashedIsShaped(s: string)
    ensures Shaped(Dashed(s))
    ensures s != "" && IsCodeChar(s[0]) ==> Dashed(s)[0] == s[0]
    decreases |s|
  {
    if s != "" {
      var rest := if IsCodeChar(s[0]) then s[1..] else SkipBreaks(s[1..]);
      SkippedStart(s[1..]);
      DashedIsShaped(rest);
      assert rest == "" ==> Dashed(rest) == "";
    }
  }

  // ------------------------------------------------ what a normalised code says

  const LETTERS := "abcdefghijklmnopqrstuvwxyz"
  const CAPITALS := "ABCDEFGHIJKLMNOPQRSTUVWXYZ"
  const DIGITS := "0123456789"

  /** Capitals become the same letters in lower case, and so do the Kelvin sign and the dotted I; those
      and digits are what a code is made of. */
  lemma LowerLetters(k: nat, c: char)
    requires k < 26
    ensures |LETTERS| == |CAPITALS| == 26
    ensures LowerChar(CAPITALS[k]) == [LETTERS[k]] && LowerChar(LETTERS[k]) == [LETTERS[k]]
    ensures LowerChar('\U{212A}') == "k" && LowerChar('\U{130}') == "i\U{307}"
    ensures IsCodeChar(c) <==> c in LETTERS || c in DIGITS
  {
    assert forall i :: 0 <= i < 26 ==> CAPITALS[i] == ('A' as int + i) as char;
    assert forall i :: 0 <= i < 26 ==> LETTERS[i] == ('a' as int + i) as char;
    assert forall i :: 0 <= i < 10 ==> DIGITS[i] == ('0' as int + i) as char;
    if 'a' <= c <= 'z' { assert LETTERS[c as int - 'a' as int] == c; }
    if '0' <= c <= '9' { assert DIGITS[c as int - '0' as int] == c; }
  }

  /** The runs of code characters of a text, in order. */
  function Words(s: string): (r: seq<string>)
    ensures s != "" && IsCodeChar(s[0]) ==> r != [] && r[0] != ""
  {
    if s == "" then []
    else if !IsCodeChar(s[0]) then Words(s[1..])
    else if |s| > 1 && IsCodeChar(s[1]) then [[s[0]] + Words(s[1..])[0]] + Words(s[1..])[1..]
    else [[s[0]]] + Words(s[1..])
  }

  predicate IsCodeWord(w: string) {
    w != "" && forall i :: 0 <= i < |w| ==> IsCodeChar(w[i])
  }

  lemma {:induction false} WordsAreCode(s: string)
    ensures forall i :: 0 <= i < |Words(s)| ==> IsCodeWord(Words(s)[i])
  {
    if s != "" { WordsAreCode(s[1..]); }
  }

  lemma {:induction false} SkippedSuffix(s: string)
    ensures var r := SkipBreaks(s); r == s[|s| - |r|..] && Words(r) == Words(s) && (r != "" ==> IsCodeChar(r[0]))
  {
    if s != "" && !IsCodeChar(s[0]) { SkippedSuffix(s[1..]); }
  }

  function Before(s: string): string {
    if s != "" && !IsCodeChar(s[0]) then "-" else ""
  }

  function After(s: string): string {
    if s != "" && !IsCodeChar(s[|s| - 1]) && Words(s) != [] then "-" else ""
  }

  lemma {:induction false} JoinFirst(w: string, rest: seq<string>)
    ensures rest != [] ==> Join([w] + rest, '-') == w + "-" + Join(rest, '-')
    ensures rest == [] ==> Join([w] + rest, '-') == w
  {
    assert ([w] + rest)[1..] == rest;
  }

  lemma {:induction false} WordsOf(c: char, u: string)
    ensures Words([c] + u) ==
      if !IsCodeChar(c) then Words(u)
      else if u != "" && IsCodeChar(u[0]) then [[c] + Words(u)[0]] + Words(u)[1..] else [[c]] + Words(u)
  {
    assert ([c] + u)[1..] == u;
  }

  lemma {:induction false} JoinedWords(c: char, u: string)
    requires IsCodeChar(c)
    ensures Join(Words([c] + u), '-') ==
      [c] + (if u != "" && !IsCodeChar(u[0]) && Words(u) != [] then "-" else "") + Join(Words(u), '-')
  {
    var words := Words(u);
    WordsOf(c, u);
    if u != "" && IsCodeChar(u[0]) {
      JoinFirst(words[0], words[1..]);
      JoinFirst([c] + words[0], words[1..]);
      assert words == [words[0]] + words[1..];
    } else {
      JoinFirst([c], words);
    }
  }

  lemma {:induction false} AfterOf(c: char, u: string)
    requires IsCodeChar(c)
    ensures After([c] + u) == if u == "" || IsCodeChar(u[|u| - 1]) then "" else "-"
  {
    WordsOf(c, u);
    assert u != "" ==> ([c] + u)[|u|] == u[|u| - 1];
  }

  /** One more code character in front. */
  lemma {:induction false} DashedCode(c: char, u: string, j: string)
    requires IsCodeChar(c) && Dashed(u) == Before(u) + j + After(u) && j == Join(Words(u), '-')
    ensures Dashed([c] + u) == Join(Words([c] + u), '-') + After([c] + u)
  {
    var joined, after := Join(Words([c] + u), '-'), After([c] + u);
    JoinedWords(c, u);
    AfterOf(c, u);
    assert Dashed([c] + u) == [c] + Dashed(u) by { assert ([c] + u)[1..] == u; }
    if Words(u) == [] {
      if u != "" { NoWords(u); }
      assert joined == [c] && Dashed(u) == after;
    } else {
      assert After(u) == after;
      assert joined == [c] + (Before(u) + j);
      assert [c] + (Before(u) + j + after) == [c] + (Before(u) + j) + after;
    }
  }

  lemma {:induction false} NoWords(u: string)
    requires Words(u) == [] && u != ""
    ensures !IsCodeChar(u[|u| - 1])
  {
    if |u| > 1 && !IsCodeChar(u[0]) { NoWords(u[1..]); }
  }

  /** A run of other characters in front. */
  lemma {:induction false} DashedBreak(s: string)
    requires s != "" && !IsCodeChar(s[0])
    requires var rest := SkipBreaks(s[1..]); Dashed(rest) == Before(rest) + Join(Words(rest), '-') + After(rest)
    ensures Dashed(s) == Before(s) + Join(Words(s), '-') + After(s)
  {
    var rest := SkipBreaks(s[1..]);
    SkippedSuffix(s[1..]);
    assert Words(s) == Words(rest) && Before(rest) == "";
    assert After(rest) == After(s) by { assert rest != "" ==> s[|s| - 1] == rest[|rest| - 1]; }
    assert Dashed(s) == "-" + Dashed(rest);
  }

  /** Dashes between the words, and one at an end at which the text has other characters. */
  lemma {:induction false} DashedWords(s: string)
    ensures Dashed(s) == Before(s) + Join(Words(s), '-') + After(s)
    decreases |s|
  {
    if s != "" {
      assert s == [s[0]] + s[1..];
      WordsOf(s[0], s[1..]);
      if IsCodeChar(s[0]) {
        DashedWords(s[1..]);
        DashedCode(s[0], s[1..], Join(Words(s[1..]), '-'));
      } else {
        DashedWords(SkipBreaks(s[1..]));
        DashedBreak(s);
      }
    }
  }

  lemma {:induction false} JoinEnds(words: seq<string>)
    requires words != [] && forall i :: 0 <= i < |words| ==> IsCodeWord(words[i])
    ensures var j := Join(words, '-'); j != "" && IsCodeChar(j[0]) && IsCodeChar(j[|j| - 1])
  {
    assert IsCodeWord(words[0]);
    if |words| > 1 { JoinEnds(words[1..]); }
  }

  lemma {:induction false} StripEnds(j: string, before: string, after: string)
    requires j != "" ==> j[0] != '-' && j[|j| - 1] != '-'
    requires before in {"", "-"} && after in {"", "-"} && (j == "" ==> after == "")
    ensures StripEnd(StripStart(before + j + after)) == j
  {
    var all := before + j + after;
    assert before == "-" ==> all[1..] == j + after;
    assert before == "" ==> all == j + after;
    assert StripStart(j + after) == j + after;
    assert after == "-" ==> (j + after)[..|j + after| - 1] == j;
    assert after == "" ==> j + after == j;
  }

  /** A normalised code is the words of the text in lower case, in order, joined by hyphens. */
  lemma {:induction false} NormalizeIsWords(s: string)
    ensures Normalize(s) == Join(Words(Lower(Trim(s))), '-')
  {
    var t := Lower(Trim(s));
    DashedWords(t);
    WordsAreCode(t);
    if Words(t) != [] { JoinEnds(Words(t)); }
    StripEnds(Join(Words(t), '-'), Before(t), After(t));
  }

  /** A slug is that, cut at 48 characters; a text without words is called `service`. */
  lemma {:induction false} SlugIsWords(s: string)
    ensures
      var words := Words(Lower(Trim(s)));
      var code := Join(words, '-');
      Slug(s) == if words == [] then "service" else if |code| <= 48 then code else code[..48]
  {
    NormalizeIsWords(s);
    WordsAreCode(Lower(Trim(s)));
    if Words(Lower(Trim(s))) != [] { JoinEnds(Words(Lower(Trim(s)))); }
  }

  lemma {:induction false} LowerShaped(c: string)
    requires Shaped(c)
    ensures Lower(c) == c
  {
    if c != "" {
      assert Shaped(c[1..]);
      LowerShaped(c[1..]);
    }
  }

  lemma {:induction false} DashedShaped(c: string)
    requires Shaped(c)
    ensures Dashed(c) == c
    decreases |c|
  {
    if c != "" {
      assert Shaped(c[1..]);
      DashedShaped(c[1..]);
      if c[0] == '-' && |c| > 1 { assert IsCodeChar(c[1..][0]); }
    }
  }

  lemma {:induction false} NormalizeShaped(c: string)
    requires Shaped(c)
    ensures Normalize(c) == StripEnd(StripStart(c))
  {
    TrimmedIsFixed(c);
    LowerShaped(c);
    DashedShaped(c);
  }

  lemma ShapedSuffix(c: string, d: string)
    requires Shaped(c) && |d| <= |c| && d == c[|c| - |d|..]
    ensures Shaped(d)
  {
    var n := |c| - |d|;
    assert forall i :: 0 <= i < |d| ==> d[i] == c[n + i];
  }

  lemma ShapedPrefix(c: string, d: string)
    requires Shaped(c) && d <= c
    ensures Shaped(d)
  {
    assert forall i :: 0 <= i < |d| ==> d[i] == c[i];
  }

  lemma {:induction false} EdgesStripped(d: string)
    requires d != "" ==> d[0] != '-'
    ensures var r := StripEnd(d); r != "" ==> r[0] != '-' && r[|r| - 1] != '-'
  {
    StripEndLaws(d);
  }

  lemma {:induction false} StrippedIsCanonical(c: string)
    requires Shaped(c)
    ensures Canonical(StripEnd(StripStart(c)))
  {
    StripStartLaws(c);
    StripEndLaws(StripStart(c));
    ShapedSuffix(c, StripStart(c));
    ShapedPrefix(StripStart(c), StripEnd(StripStart(c)));
    EdgesStripped(StripStart(c));
  }

  lemma {:induction false} NormalizeIsCanonical(s: string)
    ensures Canonical(Normalize(s))
  {
    DashedIsShaped(Lower(Trim(s)));
    StrippedIsCanonical(Dashed(Lower(Trim(s))));
  }

  lemma {:induction false} CutIsShaped(c: string, max: nat)
    requires Canonical(c) && max >= 1
    ensures Shaped(Cut(c, max)) && (c != "" ==> Cut(c, max) != "" && Cut(c, max)[0] == c[0])
  {
    ShapedPrefix(c, Cut(c, max));
  }

  lemma FallbackIsCanonical()
    ensures Canonical(FALLBACK) && 1 <= |FALLBACK| <= MAX_CODE
  {
    assert forall i :: 0 <= i < |FALLBACK| ==> IsCodeChar(FALLBACK[i]);
  }

  lemma {:induction false} SlugIsShaped(s: string)
    ensures Shaped(Slug(s)) && 1 <= |Slug(s)| <= MAX_CODE && Slug(s)[0] != '-'
  {
    NormalizeIsCanonical(s);
    CutIsShaped(Normalize(s), MAX_CODE);
    FallbackIsCanonical();
  }

  /** A code that normalising leaves alone is one that is canonical. */
  lemma {:induction false} NormalizeFixedIff(c: string)
    ensures Normalize(c) == c <==> Canonical(c)
  {
    if Canonical(c) {
      NormalizeShaped(c);
      assert StripStart(c) == c && StripEnd(c) == c;
    } else {
      NormalizeIsCanonical(c);
    }
  }

  /** A slug that was cut behind a hyphen is not found again under its own code. */
  lemma {:induction false} CutSlugLosesItsHyphen(c: string)
    requires Shaped(c) && |c| <= MAX_CODE && c != "" && c[0] != '-' && c[|c| - 1] == '-'
    ensures Slug(c) == c[..|c| - 1]
  {
    NormalizeShaped(c);
    StripOne(c);
  }

  lemma {:induction false} StripOne(c: string)
    requires Shaped(c) && c != "" && c[0] != '-' && c[|c| - 1] == '-'
    ensures StripStart(c) == c && |c| >= 2 && StripEnd(c) == c[..|c| - 1]
  {
    var d := c[..|c| - 1];
    assert c[|c| - 2] != '-';
    assert StripEnd(d) == d;
  }

  lemma {:induction false} SlugOfCanonical(c: string)
    requires Canonical(c) && 1 <= |c| <= MAX_CODE
    ensures Slug(c) == c
  {
    NormalizeFixedIff(c);
  }

  /** Looking a service up slugs its code again: that gives the code back exactly for
      the codes that are canonical, not empty and not too long. */
  lemma {:induction false} SlugFixedIff(c: string)
    ensures Slug(c) == c <==> Canonical(c) && 1 <= |c| <= MAX_CODE
  {
    if Canonical(c) && 1 <= |c| <= MAX_CODE {
      SlugOfCanonical(c);
    } else if Slug(c) == c {
      SlugIsShaped(c);
      CutSlugLosesItsHyphen(c);
    }
  }

  /** Some text has this slug. */
  ghost predicate IsSlug(c: string) {
    exists x :: Slug(x) == c
  }

  lemma {:induction false} HyphenIsWhereItWasCut(x: string)
    requires Slug(x)[|Slug(x)| - 1] == '-'
    ensures |Slug(x)| == MAX_CODE
  {
    NormalizeIsCanonical(x);
  }

  lemma {:induction false} ExtendedShaped(c: string)
    requires Shaped(c) && c != "" && c[0] != '-'
    ensures Canonical(c + "a")
  {
    var d := c + "a";
    assert forall i :: 0 <= i < |c| ==> d[i] == c[i];
    assert IsCodeChar(d[|c|]);
  }

  /** The slugs are the codes of at most 48 characters that are canonical, or were cut behind a hyphen. */
  lemma {:induction false} IsSlugIff(c: string)
    ensures IsSlug(c) <==>
      && Shaped(c) && 1 <= |c| <= MAX_CODE && c[0] != '-'
      && (c[|c| - 1] == '-' ==> |c| == MAX_CODE)
  {
    if IsSlug(c) {
      var x :| Slug(x) == c;
      SlugIsShaped(x);
      if c[|c| - 1] == '-' { HyphenIsWhereItWasCut(x); }
    } else if Shaped(c) && 1 <= |c| <= MAX_CODE && c[0] != '-' && (c[|c| - 1] == '-' ==> |c| == MAX_CODE) {
      if c[|c| - 1] != '-' {
        SlugOfCanonical(c);
      } else {
        CutAtHyphen(c);
      }
    }
  }

  lemma {:induction false} CutAtHyphen(c: string)
    requires Shaped(c) && |c| == MAX_CODE && c[0] != '-'
    ensures Slug(c + "a") == c
  {
    ExtendedShaped(c);
    NormalizeFixedIff(c + "a");
    assert (c + "a")[..MAX_CODE] == c;
  }

  /** A slug that slugging changes is one that was cut behind a hyphen. */
  lemma {:induction false} ChangedSlug(c: string)
    requires IsSlug(c) && Slug(c) != c
    ensures |c| == MAX_CODE && c[|c| - 1] == '-' && Slug(c) == c[..|c| - 1] && Slug(Slug(c)) == Slug(c)
  {
    IsSlugIff(c);
    SlugFixedIff(c);
    CutSlugLosesItsHyphen(c);
    StripOne(c);
    ShapedPrefix(c, c[..|c| - 1]);
    SlugFixedIff(Slug(c));
  }

  /** A service's name, as a developer may choose it, whose slug is cut behind a hyphen; and that slug. */
  const CUT_SEED := CUT_CODE + "ltd"
  const CUT_CODE := BARE_CODE + "-"
  const BARE_CODE := Hyphenated("regional", "agricultural", "cooperative", "payment", "union")

  function Hyphenated(a: string, b: string, c: string, d: string, e: string): string {
    a + "-" + b + "-" + c + "-" + d + "-" + e
  }

  predicate IsWord(w: string) {
    w != "" && forall i :: 0 <= i < |w| ==> IsCodeChar(w[i])
  }

  lemma {:induction false} HyphenJoins(c: string, word: string)
    requires Canonical(c) && c != "" && IsWord(word)
    ensures Canonical(c + "-" + word) && c + "-" + word != ""
  {
    var d := c + "-" + word;
    assert forall i :: 0 <= i < |c| ==> d[i] == c[i];
    assert forall i :: 0 <= i < |word| ==> d[|c| + 1 + i] == word[i];
    assert d[|c|] == '-';
    forall k | 0 <= k < |d| ensures IsCodeChar(d[k]) || d[k] == '-' {
      if k > |c| { assert d[k] == word[k - |c| - 1]; }
    }
  }

  lemma {:induction false} HyphenatedIsCanonical(a: string, b: string, c: string, d: string, e: string)
    requires IsWord(a) && IsWord(b) && IsWord(c) && IsWord(d) && IsWord(e)
    ensures Canonical(Hyphenated(a, b, c, d, e)) && Hyphenated(a, b, c, d, e) != ""
  {
    HyphenJoins(a, b);
    HyphenJoins(a + "-" + b, c);
    HyphenJoins(a + "-" + b + "-" + c, d);
    HyphenJoins(a + "-" + b + "-" + c + "-" + d, e);
  }

  lemma BareCode()
    ensures Canonical(BARE_CODE) && |BARE_CODE| == 47
  {
    assert IsWord("regional") && IsWord("agricultural") && IsWord("cooperative") && IsWord("payment")
        && IsWord("union");
    HyphenatedIsCanonical("regional", "agricultural", "cooperative", "payment", "union");
  }

  lemma {:induction false} CutSlug(bare: string)
    requires Canonical(bare) && |bare| == MAX_CODE - 1
    ensures Slug(bare + "-" + "ltd") == bare + "-" && Slug(bare + "-") == bare == Slug(bare)
  {
    HyphenJoins(bare, "ltd");
    NormalizeFixedIff(bare + "-" + "ltd");
    assert (bare + "-" + "ltd")[..MAX_CODE] == bare + "-";
    SlugIsShaped(bare + "-" + "ltd");
    CutSlugLosesItsHyphen(bare + "-");
    assert (bare + "-")[..MAX_CODE - 1] == bare;
    SlugFixedIff(bare);
  }

  lemma CutSeedIsCut()
    ensures Slug(CUT_SEED) == CUT_CODE && Slug(CUT_CODE) == BARE_CODE == Slug(BARE_CODE) && CUT_CODE != BARE_CODE
  {
    BareCode();
    CutSlug(BARE_CODE);
  }
}
