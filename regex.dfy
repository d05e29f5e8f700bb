/** The fully anchored .NET regular expressions the validators use: one
    character class repeated a bounded or unbounded number of times,
    `^[class]{min,max}$` or `^[class]+$`, matched with `Regex.IsMatch` and no
    options. Without `RegexOptions.Multiline`, `$` matches at the very end of
    the input and also just before a final '\n'; that is modelled. */
module Regex {
  import opened Text
  import opened Wrappers

  /** One item of a bracketed character class. */
  datatype ClassItem =
    | Span(lo: char, hi: char)   // a-z
    | One(c: char)               // a literal, possibly escaped as \- or \.
    | WhiteSpaceClass            // \s
    | WordClass                  // \w (ASCII)

  predicate InItem(c: char, item: ClassItem) {
    match item
    case Span(lo, hi) => lo <= c <= hi
    case One(x) => c == x
    case WhiteSpaceClass => IsWhiteSpace(c)
    case WordClass => IsWordChar(c)
  }

  predicate InClass(c: char, cls: seq<ClassItem>) {
    exists k :: 0 <= k < |cls| && InItem(c, cls[k])
  }

  /** `^[cls]{min,max}$`; `max == None` is an unbounded repetition (`+` is min 1). */
  datatype Pattern = Anchored(cls: seq<ClassItem>, min: nat, max: Option<nat>)

  /** The whole of `s` is a run of class characters of an allowed length. */
  predicate FullMatch(s: string, p: Pattern) {
    |s| >= p.min && (p.max.None? || |s| <= p.max.value)
    && forall i :: 0 <= i < |s| ==> InClass(s[i], p.cls)
  }

  /** `Regex.IsMatch(s, "^[cls]{min,max}$")`: `$` may also stand just before a
      final newline, which is then left unmatched. */
  predicate IsMatch(s: string, p: Pattern) {
    FullMatch(s, p) || (|s| > 0 && s[|s| - 1] == '\n' && FullMatch(s[..|s| - 1], p))
  }

  /** `^[a-zA-Z0-9\-]{5,20}$` (variant A's validator and the SKU attribute). */
  const SkuPatternA := Anchored([Span('a', 'z'), Span('A', 'Z'), Span('0', '9'), One('-')], 5, Some(20))

  /** `^[A-Za-z0-9-]{5,20}$` (variant B's validator). */
  const SkuPatternB := Anchored([Span('A', 'Z'), Span('a', 'z'), Span('0', '9'), One('-')], 5, Some(20))

  /** `^[a-zA-Z0-9\s\-'\.]+$` (variant A's brand rule). */
  const BrandPatternA :=
    Anchored([Span('a', 'z'), Span('A', 'Z'), Span('0', '9'), WhiteSpaceClass, One('-'), One('\''), One('.')], 1, None)

  /** `^[\w\s\-'.]+$` (variant B's `BeValidBrandName`). */
  const BrandPatternB := Anchored([WordClass, WhiteSpaceClass, One('-'), One('\''), One('.')], 1, None)

  predicate IsSkuChar(c: char) { IsAsciiLetter(c) || IsAsciiDigit(c) || c == '-' }

  predicate IsBrandCharA(c: char) { IsAsciiLetter(c) || IsAsciiDigit(c) || IsWhiteSpace(c) || c == '-' || c == '\'' || c == '.' }

  predicate IsBrandCharB(c: char) { IsWordChar(c) || IsWhiteSpace(c) || c == '-' || c == '\'' || c == '.' }

  lemma SkuClassA(c: char)
    ensures InClass(c, SkuPatternA.cls) <==> IsSkuChar(c)
  {
    if IsSkuChar(c) {
      if 'a' <= c <= 'z' { assert InItem(c, SkuPatternA.cls[0]); }
      else if 'A' <= c <= 'Z' { assert InItem(c, SkuPatternA.cls[1]); }
      else if '0' <= c <= '9' { assert InItem(c, SkuPatternA.cls[2]); }
      else { assert InItem(c, SkuPatternA.cls[3]); }
    }
  }

  lemma SkuClassB(c: char)
    ensures InClass(c, SkuPatternB.cls) <==> IsSkuChar(c)
  {
    if IsSkuChar(c) {
      if 'A' <= c <= 'Z' { assert InItem(c, SkuPatternB.cls[0]); }
      else if 'a' <= c <= 'z' { assert InItem(c, SkuPatternB.cls[1]); }
      else if '0' <= c <= '9' { assert InItem(c, SkuPatternB.cls[2]); }
      else { assert InItem(c, SkuPatternB.cls[3]); }
    }
  }

  lemma BrandClassA(c: char)
    ensures InClass(c, BrandPatternA.cls) <==> IsBrandCharA(c)
  {
    var cls := BrandPatternA.cls;
    if IsBrandCharA(c) {
      if 'a' <= c <= 'z' { assert InItem(c, cls[0]); }
      else if 'A' <= c <= 'Z' { assert InItem(c, cls[1]); }
      else if '0' <= c <= '9' { assert InItem(c, cls[2]); }
      else if IsWhiteSpace(c) { assert InItem(c, cls[3]); }
      else if c == '-' { assert InItem(c, cls[4]); }
      else if c == '\'' { assert InItem(c, cls[5]); }
      else { assert InItem(c, cls[6]); }
    }
  }

  lemma BrandClassB(c: char)
    ensures InClass(c, BrandPatternB.cls) <==> IsBrandCharB(c)
  {
    var cls := BrandPatternB.cls;
    if IsBrandCharB(c) {
      if IsWordChar(c) { assert InItem(c, cls[0]); }
      else if IsWhiteSpace(c) { assert InItem(c, cls[1]); }
      else if c == '-' { assert InItem(c, cls[2]); }
      else if c == '\'' { assert InItem(c, cls[3]); }
      else { assert InItem(c, cls[4]); }
    }
  }

  /** The SKU pattern accepts exactly the 5 to 20 character runs of ASCII letters,
      digits and hyphens, optionally followed by one newline. */
  lemma SkuPatternAMeaning(s: string)
    ensures IsMatch(s, SkuPatternA) <==>
      (5 <= |s| <= 20 && forall i :: 0 <= i < |s| ==> IsSkuChar(s[i]))
      || (6 <= |s| <= 21 && s[|s| - 1] == '\n' && forall i :: 0 <= i < |s| - 1 ==> IsSkuChar(s[i]))
  {
    forall c: char { SkuClassA(c); }
  }

  /** The two spellings of the SKU pattern accept the same strings. */
  lemma SkuPatternsAgree(s: string)
    ensures IsMatch(s, SkuPatternA) <==> IsMatch(s, SkuPatternB)
  {
    forall c: char ensures InClass(c, SkuPatternA.cls) <==> InClass(c, SkuPatternB.cls) {
      SkuClassA(c);
      SkuClassB(c);
    }
    assert FullMatch(s, SkuPatternA) <==> FullMatch(s, SkuPatternB);
    if |s| > 0 {
      assert FullMatch(s[..|s| - 1], SkuPatternA) <==> FullMatch(s[..|s| - 1], SkuPatternB);
    }
  }

  /** For an unbounded pattern whose class contains '\n', the "before a final
      newline" reading of `$` adds nothing. */
  lemma {:induction false} NewlineClassIgnoresDollarRule(s: string, p: Pattern)
    requires p.max.None? && p.min >= 1 && InClass('\n', p.cls)
    ensures IsMatch(s, p) <==> FullMatch(s, p)
  {
    if |s| > 0 && s[|s| - 1] == '\n' && FullMatch(s[..|s| - 1], p) {
      forall i | 0 <= i < |s| ensures InClass(s[i], p.cls) {
        if i < |s| - 1 { assert s[i] == s[..|s| - 1][i]; }
      }
    }
  }

  /** Variant B's brand pattern accepts exactly the non-empty strings of word
      characters, white space, '-', '\'' and '.'. */
  lemma BrandPatternBMeaning(s: string)
    ensures IsMatch(s, BrandPatternB) <==> |s| >= 1 && forall i :: 0 <= i < |s| ==> IsBrandCharB(s[i])
  {
    assert IsWhiteSpace('\n');
    BrandClassB('\n');
    NewlineClassIgnoresDollarRule(s, BrandPatternB);
    forall c: char { BrandClassB(c); }
  }

  /** Variant A's brand pattern accepts exactly the non-empty strings of ASCII
      letters, digits, white space, '-', '\'' and '.'. */
  lemma BrandPatternAMeaning(s: string)
    ensures IsMatch(s, BrandPatternA) <==> |s| >= 1 && forall i :: 0 <= i < |s| ==> IsBrandCharA(s[i])
  {
    assert IsWhiteSpace('\n');
    BrandClassA('\n');
    NewlineClassIgnoresDollarRule(s, BrandPatternA);
    forall c: char { BrandClassA(c); }
  }

  /** A SKU followed by a newline is still accepted, although '\n' is not in the
      class: `$` matches before the final newline. */
  lemma TrailingNewlineAccepted(s: string)
    requires 5 <= |s| <= 20 && forall i :: 0 <= i < |s| ==> IsSkuChar(s[i])
    ensures IsMatch(s + "\n", SkuPatternA)
    ensures !FullMatch(s + "\n", SkuPatternA)
  {
    SkuPatternAMeaning(s + "\n");
    assert (s + "\n")[..|s|] == s;
    SkuClassA('\n');
    assert (s + "\n")[|s|] == '\n';
  }
}
