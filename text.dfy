/** The .NET string operations the product-creation core relies on. A .NET
    `string` is a sequence of UTF-16 code units; here it is a `seq<char>`,
    whose elements are Unicode scalar values, so a character outside the
    Basic Multilingual Plane counts once in `|s|` where .NET counts two. */
module Text {

  /** `char.IsWhiteSpace`; the regular-expression class `\s` matches the same
      characters: U+0009..U+000D, U+0085 and the Unicode separators
      (categories Zs, Zl and Zp). */
  predicate IsWhiteSpace(c: char) {
    var n := c as int;
    (0x09 <= n <= 0x0D) || n == 0x20 || n == 0x85 || n == 0xA0 || n == 0x1680
    || (0x2000 <= n <= 0x200A) || n == 0x2028 || n == 0x2029 || n == 0x202F
    || n == 0x205F || n == 0x3000
  }

  /** `string.IsNullOrWhiteSpace` on a string that is not null: the empty
      string counts as blank. */
  predicate IsBlank(s: string) {
    forall i :: 0 <= i < |s| ==> IsWhiteSpace(s[i])
  }

  predicate IsAsciiLetter(c: char) { 'a' <= c <= 'z' || 'A' <= c <= 'Z' }

  predicate IsAsciiDigit(c: char) { '0' <= c <= '9' }

  /** The regular-expression class `\w`, restricted to ASCII. */
  predicate IsWordChar(c: char) { IsAsciiLetter(c) || IsAsciiDigit(c) || c == '_' }

  /** `char.ToUpperInvariant`, restricted to ASCII. */
  function ToUpperAscii(c: char): (u: char)
    ensures !('a' <= u <= 'z')
    ensures 'A' <= c <= 'Z' || !IsAsciiLetter(c) ==> u == c
  {
    if 'a' <= c <= 'z' then (c as int - 32) as char else c
  }

  /** Ordinal case-insensitive equality (`StringComparison.OrdinalIgnoreCase`):
      both sides are upper-cased code unit by code unit. */
  predicate EqualsIgnoreCase(a: string, b: string) {
    |a| == |b| && forall i :: 0 <= i < |a| ==> ToUpperAscii(a[i]) == ToUpperAscii(b[i])
  }

  predicate MatchesAt(s: string, w: string, i: nat)
    requires i + |w| <= |s|
  {
    EqualsIgnoreCase(s[i..i + |w|], w)
  }

  /** `s.Contains(w, StringComparison.OrdinalIgnoreCase)`. */
  predicate ContainsIgnoreCase(s: string, w: string) {
    exists i: nat :: i + |w| <= |s| && MatchesAt(s, w, i)
  }

  /** `words.Any(w => s.Contains(w, StringComparison.OrdinalIgnoreCase))`. */
  predicate ContainsAnyIgnoreCase(s: string, words: seq<string>) {
    exists k :: 0 <= k < |words| && ContainsIgnoreCase(s, words[k])
  }

  /** `s.StartsWith(p)` and `s.EndsWith(p)`: an ordinal approximation of the
      culture-sensitive one-argument overloads, comparing code unit by code
      unit (no ignorable code points are skipped). */
  predicate StartsWith(s: string, p: string) { |p| <= |s| && s[..|p|] == p }

  predicate EndsWith(s: string, p: string) { |p| <= |s| && s[|s| - |p|..] == p }

  predicate StartsWithIgnoreCase(s: string, p: string) {
    |p| <= |s| && EqualsIgnoreCase(s[..|p|], p)
  }

  /** `s.Replace(" ", "")`: every space character removed, the rest kept in order. */
  function StripSpaces(s: string): (r: string)
    ensures ' ' !in r
    ensures |r| <= |s|
    ensures multiset(r) == multiset(s)[' ' := 0]
  {
    if s == [] then []
    else
      var rest := StripSpaces(s[1..]);
      assert s == [s[0]] + s[1..];
      if s[0] == ' ' then rest else [s[0]] + rest
  }

  lemma {:induction false} StripSpacesAppend(a: string, b: string)
    ensures StripSpaces(a + b) == StripSpaces(a) + StripSpaces(b)
  {
    if a != [] {
      assert (a + b)[1..] == a[1..] + b;
      StripSpacesAppend(a[1..], b);
    } else {
      assert a + b == b;
    }
  }

  /** A string without spaces is left alone by `Replace(" ", "")`. */
  lemma {:induction false} StripSpacesOfSpaceless(s: string)
    requires ' ' !in s
    ensures StripSpaces(s) == s
  {
    if s != [] {
      assert ' ' !in s[1..] by {
        forall i | 0 <= i < |s[1..]| ensures s[1..][i] != ' ' {
          assert s[1..][i] == s[i + 1];
        }
      }
      StripSpacesOfSpaceless(s[1..]);
    }
  }

  /** Inserting a space anywhere does not change the stripped string. */
  lemma InsertedSpaceIsStripped(a: string, b: string)
    ensures StripSpaces(a + " " + b) == StripSpaces(a + b)
  {
    StripSpacesAppend(a + " ", b);
    StripSpacesAppend(a, " ");
    StripSpacesAppend(a, b);
  }

  function DigitChar(d: nat): (c: char)
    requires d < 10
    ensures IsAsciiDigit(c) && c as int - '0' as int == d
  {
    ('0' as int + d) as char
  }

  /** `n.ToString()` for a non-negative integer: decimal digits, no sign. */
  function NatToString(n: nat): (s: string)
    ensures |s| >= 1
    ensures forall i :: 0 <= i < |s| ==> IsAsciiDigit(s[i])
  {
    if n < 10 then [DigitChar(n)] else NatToString(n / 10) + [DigitChar(n % 10)]
  }

  /** `i.ToString()` for any integer, with a leading '-' for negative values. */
  function IntToString(i: int): string {
    if i < 0 then "-" + NatToString(-i) else NatToString(i)
  }

  /** The value of a string of decimal digits (the inverse of `NatToString`). */
  function DigitsValue(s: string): nat
    requires forall i :: 0 <= i < |s| ==> IsAsciiDigit(s[i])
  {
    if s == [] then 0
    else DigitsValue(s[..|s| - 1]) * 10 + DigitValue(s[|s| - 1])
  }

  function DigitValue(c: char): (d: nat)
    requires IsAsciiDigit(c)
    ensures d < 10 && DigitChar(d) == c
  {
    var n := c as int - '0' as int;
    assert '0' as int <= c as int <= '9' as int;
    n
  }

  lemma {:induction false} DigitsRoundTrip(n: nat)
    ensures DigitsValue(NatToString(n)) == n
  {
    if n >= 10 {
      var s := NatToString(n);
      assert s[..|s| - 1] == NatToString(n / 10);
      DigitsRoundTrip(n / 10);
    }
  }

  /** Concatenation regroups freely; stated once for any element type, which
      is far cheaper than element-wise reasoning on lists of strings. */
  lemma AppendAssociates<T>(a: seq<T>, b: seq<T>, c: seq<T>)
    ensures a + (b + c) == (a + b) + c
  {
  }

  /** The multiset of a concatenation is the sum of the two multisets. */
  lemma MultisetOfAppend<T>(a: seq<T>, b: seq<T>)
    ensures multiset(a + b) == multiset(a) + multiset(b)
  {
  }

  /** An element absent from the outer two parts of a concatenation occurs
      in it as often as in the middle part. */
  lemma CountInMiddle<T>(a: seq<T>, b: seq<T>, c: seq<T>, m: T)
    requires m !in a && m !in c
    ensures multiset(a + b + c)[m] == multiset(b)[m]
  {
    MultisetOfAppend(a, b);
    MultisetOfAppend(a + b, c);
  }

  /** The summed length of a list of strings. */
  function TotalLength(xs: seq<string>): nat {
    if xs == [] then 0 else TotalLength(xs[..|xs| - 1]) + |xs[|xs| - 1]|
  }

  /** `string.Join(sep, xs)`. */
  function Join(sep: string, xs: seq<string>): (r: string)
    ensures |xs| == 0 ==> r == ""
    ensures |xs| == 1 ==> r == xs[0]
    ensures |xs| >= 1 ==> |r| == TotalLength(xs) + |sep| * (|xs| - 1)
  {
    if |xs| == 0 then ""
    else if |xs| == 1 then xs[0]
    else Join(sep, xs[..|xs| - 1]) + sep + xs[|xs| - 1]
  }

  /** `w` occurs in `s` starting at offset `o`. */
  predicate OccursAt(s: string, w: string, o: nat) {
    o + |w| <= |s| && s[o..o + |w|] == w
  }

  /** Every joined element occurs in the joined string. */
  lemma {:induction false} JoinContainsEach(sep: string, xs: seq<string>, k: nat)
    requires k < |xs|
    ensures exists o: nat :: OccursAt(Join(sep, xs), xs[k], o)
  {
    var j := Join(sep, xs);
    if |xs| == 1 {
      assert OccursAt(j, xs[k], 0);
    } else if k == |xs| - 1 {
      var o := |j| - |xs[k]|;
      assert j == Join(sep, xs[..|xs| - 1]) + sep + xs[k];
      assert OccursAt(j, xs[k], o);
    } else {
      var init := xs[..|xs| - 1];
      assert init[k] == xs[k];
      JoinContainsEach(sep, init, k);
      var o: nat :| OccursAt(Join(sep, init), init[k], o);
      var prefix := Join(sep, init);
      assert j == prefix + (sep + xs[|xs| - 1]);
      assert j[o..o + |xs[k]|] == prefix[o..o + |xs[k]|];
      assert OccursAt(j, xs[k], o);
    }
  }
}
