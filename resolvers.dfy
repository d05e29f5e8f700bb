/** The AutoMapper value resolvers that derive three `ProductProfileDto`
    members from a stored `Product`: its age label, its brand initials and its
    availability tier. The age label exists in two versions
    (Common/Mapping/Resolvers and Features/Mapping/Resolvers), both modelled. */
module Resolvers {
  import opened Text
  import opened Domain

  const NewRelease := "New Release"
  const Classic := "Classic"

  /** "1 month old" or "{n} months old". */
  function MonthsLabel(n: nat): string {
    if n == 1 then "1 month old" else NatToString(n) + " months old"
  }

  /** "1 year old" or "{n} years old". */
  function YearsLabel(n: nat): string {
    if n == 1 then "1 year old" else NatToString(n) + " years old"
  }

  function Max(a: int, b: int): int { if a >= b then a else b }

  /** Whole days between the two `.Date` values: the time of day of either
      instant plays no part. */
  function AgeDays(now: Ticks, releaseDate: Ticks): int {
    DayOf(now) - DayOf(releaseDate)
  }

  /** The age label of the Common resolver (a `switch` over the whole-day
      count). The `Math.Max(1, ...)` guards never bind: in each band the
      quotient is already at least 1. */
  function AgeLabel(days: int): (age: string)
    ensures days < 30 ==> age == NewRelease
    ensures 30 <= days < 365 ==> 1 <= days / 30 <= 12 && age == MonthsLabel(days / 30)
    ensures 365 <= days < 1825 ==> 1 <= days / 365 <= 4 && age == YearsLabel(days / 365)
    ensures 1825 <= days ==> age == Classic
  {
    if days < 0 then NewRelease
    else if days < 30 then NewRelease
    else if days < 365 then
      var months := Max(1, days / 30);
      if months == 1 then "1 month old" else NatToString(months) + " months old"
    else if days < 1825 then
      var years := Max(1, days / 365);
      if years == 1 then "1 year old" else NatToString(years) + " years old"
    else Classic
  }

  /** `(int)x` of a `double`: truncation toward zero. */
  function Truncate(x: real): int {
    if x >= 0.0 then x.Floor else -((-x).Floor)
  }

  /** Dividing a natural number by a positive one as reals and truncating gives
      the integer quotient. */
  lemma TruncatedQuotient(d: nat, k: nat)
    requires k > 0
    ensures Truncate(d as real / k as real) == d / k
  {
    var q := d / k;
    var r := d % k;
    assert d == q * k + r;
    assert d as real == q as real * k as real + r as real;
    assert d as real / k as real == q as real + r as real / k as real;
    assert 0.0 <= r as real / k as real < 1.0;
  }

  /** The age label of the Features resolver (an if-chain over the `double`
      day difference, with truncating casts). For every whole-day count it
      gives the Common resolver's label. */
  function AgeLabelFromDouble(days: int): (age: string)
    ensures age == AgeLabel(days)
  {
    var d := days as real;
    if d < 0.0 then NewRelease
    else if d < 30.0 then NewRelease
    else if d < 365.0 then
      var months := Max(1, Truncate(d / 30.0));
      TruncatedQuotient(days, 30);
      if months == 1 then "1 month old" else NatToString(months) + " months old"
    else if d < 1825.0 then
      var years := Max(1, Truncate(d / 365.0));
      TruncatedQuotient(days, 365);
      if years == 1 then "1 year old" else NatToString(years) + " years old"
    else Classic
  }

  /** `ProductAgeResolver.Resolve` (Common) for a product, at the instant `now`:
      a product released today or later is a new release. */
  function ProductAge(p: Product, now: Ticks): (age: string)
    ensures DayOf(p.releaseDate) >= DayOf(now) ==> age == NewRelease
  {
    AgeLabel(AgeDays(now, p.releaseDate))
  }

  /** Both resolvers label a product alike, whichever the mapping uses. */
  lemma ResolversAgree(p: Product, now: Ticks)
    ensures ProductAge(p, now) == AgeLabelFromDouble(AgeDays(now, p.releaseDate))
  {
  }

  /** Two clocks reading the same day give the same age label. */
  lemma AgeIgnoresTimeOfDay(p: Product, now1: Ticks, now2: Ticks)
    requires DayOf(now1) == DayOf(now2)
    ensures ProductAge(p, now1) == ProductAge(p, now2)
  {
  }

  /** The band boundaries. */
  lemma AgeBoundaries()
    ensures AgeLabel(29) == "New Release" && AgeLabel(30) == "1 month old"
    ensures AgeLabel(364) == "12 months old" && AgeLabel(365) == "1 year old"
    ensures AgeLabel(1824) == "4 years old" && AgeLabel(1825) == "Classic"
  {
    assert NatToString(12) == NatToString(1) + [DigitChar(2)];
    assert NatToString(1) == [DigitChar(1)];
    assert NatToString(4) == [DigitChar(4)];
  }

  /** The index of the first ' ' in `s`, or `|s|`. */
  function FirstSpace(s: string): (i: nat)
    ensures i <= |s|
    ensures ' ' !in s[..i]
    ensures i < |s| ==> s[i] == ' '
  {
    if s == [] then 0
    else if s[0] == ' ' then 0
    else
      var j := FirstSpace(s[1..]);
      assert s[..j + 1] == [s[0]] + s[1..][..j];
      j + 1
  }

  /** A piece kept by `Split(' ', RemoveEmptyEntries)` and then by the
      `Where(p => !IsNullOrWhiteSpace(p))` filter (an empty piece is blank). */
  function Kept(piece: string): seq<string> {
    if piece != [] && !IsBlank(piece) then [piece] else []
  }

  /** `brand.Split(' ', RemoveEmptyEntries).Where(p => !IsNullOrWhiteSpace(p))`:
      the pieces between spaces that are not blank. */
  function Words(s: string): (ws: seq<string>)
    ensures forall k :: 0 <= k < |ws| ==> |ws[k]| >= 1
    decreases |s|
  {
    if s == [] then []
    else
      var i := FirstSpace(s);
      Kept(s[..i]) + (if i < |s| then Words(s[i + 1..]) else [])
  }

  /** `FirstSpace` is the only index with no space before it and a space (or
      the end) at it. */
  lemma {:induction false} FirstSpaceIs(s: string, j: nat)
    requires j <= |s| && ' ' !in s[..j] && (j < |s| ==> s[j] == ' ')
    ensures FirstSpace(s) == j
    decreases |s|
  {
    assert j > 0 ==> s[..j][0] == s[0];
    if s != [] && s[0] != ' ' {
      assert s[1..][..j - 1] == s[..j][1..];
      FirstSpaceIs(s[1..], j - 1);
    }
  }

  /** The first word-list step: the piece before the first space, then the
      words after it. */
  lemma WordsAtFirstSpace(s: string, j: nat)
    requires j < |s| && FirstSpace(s) == j
    ensures Words(s) == Kept(s[..j]) + Words(s[j + 1..])
  {
    assert s != [];
    var i := FirstSpace(s);
    assert i == j && i < |s|;
    assert Words(s) == Kept(s[..i]) + (if i < |s| then Words(s[i + 1..]) else []);
  }

  /** Splitting at one space splits the word list. */
  lemma {:induction false} WordsAppend(x: string, y: string)
    ensures Words(x + " " + y) == Words(x) + Words(y)
    decreases |x|
  {
    var j := FirstSpace(x);
    if j < |x| {
      WordsAppend(x[j + 1..], y);
      WordsAppendAtSpace(x, y, j);
    } else {
      assert ' ' !in x by { assert x[..j] == x; }
      WordsAppendSpaceless(x, y);
    }
  }

  /** The inductive step of `WordsAppend`, for `x` whose first space is at `j`. */
  lemma WordsAppendAtSpace(x: string, y: string, j: nat)
    requires j < |x| && FirstSpace(x) == j
    requires Words(x[j + 1..] + " " + y) == Words(x[j + 1..]) + Words(y)
    ensures Words(x + " " + y) == Words(x) + Words(y)
  {
    WordsOfSpacedAt(x, y, j);
    WordsAtFirstSpace(x, j);
    AppendAssociates(Kept(x[..j]), Words(x[j + 1..]), Words(y));
  }

  /** Appending " " and more to `x` leaves its first word-list step alone. */
  lemma WordsOfSpacedAt(x: string, y: string, j: nat)
    requires j < |x| && FirstSpace(x) == j
    ensures Words(x + " " + y) == Kept(x[..j]) + Words(x[j + 1..] + " " + y)
  {
    var s := x + " " + y;
    assert s[..j] == x[..j] && s[j] == ' ';
    assert s[j + 1..] == x[j + 1..] + " " + y;
    FirstSpaceIs(s, j);
    WordsAtFirstSpace(s, j);
  }

  /** The base case of `WordsAppend`, for `x` without a space. */
  lemma WordsAppendSpaceless(x: string, y: string)
    requires ' ' !in x
    ensures Words(x + " " + y) == Words(x) + Words(y)
  {
    var s := x + " " + y;
    assert s[..|x|] == x && s[|x|] == ' ';
    FirstSpaceIs(s, |x|);
    WordsAtFirstSpace(s, |x|);
    assert s[|x| + 1..] == y;
    WordsOfSpaceless(x);
  }

  /** A string without spaces is one word if it is not blank, none otherwise. */
  lemma WordsOfSpaceless(x: string)
    requires ' ' !in x
    ensures Words(x) == Kept(x)
  {
    assert x[..|x|] == x;
    FirstSpaceIs(x, |x|);
  }

  /** A brand that is not blank has at least one word. */
  lemma {:induction false} NonBlankHasWord(s: string)
    requires !IsBlank(s)
    ensures |Words(s)| >= 1
    decreases |s|
  {
    var j :| 0 <= j < |s| && !IsWhiteSpace(s[j]);
    var i := FirstSpace(s);
    var piece := s[..i];
    if j < i {
      assert piece[j] == s[j];
      assert !IsBlank(piece);
    } else {
      assert s[i] == ' ' && IsWhiteSpace(' ');
      assert j > i;
      assert s[i + 1..][j - i - 1] == s[j];
      NonBlankHasWord(s[i + 1..]);
    }
  }

  /** `BrandInitialsResolver.Resolve`: "?" for a blank brand; otherwise one or
      two letters (the `parts.Length == 0` branch cannot be taken once the
      blank test has passed). */
  function BrandInitials(brand: string): (initials: string)
    ensures IsBlank(brand) ==> initials == "?"
    ensures !IsBlank(brand) ==> 1 <= |initials| <= 2
  {
    if IsBlank(brand) then "?"
    else
      var parts := Words(brand);
      NonBlankHasWord(brand);
      if |parts| == 0 then "?"
      else if |parts| == 1 then [ToUpperAscii(parts[0][0])]
      else [ToUpperAscii(parts[0][0]), ToUpperAscii(parts[|parts| - 1][0])]
  }

  /** For a brand that is not blank: the upper-cased first letter of the first
      word, followed by that of the last word when there are two or more. */
  lemma BrandInitialsOfWords(brand: string)
    requires !IsBlank(brand)
    ensures var ws, initials := Words(brand), BrandInitials(brand);
      |ws| >= 1
      && (|initials| == 2 <==> |ws| >= 2)
      && initials[0] == ToUpperAscii(ws[0][0])
      && initials[|initials| - 1] == ToUpperAscii(ws[|ws| - 1][0])
  {
    NonBlankHasWord(brand);
  }

  /** Two words give the two upper-cased first letters. */
  lemma TwoWordInitials(a: string, b: string)
    requires ' ' !in a && ' ' !in b && !IsBlank(a) && !IsBlank(b)
    ensures BrandInitials(a + " " + b) == [ToUpperAscii(a[0]), ToUpperAscii(b[0])]
  {
    WordsAppend(a, b);
    WordsOfSpaceless(a);
    WordsOfSpaceless(b);
  }

  /** Words between the first and the last are ignored. */
  lemma MiddleWordsIgnored(a: string, middle: string, b: string)
    requires ' ' !in a && ' ' !in b && !IsBlank(a) && !IsBlank(b)
    ensures BrandInitials(a + " " + (middle + " " + b)) == BrandInitials(a + " " + b)
  {
    var rest := middle + " " + b;
    var s := a + " " + rest;
    WordsAppend(a, rest);
    WordsAppend(middle, b);
    WordsOfSpaceless(a);
    WordsOfSpaceless(b);
    var ws := Words(s);
    assert ws == [a] + (Words(middle) + [b]);
    var j :| 0 <= j < |a| && !IsWhiteSpace(a[j]);
    assert s[j] == a[j];
    TwoWordInitials(a, b);
  }

  /** "Samsung Electronics" gives "SE". */
  lemma SamsungElectronicsInitials()
    ensures BrandInitials("Samsung Electronics") == "SE"
  {
    var a, b := "Samsung", "Electronics";
    assert ' ' !in a && ' ' !in b;
    assert !IsWhiteSpace(a[0]) && !IsWhiteSpace(b[0]);
    assert a + " " + b == "Samsung Electronics";
    TwoWordInitials(a, b);
  }

  /** `AvailabilityStatusResolver.Resolve`. */
  function AvailabilityStatus(p: Product): (status: string)
    ensures !p.isAvailable ==> status == "Out of Stock"
    ensures p.isAvailable ==>
      (status == "Unavailable" <==> p.stockQuantity <= 0)
      && (status == "Last Item" <==> p.stockQuantity == 1)
      && (status == "Limited Stock" <==> 2 <= p.stockQuantity <= 5)
      && (status == "In Stock" <==> 6 <= p.stockQuantity)
    ensures status in {"Out of Stock", "Unavailable", "Last Item", "Limited Stock", "In Stock"}
  {
    if !p.isAvailable then "Out of Stock"
    else if p.stockQuantity <= 0 then "Unavailable"
    else if p.stockQuantity == 1 then "Last Item"
    else if p.stockQuantity <= 5 then "Limited Stock"
    else "In Stock"
  }

  /** A product whose availability flag says "stock above zero" is never
      reported as "Unavailable". */
  lemma NeverUnavailableWhenFlagFollowsStock(p: Product)
    requires p.isAvailable == (p.stockQuantity > 0)
    ensures AvailabilityStatus(p) != "Unavailable"
  {
  }

  /** Stocks 3 and 5 are both "Limited Stock". */
  lemma LimitedStockExamples(p: Product)
    requires p.isAvailable && (p.stockQuantity == 3 || p.stockQuantity == 5)
    ensures AvailabilityStatus(p) == "Limited Stock"
  {
  }
}
