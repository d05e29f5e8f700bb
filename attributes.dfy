/** The three data-annotation attributes of Validators/Attributes: each
    `IsValid(object? value)` inspects a boxed value of any type. */
module Attributes {
  import opened Text
  import opened Wrappers
  import opened Regex
  import opened Domain
  import A = ProfileValidatorA
  import B = ProfileValidatorB

  /** An `object?` as the attributes see it: null, a string, a decimal (with the
      text its `ToString()` gives, which depends on the decimal's scale and the
      current culture), a `ProductCategory`, or any other object through its
      `ToString()`, which may itself return null. */
  datatype Boxed =
    | Null
    | Str(s: string)
    | Dec(amount: Cents, printed: string)
    | Cat(category: ProductCategory)
    | Other(text: Option<string>)

  /** `value.ToString()` on a value that is not null. */
  function ToText(v: Boxed): Option<string>
    requires !v.Null?
  {
    match v
    case Str(s) => Some(s)
    case Dec(_, printed) => Some(printed)
    case Cat(c) => Some(CategoryText(c))
    case Other(text) => text
  }

  /** `ValidSKUAttribute.IsValid`: null is valid; any other value is valid
      exactly when its text passes the SKU format check of the profile
      validators (spaces removed, then `^[a-zA-Z0-9\-]{5,20}$`). */
  function ValidSkuIsValid(v: Boxed): (ok: bool)
    ensures v.Null? ==> ok
    ensures v.Str? ==> (ok <==> A.BeValidSku(v.s))
    ensures !v.Null? ==> (ok <==> ToText(v).Some? && A.BeValidSku(ToText(v).value))
  {
    if v.Null? then true
    else
      var text := ToText(v);
      text.Some? && IsMatch(StripSpaces(text.value), SkuPatternA)
  }

  /** On strings the attribute and both profile validators' SKU format rules
      give the same verdict. */
  lemma ValidSkuAgreesWithValidators(s: string)
    ensures ValidSkuIsValid(Str(s)) <==> B.BeValidSku(s)
  {
    B.BeValidSkuAgrees(s);
  }

  /** Inserting a space anywhere in a string never changes the verdict. */
  lemma ValidSkuSpacesIgnored(a: string, b: string)
    ensures ValidSkuIsValid(Str(a + " " + b)) == ValidSkuIsValid(Str(a + b))
  {
    A.SkuSpacesIgnored(a, b);
  }

  /** An object whose `ToString()` returns null is invalid. */
  lemma ValidSkuNullText()
    ensures !ValidSkuIsValid(Other(None))
  {
  }

  /** `PriceRangeAttribute(min, max)`, with the bounds already converted to
      decimal. */
  datatype PriceRangeAttribute = PriceRangeAttribute(min: Cents, max: Cents)

  /** `PriceRangeAttribute.IsValid`: a decimal within both bounds, inclusive. */
  function PriceRangeIsValid(attr: PriceRangeAttribute, v: Boxed): (ok: bool)
    ensures ok <==> v.Dec? && attr.min <= v.amount <= attr.max
    ensures attr.min > attr.max ==> !ok
  {
    match v
    case Dec(price, _) => price >= attr.min && price <= attr.max
    case _ => false
  }

  /** Every decimal from `min` to `max`, both bounds included, is accepted,
      whatever its text. */
  lemma PriceRangeWithinAccepted(attr: PriceRangeAttribute, amount: Cents, text: string)
    requires attr.min <= amount <= attr.max
    ensures PriceRangeIsValid(attr, Dec(amount, text))
  {
  }

  /** Every decimal below `min` or above `max` is rejected. */
  lemma PriceRangeOutsideRejected(attr: PriceRangeAttribute, amount: Cents, text: string)
    requires amount < attr.min || amount > attr.max
    ensures !PriceRangeIsValid(attr, Dec(amount, text))
  {
  }

  /** A value that is not a decimal is rejected whatever the range. */
  lemma PriceRangeNonDecimalRejected(attr: PriceRangeAttribute, v: Boxed)
    requires !v.Dec?
    ensures !PriceRangeIsValid(attr, v)
  {
  }

  /** `ProductCategoryAttribute(params allowed)`. */
  datatype ProductCategoryAttribute = ProductCategoryAttribute(allowed: seq<ProductCategory>)

  /** `ProductCategoryAttribute.IsValid`: a category found in the allowed array
      (`Contains`). */
  function CategoryIsValid(attr: ProductCategoryAttribute, v: Boxed): (ok: bool)
    ensures ok <==> v.Cat? && v.category in attr.allowed
    ensures attr.allowed == [] ==> !ok
  {
    v.Cat? && exists k :: 0 <= k < |attr.allowed| && attr.allowed[k] == v.category
  }

  /** Only the set of allowed categories matters: neither their order nor
      repetitions change a verdict. */
  lemma CategoryVerdictDependsOnSetOnly(a1: ProductCategoryAttribute, a2: ProductCategoryAttribute, v: Boxed)
    requires (set c | c in a1.allowed) == (set c | c in a2.allowed)
    ensures CategoryIsValid(a1, v) == CategoryIsValid(a2, v)
  {
    if v.Cat? {
      var s1 := set c | c in a1.allowed;
      var s2 := set c | c in a2.allowed;
      assert v.category in a1.allowed <==> v.category in s1;
      assert v.category in a2.allowed <==> v.category in s2;
      assert s1 == s2;
    }
  }
}
