/** `CreateProductValidator` (Validators/CreateProductValidator.cs): six
    independent `NotEmpty` rules on a `CreateProductRequest`, each with its own
    message. FluentValidation's `NotEmpty` fails for a blank string and for a
    value equal to its type's default: 0 for a decimal, `default(DateTime)`
    (tick 0) for a date, and the enum member numbered 0 for the category. */
module CreateProductValidation {
  import opened Text
  import opened Domain
  import opened RuleSet
  import opened Wrappers

  const NameRequired := "Name is required"
  const BrandRequired := "Brand is required"
  const SkuRequired := "SKU is required"
  const CategoryRequired := "Category is required"
  const PriceRequired := "Price is required"
  const ReleaseDateRequired := "ReleaseDate is required"

  /** All six properties are present. `defaultCategory` is the member of
      `ProductCategory` numbered 0 (the enum declaration is not part of this
      model). */
  predicate AllPresent(req: CreateProductRequest, defaultCategory: ProductCategory) {
    !IsBlank(req.name) && !IsBlank(req.brand) && !IsBlank(req.sku)
    && req.category != defaultCategory && req.price != 0 && req.releaseDate != 0
  }

  /** `Validate`: the messages of the failing rules, in declaration order. */
  function Validate(req: CreateProductRequest, defaultCategory: ProductCategory): (errors: seq<string>)
    ensures errors == [] <==> AllPresent(req, defaultCategory)
    ensures NameRequired in errors <==> IsBlank(req.name)
    ensures BrandRequired in errors <==> IsBlank(req.brand)
    ensures SkuRequired in errors <==> IsBlank(req.sku)
    ensures CategoryRequired in errors <==> req.category == defaultCategory
    ensures PriceRequired in errors <==> req.price == 0
    ensures ReleaseDateRequired in errors <==> req.releaseDate == 0
    ensures |errors| <= 6
  {
    Report(IsBlank(req.name), NameRequired)
    + Report(IsBlank(req.brand), BrandRequired)
    + Report(IsBlank(req.sku), SkuRequired)
    + Report(req.category == defaultCategory, CategoryRequired)
    + Report(req.price == 0, PriceRequired)
    + Report(req.releaseDate == 0, ReleaseDateRequired)
  }

  /** Stock, image URL, id, creation time and availability are never checked. */
  lemma UncheckedFieldsIgnored(req: CreateProductRequest, defaultCategory: ProductCategory,
                               stock: int, url: Option<string>, id: Guid, createdAt: Ticks, available: bool)
    ensures Validate(req.(stockQuantity := stock, imageUrl := url, id := id, createdAt := createdAt, isAvailable := available),
                     defaultCategory)
         == Validate(req, defaultCategory)
  {
  }

  /** A request with every property missing gets the six messages in
      declaration order. */
  lemma AllMissingInOrder(req: CreateProductRequest, defaultCategory: ProductCategory)
    requires req.name == "" && req.brand == "" && req.sku == ""
    requires req.category == defaultCategory && req.price == 0 && req.releaseDate == 0
    ensures Validate(req, defaultCategory)
         == [NameRequired, BrandRequired, SkuRequired, CategoryRequired, PriceRequired, ReleaseDateRequired]
  {
  }
}
