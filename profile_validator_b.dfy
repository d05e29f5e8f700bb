/** `CreateProductProfileValidator` as declared in
    Validators/CreateProductProfileRequestValidator.cs (the variant whose
    constructor takes its own logger). It differs from the other variant in
    its word lists, its brand check, its messages (several are
    FluentValidation's default English templates), its business rules and
    the order of its Electronics rules; and it reads `DateTime.UtcNow` for the
    release-date rules once, when it is constructed. */
module ProfileValidatorB {
  import opened Text
  import opened Wrappers
  import opened Regex
  import opened Domain
  import opened Persistence
  import opened RuleSet
  import A = ProfileValidatorA

  const InappropriateWords: seq<string> := ["badword1", "badword2", "inappropriate"]

  const RestrictedHomeWords: seq<string> := ["dangerous", "hazard", "explosive"]

  const TechnologyKeywords: seq<string> := ["tech", "device", "smart", "digital"]

  /** `BeValidName`: not blank, and no inappropriate word occurs, ignoring case. */
  predicate BeValidName(name: string) {
    !IsBlank(name) && !ContainsAnyIgnoreCase(name, InappropriateWords)
  }

  /** `BeUniqueName`: no stored product has both this name and the request's brand. */
  predicate BeUniqueName(products: seq<Product>, name: string, brand: string) {
    !NameBrandTaken(products, name, brand)
  }

  /** `BeValidBrandName`: the brand matches `^[\w\s\-'.]+$`. */
  predicate BeValidBrandName(brand: string) {
    IsMatch(brand, BrandPatternB)
  }

  /** `BeValidSKU`: with every space removed, the SKU matches `^[A-Za-z0-9-]{5,20}$`. */
  predicate BeValidSku(sku: string) {
    IsMatch(StripSpaces(sku), SkuPatternB)
  }

  /** `BeUniqueSKU`: no stored product has exactly this SKU, spaces included. */
  predicate BeUniqueSku(products: seq<Product>, sku: string) {
    !SkuTaken(products, sku)
  }

  /** `BeValidImageUrl`: a missing or blank URL is valid; otherwise it must start
      with "http://" or "https://" (case-sensitive) and end with an image suffix. */
  predicate BeValidImageUrl(url: Option<string>) {
    url.None? || IsBlank(url.value)
    || ((StartsWith(url.value, "http://") || StartsWith(url.value, "https://")) && HasImageExtension(url.value))
  }

  /** `PassBusinessRules`: four checks tried in order, the first that fires
      rejecting the request. */
  predicate PassBusinessRules(req: CreateProductProfileRequest, env: Env) {
    if CountCreatedOn(env.products, DayOf(env.now)) > 500 then false
    else if req.category == Electronics && req.price < 5000 then false
    else if req.category == Home && ContainsAnyIgnoreCase(req.name, RestrictedHomeWords) then false
    else if req.price > 50000 && req.stockQuantity > 10 then false
    else true
  }

  /** `ContainTechnologyKeywords`: some technology keyword occurs, ignoring case. */
  predicate ContainTechnologyKeywords(name: string) {
    ContainsAnyIgnoreCase(name, TechnologyKeywords)
  }

  /** `BeAppropriateForHome`: no restricted home word occurs, ignoring case. */
  predicate BeAppropriateForHome(name: string) {
    !ContainsAnyIgnoreCase(name, RestrictedHomeWords)
  }

  /** `LimitedStockForExpensiveProduct`: an early `return false` for an expensive
      product with more than 20 units, `true` otherwise. */
  predicate LimitedStockForExpensiveProduct(req: CreateProductProfileRequest) {
    if req.price > 10000 && req.stockQuantity > 20 then false else true
  }

  datatype Check =
    | Standard(builtIn: BuiltIn)
    | UniqueName
    | ValidName
    | ValidBrandName
    | ValidSku
    | UniqueSku
    | ValidImageUrl
    | BusinessRules
    | ContainsTechnologyKeyword
    | AppropriateForHome
    | LimitedStock

  predicate Holds(c: Check, req: CreateProductProfileRequest, env: Env) {
    match c
    case Standard(b) => BuiltInHolds(b, req)
    case UniqueName => BeUniqueName(env.products, req.name, req.brand)
    case ValidName => BeValidName(req.name)
    case ValidBrandName => BeValidBrandName(req.brand)
    case ValidSku => BeValidSku(req.sku)
    case UniqueSku => BeUniqueSku(env.products, req.sku)
    case ValidImageUrl => BeValidImageUrl(req.imageUrl)
    case BusinessRules => PassBusinessRules(req, env)
    case ContainsTechnologyKeyword => ContainTechnologyKeywords(req.name)
    case AppropriateForHome => BeAppropriateForHome(req.name)
    case LimitedStock => LimitedStockForExpensiveProduct(req)
  }

  const NameEmpty := "Name cannot be empty."
  const NameLengthPrefix := "'Name' must be between 1 and 200 characters. You entered "
  const NameNotUnique := "Name must be unique for the brand."
  const NameInappropriate := "Name contains inappropriate content."
  const BrandEmpty := "Brand cannot be empty."
  const BrandLengthPrefix := "'Brand' must be between 2 and 100 characters. You entered "
  const BrandInvalid := "Brand contains invalid characters."
  const SkuEmpty := "SKU cannot be empty."
  const SkuInvalid := "SKU format is invalid."
  const SkuNotUnique := "SKU already exists."
  const CategoryPrefix := "'Category' has a range of values which does not include '"
  const PriceNotPositive := "'Price' must be greater than '0'."
  const PriceTooHigh := "'Price' must be less than '10000'."
  const StockNegative := "'Stock Quantity' must be greater than or equal to '0'."
  const StockTooHigh := "'Stock Quantity' must be less than or equal to '100000'."
  const ImageUrlInvalid := "ImageUrl must be HTTP/HTTPS and end with a valid image extension."
  const BusinessRulesFailed := "The specified condition was not met for ''."
  const ElectronicsPriceTooLow := "'Price' must be greater than or equal to '50'."
  const ElectronicsNoKeyword := "Electronics name must contain technology keywords."
  const ElectronicsTooOld := "Electronics must be released within 5 years."
  const HomePriceTooHigh := "'Price' must be less than or equal to '200'."
  const HomeNameInappropriate := "Home product name is inappropriate."
  const ClothingBrandPrefix := "The length of 'Brand' must be at least 3 characters. You entered "
  const ExpensiveStockTooHigh := "Expensive products (>$100) must have \U{2264}20 units in stock."

  /** The default messages of the two release-date comparisons, which quote
      the instant compared against (written here as its tick count). */
  function ReleaseNotBeforeMessage(builtAt: Ticks): string {
    "'Release Date' must be less than '" + NatToString(builtAt) + "'."
  }

  function ReleaseAfter1900Message(): string {
    "'Release Date' must be greater than '" + NatToString(Jan1st1900) + "'."
  }

  const NameRules: seq<Rule<Check>> := [
    Rule(Standard(NotEmpty(NameField)), Always, Fixed(NameEmpty)),
    Rule(Standard(Length(NameField, 1, 200)), Always, EnteredLength(NameLengthPrefix, NameField)),
    Rule(UniqueName, Always, Fixed(NameNotUnique)),
    Rule(ValidName, Always, Fixed(NameInappropriate))]

  const BrandRules: seq<Rule<Check>> := [
    Rule(Standard(NotEmpty(BrandField)), Always, Fixed(BrandEmpty)),
    Rule(Standard(Length(BrandField, 2, 100)), Always, EnteredLength(BrandLengthPrefix, BrandField)),
    Rule(ValidBrandName, Always, Fixed(BrandInvalid))]

  const SkuRules: seq<Rule<Check>> := [
    Rule(Standard(NotEmpty(SkuField)), Always, Fixed(SkuEmpty)),
    Rule(ValidSku, Always, Fixed(SkuInvalid)),
    Rule(UniqueSku, Always, Fixed(SkuNotUnique))]

  const CategoryRules: seq<Rule<Check>> := [
    Rule(Standard(CategoryInEnum), Always, CategoryValue(CategoryPrefix))]

  const PriceRules: seq<Rule<Check>> := [
    Rule(Standard(PriceGreaterThan(0)), Always, Fixed(PriceNotPositive)),
    Rule(Standard(PriceLessThan(1_000_000)), Always, Fixed(PriceTooHigh))]

  /** `LessThan(DateTime.UtcNow)` with the instant read at construction, then
      `GreaterThan(new DateTime(1900, 1, 1))`. */
  function ReleaseRules(builtAt: Ticks): seq<Rule<Check>> {
    [Rule(Standard(ReleaseLessThan(builtAt)), Always, Fixed(ReleaseNotBeforeMessage(builtAt))),
     Rule(Standard(ReleaseGreaterThan(Jan1st1900)), Always, Fixed(ReleaseAfter1900Message()))]
  }

  const StockRules: seq<Rule<Check>> := [
    Rule(Standard(StockAtLeast(0)), Always, Fixed(StockNegative)),
    Rule(Standard(StockAtMost(100_000)), Always, Fixed(StockTooHigh))]

  const ImageUrlRules: seq<Rule<Check>> := [
    Rule(ValidImageUrl, ImageUrlGiven, Fixed(ImageUrlInvalid))]

  const BusinessRuleSet: seq<Rule<Check>> := [
    Rule(BusinessRules, Always, Fixed(BusinessRulesFailed))]

  /** The Electronics block, with `DateTime.UtcNow.AddYears(-5)` read at construction. */
  function ElectronicsRules(fiveYearsBeforeBuilt: Ticks): seq<Rule<Check>> {
    [Rule(Standard(PriceAtLeast(5000)), CategoryIs(Electronics), Fixed(ElectronicsPriceTooLow)),
     Rule(ContainsTechnologyKeyword, CategoryIs(Electronics), Fixed(ElectronicsNoKeyword)),
     Rule(Standard(ReleaseAtLeast(fiveYearsBeforeBuilt)), CategoryIs(Electronics), Fixed(ElectronicsTooOld))]
  }

  const HomeRules: seq<Rule<Check>> := [
    Rule(Standard(PriceAtMost(20000)), CategoryIs(Home), Fixed(HomePriceTooHigh)),
    Rule(AppropriateForHome, CategoryIs(Home), Fixed(HomeNameInappropriate))]

  const ClothingRules: seq<Rule<Check>> := [
    Rule(Standard(MinimumLength(BrandField, 3)), CategoryIs(Clothing), EnteredLength(ClothingBrandPrefix, BrandField))]

  const CrossFieldRules: seq<Rule<Check>> := [
    Rule(LimitedStock, Always, Fixed(ExpensiveStockTooHigh))]

  function FieldRules(builtAt: Ticks): seq<Rule<Check>> {
    NameRules + BrandRules + SkuRules + CategoryRules + PriceRules + ReleaseRules(builtAt) + StockRules + ImageUrlRules
  }

  function ConditionalRules(fiveYearsBeforeBuilt: Ticks): seq<Rule<Check>> {
    ElectronicsRules(fiveYearsBeforeBuilt) + HomeRules + ClothingRules + CrossFieldRules
  }

  /** The rules the constructor registers, in registration order, given the two
      instants it read from the clock. */
  function RegisteredRules(builtAt: Ticks, fiveYearsBeforeBuilt: Ticks): seq<Rule<Check>> {
    FieldRules(builtAt) + BusinessRuleSet + ConditionalRules(fiveYearsBeforeBuilt)
  }

  function LengthMessage(prefix: string, s: string): string {
    prefix + NatToString(|s|) + " characters."
  }

  /** What each group of rules reports, written out check by check. */
  function NameFailures(req: CreateProductProfileRequest, env: Env): (r: seq<string>)
    ensures r == [] <==> BeValidName(req.name) && |req.name| <= 200
                         && BeUniqueName(env.products, req.name, req.brand)
  {
    Report(IsBlank(req.name), NameEmpty)
    + Report(|req.name| < 1 || |req.name| > 200, LengthMessage(NameLengthPrefix, req.name))
    + Report(!BeUniqueName(env.products, req.name, req.brand), NameNotUnique)
    + Report(!BeValidName(req.name), NameInappropriate)
  }

  function BrandFailures(req: CreateProductProfileRequest): (r: seq<string>)
    ensures r == [] <==> !IsBlank(req.brand) && 2 <= |req.brand| <= 100 && BeValidBrandName(req.brand)
  {
    Report(IsBlank(req.brand), BrandEmpty)
    + Report(|req.brand| < 2 || |req.brand| > 100, LengthMessage(BrandLengthPrefix, req.brand))
    + Report(!BeValidBrandName(req.brand), BrandInvalid)
  }

  function SkuFailures(req: CreateProductProfileRequest, env: Env): (r: seq<string>)
    ensures r == [] <==> !IsBlank(req.sku) && BeValidSku(req.sku) && BeUniqueSku(env.products, req.sku)
  {
    Report(IsBlank(req.sku), SkuEmpty)
    + Report(!BeValidSku(req.sku), SkuInvalid)
    + Report(!BeUniqueSku(env.products, req.sku), SkuNotUnique)
  }

  function CategoryFailures(req: CreateProductProfileRequest): (r: seq<string>)
    ensures r == [] <==> !req.category.Undeclared?
  {
    Report(!IsDeclared(req.category), CategoryPrefix + CategoryText(req.category) + "'.")
  }

  function PriceFailures(req: CreateProductProfileRequest): (r: seq<string>)
    ensures r == [] <==> 0 < req.price < 1_000_000
  {
    Report(req.price <= 0, PriceNotPositive) + Report(req.price >= 1_000_000, PriceTooHigh)
  }

  function ReleaseFailures(req: CreateProductProfileRequest, builtAt: Ticks): (r: seq<string>)
    ensures r == [] <==> Jan1st1900 < req.releaseDate < builtAt
  {
    Report(req.releaseDate >= builtAt, ReleaseNotBeforeMessage(builtAt))
    + Report(req.releaseDate <= Jan1st1900, ReleaseAfter1900Message())
  }

  function StockFailures(req: CreateProductProfileRequest): (r: seq<string>)
    ensures r == [] <==> 0 <= req.stockQuantity <= 100_000
  {
    Report(req.stockQuantity < 0, StockNegative) + Report(req.stockQuantity > 100_000, StockTooHigh)
  }

  function ImageUrlFailures(req: CreateProductProfileRequest): (r: seq<string>)
    ensures r == [] <==> BeValidImageUrl(req.imageUrl)
    ensures req.imageUrl.None? || IsBlank(req.imageUrl.value) ==> r == []
  {
    Report(req.imageUrl.Some? && !IsBlank(req.imageUrl.value) && !BeValidImageUrl(req.imageUrl), ImageUrlInvalid)
  }

  function BusinessFailures(req: CreateProductProfileRequest, env: Env): (r: seq<string>)
    ensures r == [] <==> PassBusinessRules(req, env)
  {
    Report(!PassBusinessRules(req, env), BusinessRulesFailed)
  }

  function ElectronicsFailures(req: CreateProductProfileRequest, fiveYearsBeforeBuilt: Ticks): (r: seq<string>)
    ensures req.category != Electronics ==> r == []
    ensures r == [] <==> req.category != Electronics
                         || (req.price >= 5000 && ContainTechnologyKeywords(req.name) && req.releaseDate >= fiveYearsBeforeBuilt)
  {
    if req.category == Electronics then
      Report(req.price < 5000, ElectronicsPriceTooLow)
      + Report(!ContainTechnologyKeywords(req.name), ElectronicsNoKeyword)
      + Report(req.releaseDate < fiveYearsBeforeBuilt, ElectronicsTooOld)
    else []
  }

  function HomeFailures(req: CreateProductProfileRequest): (r: seq<string>)
    ensures req.category != Home ==> r == []
    ensures r == [] <==> req.category != Home || (req.price <= 20000 && BeAppropriateForHome(req.name))
  {
    if req.category == Home then
      Report(req.price > 20000, HomePriceTooHigh) + Report(!BeAppropriateForHome(req.name), HomeNameInappropriate)
    else []
  }

  function ClothingFailures(req: CreateProductProfileRequest): (r: seq<string>)
    ensures req.category != Clothing ==> r == []
    ensures r == [] <==> req.category != Clothing || |req.brand| >= 3
  {
    if req.category == Clothing then Report(|req.brand| < 3, LengthMessage(ClothingBrandPrefix, req.brand)) else []
  }

  function CrossFieldFailures(req: CreateProductProfileRequest): (r: seq<string>)
    ensures r == [] <==> !(req.price > 10000 && req.stockQuantity > 20)
  {
    Report(!LimitedStockForExpensiveProduct(req), ExpensiveStockTooHigh)
  }

  function FieldFailures(req: CreateProductProfileRequest, env: Env, builtAt: Ticks): seq<string> {
    NameFailures(req, env) + BrandFailures(req) + SkuFailures(req, env) + CategoryFailures(req)
    + PriceFailures(req) + ReleaseFailures(req, builtAt) + StockFailures(req) + ImageUrlFailures(req)
  }

  function ConditionalFailures(req: CreateProductProfileRequest, fiveYearsBeforeBuilt: Ticks): seq<string> {
    ElectronicsFailures(req, fiveYearsBeforeBuilt) + HomeFailures(req) + ClothingFailures(req) + CrossFieldFailures(req)
  }

  /** The messages the validator built at `builtAt` reports, in order. */
  function ExpectedFailures(req: CreateProductProfileRequest, env: Env, builtAt: Ticks, fiveYearsBeforeBuilt: Ticks): seq<string> {
    FieldFailures(req, env, builtAt) + BusinessFailures(req, env) + ConditionalFailures(req, fiveYearsBeforeBuilt)
  }

  lemma NameRulesReport(req: CreateProductProfileRequest, env: Env)
    ensures Failures(NameRules, req, env, Holds) == NameFailures(req, env)
  {
    FailuresOfFour(NameRules, req, env, Holds);
  }

  lemma BrandRulesReport(req: CreateProductProfileRequest, env: Env)
    ensures Failures(BrandRules, req, env, Holds) == BrandFailures(req)
  {
    FailuresOfThree(BrandRules, req, env, Holds);
  }

  lemma SkuRulesReport(req: CreateProductProfileRequest, env: Env)
    ensures Failures(SkuRules, req, env, Holds) == SkuFailures(req, env)
  {
    var r0, r1, r2 := SkuRules[0], SkuRules[1], SkuRules[2];
    assert r0 == Rule(Standard(NotEmpty(SkuField)), Always, Fixed(SkuEmpty));
    assert r1 == Rule(ValidSku, Always, Fixed(SkuInvalid));
    assert r2 == Rule(UniqueSku, Always, Fixed(SkuNotUnique));
    assert Fails(r0, req, env, Holds) == IsBlank(req.sku);
    assert Fails(r1, req, env, Holds) == !BeValidSku(req.sku);
    assert Fails(r2, req, env, Holds) == !BeUniqueSku(env.products, req.sku);
    FailuresOfThree(SkuRules, req, env, Holds);
  }

  lemma CategoryRulesReport(req: CreateProductProfileRequest, env: Env)
    ensures Failures(CategoryRules, req, env, Holds) == CategoryFailures(req)
  {
    FailuresOfOne(CategoryRules, req, env, Holds);
  }

  lemma PriceRulesReport(req: CreateProductProfileRequest, env: Env)
    ensures Failures(PriceRules, req, env, Holds) == PriceFailures(req)
  {
    FailuresOfTwo(PriceRules, req, env, Holds);
  }

  lemma ReleaseRulesReport(req: CreateProductProfileRequest, env: Env, builtAt: Ticks)
    ensures Failures(ReleaseRules(builtAt), req, env, Holds) == ReleaseFailures(req, builtAt)
  {
    FailuresOfTwo(ReleaseRules(builtAt), req, env, Holds);
  }

  lemma StockRulesReport(req: CreateProductProfileRequest, env: Env)
    ensures Failures(StockRules, req, env, Holds) == StockFailures(req)
  {
    FailuresOfTwo(StockRules, req, env, Holds);
  }

  lemma ImageUrlRulesReport(req: CreateProductProfileRequest, env: Env)
    ensures Failures(ImageUrlRules, req, env, Holds) == ImageUrlFailures(req)
  {
    FailuresOfOne(ImageUrlRules, req, env, Holds);
  }

  lemma BusinessRulesReport(req: CreateProductProfileRequest, env: Env)
    ensures Failures(BusinessRuleSet, req, env, Holds) == BusinessFailures(req, env)
  {
    FailuresOfOne(BusinessRuleSet, req, env, Holds);
  }

  lemma ElectronicsRulesReport(req: CreateProductProfileRequest, env: Env, fiveYearsBeforeBuilt: Ticks)
    ensures Failures(ElectronicsRules(fiveYearsBeforeBuilt), req, env, Holds) == ElectronicsFailures(req, fiveYearsBeforeBuilt)
  {
    FailuresOfThree(ElectronicsRules(fiveYearsBeforeBuilt), req, env, Holds);
  }

  lemma HomeRulesReport(req: CreateProductProfileRequest, env: Env)
    ensures Failures(HomeRules, req, env, Holds) == HomeFailures(req)
  {
    FailuresOfTwo(HomeRules, req, env, Holds);
  }

  lemma ClothingRulesReport(req: CreateProductProfileRequest, env: Env)
    ensures Failures(ClothingRules, req, env, Holds) == ClothingFailures(req)
  {
    FailuresOfOne(ClothingRules, req, env, Holds);
  }

  lemma CrossFieldRulesReport(req: CreateProductProfileRequest, env: Env)
    ensures Failures(CrossFieldRules, req, env, Holds) == CrossFieldFailures(req)
  {
    FailuresOfOne(CrossFieldRules, req, env, Holds);
  }

  lemma FieldRulesReport(req: CreateProductProfileRequest, env: Env, builtAt: Ticks)
    ensures Failures(FieldRules(builtAt), req, env, Holds) == FieldFailures(req, env, builtAt)
  {
    var g1 := NameRules;
    var g2 := g1 + BrandRules;
    var g3 := g2 + SkuRules;
    var g4 := g3 + CategoryRules;
    var g5 := g4 + PriceRules;
    var g6 := g5 + ReleaseRules(builtAt);
    var g7 := g6 + StockRules;
    assert FieldRules(builtAt) == g7 + ImageUrlRules;
    FailuresAppend(g1, BrandRules, req, env, Holds);
    FailuresAppend(g2, SkuRules, req, env, Holds);
    FailuresAppend(g3, CategoryRules, req, env, Holds);
    FailuresAppend(g4, PriceRules, req, env, Holds);
    FailuresAppend(g5, ReleaseRules(builtAt), req, env, Holds);
    FailuresAppend(g6, StockRules, req, env, Holds);
    FailuresAppend(g7, ImageUrlRules, req, env, Holds);
    NameRulesReport(req, env);
    BrandRulesReport(req, env);
    SkuRulesReport(req, env);
    CategoryRulesReport(req, env);
    PriceRulesReport(req, env);
    ReleaseRulesReport(req, env, builtAt);
    StockRulesReport(req, env);
    ImageUrlRulesReport(req, env);
  }

  lemma ConditionalRulesReport(req: CreateProductProfileRequest, env: Env, fiveYearsBeforeBuilt: Ticks)
    ensures Failures(ConditionalRules(fiveYearsBeforeBuilt), req, env, Holds) == ConditionalFailures(req, fiveYearsBeforeBuilt)
  {
    var g1 := ElectronicsRules(fiveYearsBeforeBuilt);
    var g2 := g1 + HomeRules;
    var g3 := g2 + ClothingRules;
    assert ConditionalRules(fiveYearsBeforeBuilt) == g3 + CrossFieldRules;
    FailuresAppend(g1, HomeRules, req, env, Holds);
    FailuresAppend(g2, ClothingRules, req, env, Holds);
    FailuresAppend(g3, CrossFieldRules, req, env, Holds);
    ElectronicsRulesReport(req, env, fiveYearsBeforeBuilt);
    HomeRulesReport(req, env);
    ClothingRulesReport(req, env);
    CrossFieldRulesReport(req, env);
  }

  /** The registered rules report exactly the expected messages, in order. */
  lemma RegisteredRulesReport(req: CreateProductProfileRequest, env: Env, builtAt: Ticks, fiveYearsBeforeBuilt: Ticks)
    ensures Failures(RegisteredRules(builtAt, fiveYearsBeforeBuilt), req, env, Holds)
         == ExpectedFailures(req, env, builtAt, fiveYearsBeforeBuilt)
  {
    FailuresAppend(FieldRules(builtAt), BusinessRuleSet, req, env, Holds);
    FailuresAppend(FieldRules(builtAt) + BusinessRuleSet, ConditionalRules(fiveYearsBeforeBuilt), req, env, Holds);
    FieldRulesReport(req, env, builtAt);
    BusinessRulesReport(req, env);
    ConditionalRulesReport(req, env, fiveYearsBeforeBuilt);
  }

  /** Everything the registered rules demand of a request, stated directly on
      its fields. */
  predicate Accepts(req: CreateProductProfileRequest, env: Env, builtAt: Ticks, fiveYearsBeforeBuilt: Ticks) {
    && BeValidName(req.name) && |req.name| <= 200 && BeUniqueName(env.products, req.name, req.brand)
    && !IsBlank(req.brand) && 2 <= |req.brand| <= 100 && BeValidBrandName(req.brand)
    && !IsBlank(req.sku) && BeValidSku(req.sku) && BeUniqueSku(env.products, req.sku)
    && IsDeclared(req.category)
    && 0 < req.price < 1_000_000
    && Jan1st1900 < req.releaseDate < builtAt
    && 0 <= req.stockQuantity <= 100_000
    && BeValidImageUrl(req.imageUrl)
    && PassBusinessRules(req, env)
    && (req.category == Electronics ==>
          req.price >= 5000 && ContainTechnologyKeywords(req.name) && req.releaseDate >= fiveYearsBeforeBuilt)
    && (req.category == Home ==> req.price <= 20000 && BeAppropriateForHome(req.name))
    && (req.category == Clothing ==> |req.brand| >= 3)
    && (req.price <= 10000 || req.stockQuantity <= 20)
  }

  /** The validator reports nothing exactly when every rule holds. */
  lemma ExpectedFailuresEmptyIff(req: CreateProductProfileRequest, env: Env, builtAt: Ticks, fiveYearsBeforeBuilt: Ticks)
    ensures ExpectedFailures(req, env, builtAt, fiveYearsBeforeBuilt) == [] <==> Accepts(req, env, builtAt, fiveYearsBeforeBuilt)
  {
  }

  /** `BeValidName` fails exactly for a blank name or one containing one of the
      three words, ignoring case. */
  lemma BeValidNameMeaning(name: string)
    ensures !BeValidName(name) <==>
      IsBlank(name) || ContainsIgnoreCase(name, "badword1") || ContainsIgnoreCase(name, "badword2")
      || ContainsIgnoreCase(name, "inappropriate")
  {
    assert InappropriateWords[0] == "badword1" && InappropriateWords[1] == "badword2"
        && InappropriateWords[2] == "inappropriate";
  }

  /** A blank name is reported twice: as empty and as inappropriate. */
  lemma BlankNameReportedTwice(req: CreateProductProfileRequest, env: Env)
    requires IsBlank(req.name)
    ensures NameFailures(req, env)[0] == NameEmpty
    ensures NameInappropriate in NameFailures(req, env)
  {
    var r := NameFailures(req, env);
    assert r[|r| - 1] == NameInappropriate;
  }

  /** `BeValidBrandName` accepts exactly the non-empty strings of word
      characters, white space, '-', '\'' and '.'. */
  lemma BeValidBrandNameMeaning(brand: string)
    ensures BeValidBrandName(brand) <==> |brand| >= 1 && forall i :: 0 <= i < |brand| ==> IsBrandCharB(brand[i])
  {
    BrandPatternBMeaning(brand);
  }

  /** Both variants' `BeValidSKU` give the same verdict on every SKU. */
  lemma BeValidSkuAgrees(sku: string)
    ensures BeValidSku(sku) <==> A.BeValidSku(sku)
  {
    SkuPatternsAgree(StripSpaces(sku));
  }

  /** `PassBusinessRules` holds exactly when none of its four checks fires; it
      has no release-date check. */
  lemma PassBusinessRulesIff(req: CreateProductProfileRequest, env: Env)
    ensures PassBusinessRules(req, env) <==>
      && CountCreatedOn(env.products, DayOf(env.now)) <= 500
      && !(req.category == Electronics && req.price < 5000)
      && !(req.category == Home && !BeAppropriateForHome(req.name))
      && !(req.price > 50000 && req.stockQuantity > 10)
  {
  }

  /** The business rules of this variant never look at the release date or at
      the five-year cutoff. */
  lemma PassBusinessRulesIgnoresRelease(req: CreateProductProfileRequest, env: Env, release: Ticks, cutoff: Ticks)
    ensures PassBusinessRules(req.(releaseDate := release), env.(fiveYearsAgo := cutoff)) == PassBusinessRules(req, env)
  {
  }

  /** The final rule of this variant and the final rule of the other agree. */
  lemma LimitedStockAgrees(req: CreateProductProfileRequest)
    ensures LimitedStockForExpensiveProduct(req) <==> A.CheapOrLimitedStock(req)
  {
  }

  /** The verdict depends on the clock at validation time only through today's
      date (the daily-count business rule); the release-date rules use the
      instants read at construction. */
  lemma ClockReadOnlyForToday(req: CreateProductProfileRequest, env: Env, builtAt: Ticks, fiveYearsBeforeBuilt: Ticks,
                              now: Ticks, fiveYearsAgo: Ticks)
    requires DayOf(now) == DayOf(env.now)
    ensures ExpectedFailures(req, env.(now := now, fiveYearsAgo := fiveYearsAgo), builtAt, fiveYearsBeforeBuilt)
         == ExpectedFailures(req, env, builtAt, fiveYearsBeforeBuilt)
  {
    var env' := env.(now := now, fiveYearsAgo := fiveYearsAgo);
    assert NameFailures(req, env') == NameFailures(req, env);
    assert SkuFailures(req, env') == SkuFailures(req, env);
    assert PassBusinessRules(req, env') == PassBusinessRules(req, env);
  }

  /** The validator object, with the two instants its constructor read from the
      clock. */
  class CreateProductProfileValidator {
    const context: ProductStore
    const builtAt: Ticks
    const fiveYearsBeforeBuilt: Ticks

    /** `builtAt` is `DateTime.UtcNow` during construction and
        `fiveYearsBeforeBuilt` is `DateTime.UtcNow.AddYears(-5)`. */
    constructor(context: ProductStore, builtAt: Ticks, fiveYearsBeforeBuilt: Ticks)
      ensures this.context == context && this.builtAt == builtAt && this.fiveYearsBeforeBuilt == fiveYearsBeforeBuilt
    {
      this.context := context;
      this.builtAt := builtAt;
      this.fiveYearsBeforeBuilt := fiveYearsBeforeBuilt;
    }

    /** `ValidateAsync` at instant `now`. Variant B's rules read its
        five-year cutoff from construction time, never from the environment,
        so the environment's `fiveYearsAgo` slot is filled with `now` and
        left unused (`ClockReadOnlyForToday`). */
    method ValidateAsync(req: CreateProductProfileRequest, now: Ticks) returns (errors: seq<string>)
      ensures errors == ExpectedFailures(req, Env(context.products, now, now), builtAt, fiveYearsBeforeBuilt)
      ensures errors == [] <==> Accepts(req, Env(context.products, now, now), builtAt, fiveYearsBeforeBuilt)
    {
      var env := Env(context.products, now, now);
      errors := Validate(RegisteredRules(builtAt, fiveYearsBeforeBuilt), req, env, Holds);
      RegisteredRulesReport(req, env, builtAt, fiveYearsBeforeBuilt);
      ExpectedFailuresEmptyIff(req, env, builtAt, fiveYearsBeforeBuilt);
    }
  }
}
