/** `CreateProductProfileValidator` as declared in
    Validators/CreateProductProfileValidator.cs (the variant whose constructor
    takes the create handler's logger, and the one the create handler runs).
    Its helpers are pure predicates; its constructor registers thirteen groups
    of rules, in the order below. */
module ProfileValidatorA {
  import opened Text
  import opened Wrappers
  import opened Regex
  import opened Domain
  import opened Persistence
  import opened RuleSet

  const InappropriateWords: seq<string> := ["badword1", "badword2", "offensive"]

  const TechKeywords: seq<string> := ["Tech", "Smart", "Phone", "Tablet", "Laptop", "Digital", "Bluetooth"]

  /** `BeValidName`: no inappropriate word occurs, ignoring case. */
  predicate BeValidName(name: string) {
    !ContainsAnyIgnoreCase(name, InappropriateWords)
  }

  /** `BeUniqueName`: no stored product has both this name and the request's brand. */
  predicate BeUniqueName(products: seq<Product>, name: string, brand: string) {
    !NameBrandTaken(products, name, brand)
  }

  /** `BeValidSKU`: with every space removed, the SKU matches `^[a-zA-Z0-9\-]{5,20}$`. */
  predicate BeValidSku(sku: string) {
    IsMatch(StripSpaces(sku), SkuPatternA)
  }

  /** `BeUniqueSKU`: no stored product has exactly this SKU, spaces included. */
  predicate BeUniqueSku(products: seq<Product>, sku: string) {
    !SkuTaken(products, sku)
  }

  /** `Uri.TryCreate(url, UriKind.Absolute, out uri)` succeeding with scheme
      "http" or "https", approximated by a case-insensitive "http://" or
      "https://" prefix (URI schemes are case-insensitive and are reported in
      lower case). */
  predicate IsAbsoluteHttpUri(url: string) {
    StartsWithIgnoreCase(url, "http://") || StartsWithIgnoreCase(url, "https://")
  }

  /** `BeValidImageUrl`: a missing or blank URL is valid; otherwise it must be an
      absolute http(s) URI ending with an image suffix. */
  predicate BeValidImageUrl(url: Option<string>) {
    url.None? || IsBlank(url.value) || (IsAbsoluteHttpUri(url.value) && HasImageExtension(url.value))
  }

  /** `PassBusinessRules`: five checks tried in order, the first that fires
      rejecting the request. */
  predicate PassBusinessRules(req: CreateProductProfileRequest, env: Env) {
    if CountCreatedOn(env.products, DayOf(env.now)) > 500 then false
    else if req.category == Electronics && req.price < 5000 then false
    else if req.category == Home && ContainsAnyIgnoreCase(req.name, InappropriateWords) then false
    else if req.price > 50000 && req.stockQuantity > 10 then false
    else if req.category == Electronics && req.releaseDate < env.fiveYearsAgo then false
    else true
  }

  /** `ContainTechnologyKeywords`: some technology keyword occurs, ignoring case. */
  predicate ContainTechnologyKeywords(name: string) {
    ContainsAnyIgnoreCase(name, TechKeywords)
  }

  /** `BeAppropriateForHome`: no inappropriate word occurs, ignoring case. */
  predicate BeAppropriateForHome(name: string) {
    !ContainsAnyIgnoreCase(name, InappropriateWords)
  }

  /** The final cross-field rule: `x.Price <= 100m || x.StockQuantity <= 20`. */
  predicate CheapOrLimitedStock(req: CreateProductProfileRequest) {
    req.price <= 10000 || req.stockQuantity <= 20
  }

  /** The checks this validator registers: FluentValidation built-ins and its
      own `Must`/`MustAsync` predicates. */
  datatype Check =
    | Standard(builtIn: BuiltIn)
    | ValidName
    | UniqueName
    | ValidSku
    | UniqueSku
    | NotBefore1900        // d >= new DateTime(1900, 1, 1)
    | NotInFuture          // d <= DateTime.UtcNow
    | ValidImageUrl
    | BusinessRules
    | RecentElectronics    // d >= DateTime.UtcNow.AddYears(-5)
    | TechnologyKeywords
    | AppropriateForHome
    | LimitedStockIfExpensive

  predicate Holds(c: Check, req: CreateProductProfileRequest, env: Env) {
    match c
    case Standard(b) => BuiltInHolds(b, req)
    case ValidName => BeValidName(req.name)
    case UniqueName => BeUniqueName(env.products, req.name, req.brand)
    case ValidSku => BeValidSku(req.sku)
    case UniqueSku => BeUniqueSku(env.products, req.sku)
    case NotBefore1900 => req.releaseDate >= Jan1st1900
    case NotInFuture => req.releaseDate <= env.now
    case ValidImageUrl => BeValidImageUrl(req.imageUrl)
    case BusinessRules => PassBusinessRules(req, env)
    case RecentElectronics => req.releaseDate >= env.fiveYearsAgo
    case TechnologyKeywords => ContainTechnologyKeywords(req.name)
    case AppropriateForHome => BeAppropriateForHome(req.name)
    case LimitedStockIfExpensive => CheapOrLimitedStock(req)
  }

  const NameEmpty := "Product name must not be empty."
  const NameLengthPrefix := "'Name' must be between 1 and 200 characters. You entered "
  const NameInappropriate := "Product name contains inappropriate content."
  const NameNotUnique := "Product name must be unique for the brand."
  const BrandEmpty := "Brand name must not be empty."
  const BrandLengthPrefix := "'Brand' must be between 2 and 100 characters. You entered "
  const BrandInvalid := "Brand contains invalid characters."
  const SkuEmpty := "SKU must not be empty."
  const SkuInvalid := "SKU must be alphanumeric with hyphens, 5-20 characters."
  const SkuNotUnique := "SKU must be unique."
  const CategoryInvalid := "Category must be a valid value."
  const PriceNotPositive := "Price must be greater than 0."
  const PriceTooHigh := "Price must be less than $10,000."
  const ReleaseTooEarly := "Release date cannot be before 1900."
  const ReleaseInFuture := "Release date cannot be in the future."
  const StockNegative := "'Stock Quantity' must be greater than or equal to '0'."
  const StockTooHigh := "'Stock Quantity' must be less than or equal to '100000'."
  const ImageUrlInvalid := "ImageUrl must be a valid HTTP/HTTPS image URL."
  const BusinessRulesFailed := "Business rules failed."
  const ElectronicsPriceTooLow := "Electronics price must be >= $50."
  const ElectronicsTooOld := "Electronics must be released within last 5 years."
  const ElectronicsNoKeyword := "Electronics must contain technology keywords."
  const HomePriceTooHigh := "Home price must be <= $200."
  const HomeNameInappropriate := "Home product name must be appropriate."
  const ClothingBrandTooShort := "Clothing brand name must be at least 3 characters."
  const ExpensiveStockTooHigh := "Expensive products (>$100) must have limited stock (\U{2264}20 units)."

  const NameRules: seq<Rule<Check>> := [
    Rule(Standard(NotEmpty(NameField)), Always, Fixed(NameEmpty)),
    Rule(Standard(Length(NameField, 1, 200)), Always, EnteredLength(NameLengthPrefix, NameField)),
    Rule(ValidName, Always, Fixed(NameInappropriate)),
    Rule(UniqueName, Always, Fixed(NameNotUnique))]

  const BrandRules: seq<Rule<Check>> := [
    Rule(Standard(NotEmpty(BrandField)), Always, Fixed(BrandEmpty)),
    Rule(Standard(Length(BrandField, 2, 100)), Always, EnteredLength(BrandLengthPrefix, BrandField)),
    Rule(Standard(Matches(BrandField, BrandPatternA)), Always, Fixed(BrandInvalid))]

  const SkuRules: seq<Rule<Check>> := [
    Rule(Standard(NotEmpty(SkuField)), Always, Fixed(SkuEmpty)),
    Rule(ValidSku, Always, Fixed(SkuInvalid)),
    Rule(UniqueSku, Always, Fixed(SkuNotUnique))]

  const CategoryRules: seq<Rule<Check>> := [
    Rule(Standard(CategoryInEnum), Always, Fixed(CategoryInvalid))]

  const PriceRules: seq<Rule<Check>> := [
    Rule(Standard(PriceGreaterThan(0)), Always, Fixed(PriceNotPositive)),
    Rule(Standard(PriceLessThan(1_000_000)), Always, Fixed(PriceTooHigh))]

  const ReleaseRules: seq<Rule<Check>> := [
    Rule(NotBefore1900, Always, Fixed(ReleaseTooEarly)),
    Rule(NotInFuture, Always, Fixed(ReleaseInFuture))]

  const StockRules: seq<Rule<Check>> := [
    Rule(Standard(StockAtLeast(0)), Always, Fixed(StockNegative)),
    Rule(Standard(StockAtMost(100_000)), Always, Fixed(StockTooHigh))]

  const ImageUrlRules: seq<Rule<Check>> := [
    Rule(ValidImageUrl, ImageUrlGiven, Fixed(ImageUrlInvalid))]

  const BusinessRuleSet: seq<Rule<Check>> := [
    Rule(BusinessRules, Always, Fixed(BusinessRulesFailed))]

  const ElectronicsRules: seq<Rule<Check>> := [
    Rule(Standard(PriceAtLeast(5000)), CategoryIs(Electronics), Fixed(ElectronicsPriceTooLow)),
    Rule(RecentElectronics, CategoryIs(Electronics), Fixed(ElectronicsTooOld)),
    Rule(TechnologyKeywords, CategoryIs(Electronics), Fixed(ElectronicsNoKeyword))]

  const HomeRules: seq<Rule<Check>> := [
    Rule(Standard(PriceAtMost(20000)), CategoryIs(Home), Fixed(HomePriceTooHigh)),
    Rule(AppropriateForHome, CategoryIs(Home), Fixed(HomeNameInappropriate))]

  const ClothingRules: seq<Rule<Check>> := [
    Rule(Standard(MinimumLength(BrandField, 3)), CategoryIs(Clothing), Fixed(ClothingBrandTooShort))]

  const CrossFieldRules: seq<Rule<Check>> := [
    Rule(LimitedStockIfExpensive, Always, Fixed(ExpensiveStockTooHigh))]

  /** The per-property rules, the `When` blocks with the final cross-field
      rule, and the rules the constructor registers, in registration order. */
  const FieldRules: seq<Rule<Check>> :=
    NameRules + BrandRules + SkuRules + CategoryRules + PriceRules + ReleaseRules + StockRules + ImageUrlRules

  const ConditionalRules: seq<Rule<Check>> := ElectronicsRules + HomeRules + ClothingRules + CrossFieldRules

  const RegisteredRules: seq<Rule<Check>> := FieldRules + BusinessRuleSet + ConditionalRules

  function LengthMessage(prefix: string, s: string): string {
    prefix + NatToString(|s|) + " characters."
  }

  /** What each group of rules reports, written out check by check. */
  function NameFailures(req: CreateProductProfileRequest, env: Env): (r: seq<string>)
    ensures r == [] <==> !IsBlank(req.name) && |req.name| <= 200 && BeValidName(req.name)
                         && BeUniqueName(env.products, req.name, req.brand)
  {
    Report(IsBlank(req.name), NameEmpty)
    + Report(|req.name| < 1 || |req.name| > 200, LengthMessage(NameLengthPrefix, req.name))
    + Report(!BeValidName(req.name), NameInappropriate)
    + Report(!BeUniqueName(env.products, req.name, req.brand), NameNotUnique)
  }

  function BrandFailures(req: CreateProductProfileRequest): (r: seq<string>)
    ensures r == [] <==> !IsBlank(req.brand) && 2 <= |req.brand| <= 100 && IsMatch(req.brand, BrandPatternA)
  {
    Report(IsBlank(req.brand), BrandEmpty)
    + Report(|req.brand| < 2 || |req.brand| > 100, LengthMessage(BrandLengthPrefix, req.brand))
    + Report(!IsMatch(req.brand, BrandPatternA), BrandInvalid)
  }

  function SkuFailures(req: CreateProductProfileRequest, env: Env): (r: seq<string>)
    ensures r == [] <==> !IsBlank(req.sku) && BeValidSku(req.sku) && BeUniqueSku(env.products, req.sku)
  {
    Report(IsBlank(req.sku), SkuEmpty)
    + Report(!BeValidSku(req.sku), SkuInvalid)
    + Report(!BeUniqueSku(env.products, req.sku), SkuNotUnique)
  }

  function CategoryFailures(req: CreateProductProfileRequest): (r: seq<string>)
    ensures r == [] <==> !req.category.Undeclared?
  {
    Report(!IsDeclared(req.category), CategoryInvalid)
  }

  function PriceFailures(req: CreateProductProfileRequest): (r: seq<string>)
    ensures r == [] <==> 0 < req.price < 1_000_000
    ensures |r| <= 1
  {
    Report(req.price <= 0, PriceNotPositive) + Report(req.price >= 1_000_000, PriceTooHigh)
  }

  function ReleaseFailures(req: CreateProductProfileRequest, env: Env): (r: seq<string>)
    ensures r == [] <==> Jan1st1900 <= req.releaseDate <= env.now
  {
    Report(req.releaseDate < Jan1st1900, ReleaseTooEarly) + Report(req.releaseDate > env.now, ReleaseInFuture)
  }

  function StockFailures(req: CreateProductProfileRequest): (r: seq<string>)
    ensures r == [] <==> 0 <= req.stockQuantity <= 100_000
    ensures |r| <= 1
  {
    Report(req.stockQuantity < 0, StockNegative) + Report(req.stockQuantity > 100_000, StockTooHigh)
  }

  function ImageUrlFailures(req: CreateProductProfileRequest): (r: seq<string>)
    ensures r == [] <==> BeValidImageUrl(req.imageUrl)
    ensures req.imageUrl.None? || IsBlank(req.imageUrl.value) ==> r == []
  {
    Report(req.imageUrl.Some? && !IsBlank(req.imageUrl.value) && !BeValidImageUrl(req.imageUrl), ImageUrlInvalid)
  }

  function BusinessFailures(req: CreateProductProfileRequest, env: Env): (r: seq<string>)
    ensures r == [] <==> PassBusinessRules(req, env)
  {
    Report(!PassBusinessRules(req, env), BusinessRulesFailed)
  }

  function ElectronicsFailures(req: CreateProductProfileRequest, env: Env): (r: seq<string>)
    ensures req.category != Electronics ==> r == []
    ensures r == [] <==> req.category != Electronics
                         || (req.price >= 5000 && req.releaseDate >= env.fiveYearsAgo && ContainTechnologyKeywords(req.name))
  {
    if req.category == Electronics then
      Report(req.price < 5000, ElectronicsPriceTooLow)
      + Report(req.releaseDate < env.fiveYearsAgo, ElectronicsTooOld)
      + Report(!ContainTechnologyKeywords(req.name), ElectronicsNoKeyword)
    else []
  }

  function HomeFailures(req: CreateProductProfileRequest): (r: seq<string>)
    ensures req.category != Home ==> r == []
    ensures r == [] <==> req.category != Home || (req.price <= 20000 && BeAppropriateForHome(req.name))
  {
    if req.category == Home then
      Report(req.price > 20000, HomePriceTooHigh) + Report(!BeAppropriateForHome(req.name), HomeNameInappropriate)
    else []
  }

  function ClothingFailures(req: CreateProductProfileRequest): (r: seq<string>)
    ensures req.category != Clothing ==> r == []
    ensures r == [] <==> req.category != Clothing || |req.brand| >= 3
  {
    if req.category == Clothing then Report(|req.brand| < 3, ClothingBrandTooShort) else []
  }

  function CrossFieldFailures(req: CreateProductProfileRequest): (r: seq<string>)
    ensures r == [] <==> !(req.price > 10000 && req.stockQuantity > 20)
  {
    Report(!CheapOrLimitedStock(req), ExpensiveStockTooHigh)
  }

  function FieldFailures(req: CreateProductProfileRequest, env: Env): seq<string> {
    NameFailures(req, env) + BrandFailures(req) + SkuFailures(req, env) + CategoryFailures(req)
    + PriceFailures(req) + ReleaseFailures(req, env) + StockFailures(req) + ImageUrlFailures(req)
  }

  function ConditionalFailures(req: CreateProductProfileRequest, env: Env): seq<string> {
    ElectronicsFailures(req, env) + HomeFailures(req) + ClothingFailures(req) + CrossFieldFailures(req)
  }

  /** The messages the validator reports, in order, written out group by group. */
  function ExpectedFailures(req: CreateProductProfileRequest, env: Env): seq<string> {
    FieldFailures(req, env) + BusinessFailures(req, env) + ConditionalFailures(req, env)
  }

  lemma NameRulesReport(req: CreateProductProfileRequest, env: Env)
    ensures Failures(NameRules, req, env, Holds) == NameFailures(req, env)
  {
    FailuresOfFour(NameRules, req, env, Holds);
  }

  lemma BrandRulesReport(req: CreateProductProfileRequest, env: Env)
    ensures Failures(BrandRules, req, env, Holds) == BrandFailures(req)
  {
    FailuresOfThree(BrandRules, req, env, Holds);
  }

  lemma SkuRulesReport(req: CreateProductProfileRequest, env: Env)
    ensures Failures(SkuRules, req, env, Holds) == SkuFailures(req, env)
  {
    var r0, r1, r2 := SkuRules[0], SkuRules[1], SkuRules[2];
    assert r0 == Rule(Standard(NotEmpty(SkuField)), Always, Fixed(SkuEmpty));
    assert r1 == Rule(ValidSku, Always, Fixed(SkuInvalid));
    assert r2 == Rule(UniqueSku, Always, Fixed(SkuNotUnique));
    assert Fails(r0, req, env, Holds) == IsBlank(req.sku);
    assert Fails(r1, req, env, Holds) == !BeValidSku(req.sku);
    assert Fails(r2, req, env, Holds) == !BeUniqueSku(env.products, req.sku);
    FailuresOfThree(SkuRules, req, env, Holds);
  }

  lemma CategoryRulesReport(req: CreateProductProfileRequest, env: Env)
    ensures Failures(CategoryRules, req, env, Holds) == CategoryFailures(req)
  {
    FailuresOfOne(CategoryRules, req, env, Holds);
  }

  lemma PriceRulesReport(req: CreateProductProfileRequest, env: Env)
    ensures Failures(PriceRules, req, env, Holds) == PriceFailures(req)
  {
    FailuresOfTwo(PriceRules, req, env, Holds);
  }

  lemma ReleaseRulesReport(req: CreateProductProfileRequest, env: Env)
    ensures Failures(ReleaseRules, req, env, Holds) == ReleaseFailures(req, env)
  {
    FailuresOfTwo(ReleaseRules, req, env, Holds);
  }

  lemma StockRulesReport(req: CreateProductProfileRequest, env: Env)
    ensures Failures(StockRules, req, env, Holds) == StockFailures(req)
  {
    FailuresOfTwo(StockRules, req, env, Holds);
  }

  lemma ImageUrlRulesReport(req: CreateProductProfileRequest, env: Env)
    ensures Failures(ImageUrlRules, req, env, Holds) == ImageUrlFailures(req)
  {
    FailuresOfOne(ImageUrlRules, req, env, Holds);
  }

  lemma BusinessRulesReport(req: CreateProductProfileRequest, env: Env)
    ensures Failures(BusinessRuleSet, req, env, Holds) == BusinessFailures(req, env)
  {
    FailuresOfOne(BusinessRuleSet, req, env, Holds);
  }

  lemma ElectronicsRulesReport(req: CreateProductProfileRequest, env: Env)
    ensures Failures(ElectronicsRules, req, env, Holds) == ElectronicsFailures(req, env)
  {
    FailuresOfThree(ElectronicsRules, req, env, Holds);
  }

  lemma HomeRulesReport(req: CreateProductProfileRequest, env: Env)
    ensures Failures(HomeRules, req, env, Holds) == HomeFailures(req)
  {
    FailuresOfTwo(HomeRules, req, env, Holds);
  }

  lemma ClothingRulesReport(req: CreateProductProfileRequest, env: Env)
    ensures Failures(ClothingRules, req, env, Holds) == ClothingFailures(req)
  {
    FailuresOfOne(ClothingRules, req, env, Holds);
  }

  lemma CrossFieldRulesReport(req: CreateProductProfileRequest, env: Env)
    ensures Failures(CrossFieldRules, req, env, Holds) == CrossFieldFailures(req)
  {
    FailuresOfOne(CrossFieldRules, req, env, Holds);
  }

  lemma FieldRulesReport(req: CreateProductProfileRequest, env: Env)
    ensures Failures(FieldRules, req, env, Holds) == FieldFailures(req, env)
  {
    var g1 := NameRules;
    var g2 := g1 + BrandRules;
    var g3 := g2 + SkuRules;
    var g4 := g3 + CategoryRules;
    var g5 := g4 + PriceRules;
    var g6 := g5 + ReleaseRules;
    var g7 := g6 + StockRules;
    assert FieldRules == g7 + ImageUrlRules;
    FailuresAppend(g1, BrandRules, req, env, Holds);
    FailuresAppend(g2, SkuRules, req, env, Holds);
    FailuresAppend(g3, CategoryRules, req, env, Holds);
    FailuresAppend(g4, PriceRules, req, env, Holds);
    FailuresAppend(g5, ReleaseRules, req, env, Holds);
    FailuresAppend(g6, StockRules, req, env, Holds);
    FailuresAppend(g7, ImageUrlRules, req, env, Holds);
    NameRulesReport(req, env);
    BrandRulesReport(req, env);
    SkuRulesReport(req, env);
    CategoryRulesReport(req, env);
    PriceRulesReport(req, env);
    ReleaseRulesReport(req, env);
    StockRulesReport(req, env);
    ImageUrlRulesReport(req, env);
  }

  lemma ConditionalRulesReport(req: CreateProductProfileRequest, env: Env)
    ensures Failures(ConditionalRules, req, env, Holds) == ConditionalFailures(req, env)
  {
    var g1 := ElectronicsRules;
    var g2 := g1 + HomeRules;
    var g3 := g2 + ClothingRules;
    assert ConditionalRules == g3 + CrossFieldRules;
    FailuresAppend(g1, HomeRules, req, env, Holds);
    FailuresAppend(g2, ClothingRules, req, env, Holds);
    FailuresAppend(g3, CrossFieldRules, req, env, Holds);
    ElectronicsRulesReport(req, env);
    HomeRulesReport(req, env);
    ClothingRulesReport(req, env);
    CrossFieldRulesReport(req, env);
  }

  /** The registered rules report exactly the expected messages, in order. */
  lemma RegisteredRulesReport(req: CreateProductProfileRequest, env: Env)
    ensures Failures(RegisteredRules, req, env, Holds) == ExpectedFailures(req, env)
  {
    FailuresAppend(FieldRules, BusinessRuleSet, req, env, Holds);
    FailuresAppend(FieldRules + BusinessRuleSet, ConditionalRules, req, env, Holds);
    FieldRulesReport(req, env);
    BusinessRulesReport(req, env);
    ConditionalRulesReport(req, env);
  }

  /** Everything the registered rules demand of a request, stated directly on
      its fields. */
  predicate Accepts(req: CreateProductProfileRequest, env: Env) {
    && !IsBlank(req.name) && |req.name| <= 200 && BeValidName(req.name)
    && BeUniqueName(env.products, req.name, req.brand)
    && !IsBlank(req.brand) && 2 <= |req.brand| <= 100 && IsMatch(req.brand, BrandPatternA)
    && !IsBlank(req.sku) && BeValidSku(req.sku) && BeUniqueSku(env.products, req.sku)
    && IsDeclared(req.category)
    && 0 < req.price < 1_000_000
    && Jan1st1900 <= req.releaseDate <= env.now
    && 0 <= req.stockQuantity <= 100_000
    && BeValidImageUrl(req.imageUrl)
    && PassBusinessRules(req, env)
    && (req.category == Electronics ==>
          req.price >= 5000 && req.releaseDate >= env.fiveYearsAgo && ContainTechnologyKeywords(req.name))
    && (req.category == Home ==> req.price <= 20000 && BeAppropriateForHome(req.name))
    && (req.category == Clothing ==> |req.brand| >= 3)
    && (req.price <= 10000 || req.stockQuantity <= 20)
  }

  /** The validator reports nothing exactly when every rule holds. */
  lemma ExpectedFailuresEmptyIff(req: CreateProductProfileRequest, env: Env)
    ensures ExpectedFailures(req, env) == [] <==> Accepts(req, env)
  {
  }

  /** `BeValidName` fails exactly when one of the three words occurs, ignoring case. */
  lemma BeValidNameMeaning(name: string)
    ensures !BeValidName(name) <==>
      ContainsIgnoreCase(name, "badword1") || ContainsIgnoreCase(name, "badword2")
      || ContainsIgnoreCase(name, "offensive")
  {
    assert InappropriateWords[0] == "badword1" && InappropriateWords[1] == "badword2"
        && InappropriateWords[2] == "offensive";
  }

  /** `BeValidSKU`: the SKU with its spaces removed is a run of 5 to 20 ASCII
      letters, digits and hyphens (a final newline being tolerated by `$`). */
  lemma BeValidSkuMeaning(sku: string)
    ensures var t := StripSpaces(sku);
      BeValidSku(sku) <==>
        (5 <= |t| <= 20 && forall i :: 0 <= i < |t| ==> IsSkuChar(t[i]))
        || (6 <= |t| <= 21 && t[|t| - 1] == '\n' && forall i :: 0 <= i < |t| - 1 ==> IsSkuChar(t[i]))
  {
    SkuPatternAMeaning(StripSpaces(sku));
  }

  /** Inserting a space anywhere in a SKU never changes the format verdict. */
  lemma SkuSpacesIgnored(a: string, b: string)
    ensures BeValidSku(a + " " + b) <==> BeValidSku(a + b)
  {
    InsertedSpaceIsStripped(a, b);
  }

  /** The uniqueness check compares the raw SKU while the format check strips
      spaces: when no stored SKU holds a space, a stored SKU with a space
      inserted passes both the format and the uniqueness rule. */
  lemma SpacedDuplicateSkuPasses(products: seq<Product>, a: string, b: string)
    requires forall i :: 0 <= i < |products| ==> ' ' !in products[i].sku
    requires SkuTaken(products, a + b) && BeValidSku(a + b)
    ensures BeValidSku(a + " " + b) && BeUniqueSku(products, a + " " + b)
  {
    InsertedSpaceIsStripped(a, b);
    assert (a + " " + b)[|a|] == ' ';
  }

  /** `PassBusinessRules` holds exactly when none of its five checks fires; the
      order of the early returns does not matter. */
  lemma PassBusinessRulesIff(req: CreateProductProfileRequest, env: Env)
    ensures PassBusinessRules(req, env) <==>
      && CountCreatedOn(env.products, DayOf(env.now)) <= 500
      && !(req.category == Electronics && req.price < 5000)
      && !(req.category == Home && !BeValidName(req.name))
      && !(req.price > 50000 && req.stockQuantity > 10)
      && !(req.category == Electronics && req.releaseDate < env.fiveYearsAgo)
  {
  }

  /** No group but the business rule can produce "Business rules failed.". */
  lemma BusinessMessageNotInNameRules(req: CreateProductProfileRequest, env: Env)
    ensures BusinessRulesFailed !in NameFailures(req, env)
  {
    assert |LengthMessage(NameLengthPrefix, req.name)| > |BusinessRulesFailed|;
  }

  lemma BusinessMessageNotInBrandRules(req: CreateProductProfileRequest)
    ensures BusinessRulesFailed !in BrandFailures(req)
  {
    assert |LengthMessage(BrandLengthPrefix, req.brand)| > |BusinessRulesFailed|;
  }

  lemma BusinessMessageNotInSkuRules(req: CreateProductProfileRequest, env: Env)
    ensures BusinessRulesFailed !in SkuFailures(req, env)
  {
  }

  lemma BusinessMessageNotInCategoryRules(req: CreateProductProfileRequest, env: Env)
    ensures BusinessRulesFailed !in CategoryFailures(req)
  {
  }

  lemma BusinessMessageNotInPriceRules(req: CreateProductProfileRequest, env: Env)
    ensures BusinessRulesFailed !in PriceFailures(req)
  {
  }

  lemma BusinessMessageNotInReleaseRules(req: CreateProductProfileRequest, env: Env)
    ensures BusinessRulesFailed !in ReleaseFailures(req, env)
  {
  }

  lemma BusinessMessageNotInStockRules(req: CreateProductProfileRequest, env: Env)
    ensures BusinessRulesFailed !in StockFailures(req)
  {
  }

  lemma BusinessMessageNotInImageUrlRules(req: CreateProductProfileRequest, env: Env)
    ensures BusinessRulesFailed !in ImageUrlFailures(req)
  {
  }

  lemma BusinessMessageNotInElectronicsRules(req: CreateProductProfileRequest, env: Env)
    ensures BusinessRulesFailed !in ElectronicsFailures(req, env)
  {
  }

  lemma BusinessMessageNotInHomeRules(req: CreateProductProfileRequest, env: Env)
    ensures BusinessRulesFailed !in HomeFailures(req)
  {
  }

  lemma BusinessMessageNotInClothingRules(req: CreateProductProfileRequest, env: Env)
    ensures BusinessRulesFailed !in ClothingFailures(req)
  {
  }

  lemma BusinessMessageNotInCrossFieldRules(req: CreateProductProfileRequest, env: Env)
    ensures BusinessRulesFailed !in CrossFieldFailures(req)
  {
  }

  lemma BusinessMessageOnlyFromBusinessRule(req: CreateProductProfileRequest, env: Env)
    ensures BusinessRulesFailed !in FieldFailures(req, env)
    ensures BusinessRulesFailed !in ConditionalFailures(req, env)
  {
    BusinessMessageNotInNameRules(req, env);
    BusinessMessageNotInBrandRules(req);
    BusinessMessageNotInSkuRules(req, env);
    BusinessMessageNotInCategoryRules(req, env);
    BusinessMessageNotInPriceRules(req, env);
    BusinessMessageNotInReleaseRules(req, env);
    BusinessMessageNotInStockRules(req, env);
    BusinessMessageNotInImageUrlRules(req, env);
    BusinessMessageNotInElectronicsRules(req, env);
    BusinessMessageNotInHomeRules(req, env);
    BusinessMessageNotInClothingRules(req, env);
    BusinessMessageNotInCrossFieldRules(req, env);
  }

  /** Whatever else fails, "Business rules failed." is reported once when the
      business rules fail and never otherwise. */
  lemma BusinessMessageOnce(req: CreateProductProfileRequest, env: Env)
    ensures multiset(ExpectedFailures(req, env))[BusinessRulesFailed] == if PassBusinessRules(req, env) then 0 else 1
  {
    BusinessMessageOnlyFromBusinessRule(req, env);
    CountInMiddle(FieldFailures(req, env), BusinessFailures(req, env), ConditionalFailures(req, env), BusinessRulesFailed);
  }

  /** A cheap Electronics product is reported twice: by the business rules and
      by the Electronics price rule. */
  lemma CheapElectronicsReportedTwice(req: CreateProductProfileRequest, env: Env)
    requires req.category == Electronics && req.price < 5000
    ensures BusinessRulesFailed in ExpectedFailures(req, env)
    ensures ElectronicsPriceTooLow in ExpectedFailures(req, env)
  {
    BusinessMessageOnce(req, env);
    var electronics := ElectronicsFailures(req, env);
    assert electronics[0] == ElectronicsPriceTooLow;
    assert ElectronicsPriceTooLow in electronics;
  }

  /** The cross-field rule at its boundary: $100.00 with 21 units passes,
      $100.01 with 21 units fails. */
  lemma CrossFieldBoundary(req: CreateProductProfileRequest)
    requires req.stockQuantity == 21
    ensures req.price == 10000 ==> CheapOrLimitedStock(req)
    ensures req.price == 10001 ==> !CheapOrLimitedStock(req)
  {
  }

  /** The validator object: it reads the products table it was given each time
      it runs. */
  class CreateProductProfileValidator {
    const context: ProductStore

    constructor(context: ProductStore)
      ensures this.context == context
    {
      this.context := context;
    }

    /** `ValidateAsync` at instant `now`, with `fiveYearsAgo` the value of
        `DateTime.UtcNow.AddYears(-5)` at that instant. */
    method ValidateAsync(req: CreateProductProfileRequest, now: Ticks, fiveYearsAgo: Ticks) returns (errors: seq<string>)
      ensures errors == ExpectedFailures(req, Env(context.products, now, fiveYearsAgo))
      ensures errors == [] <==> Accepts(req, Env(context.products, now, fiveYearsAgo))
    {
      var env := Env(context.products, now, fiveYearsAgo);
      errors := Validate(RegisteredRules, req, env, Holds);
      RegisteredRulesReport(req, env);
      ExpectedFailuresEmptyIff(req, env);
    }
  }
}
