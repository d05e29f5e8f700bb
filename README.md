# Product creation in `lab4product`, modelled in Dafny

This project models the product-creation slice of the `ProductManagementt` web
API (`lab4product`) and proves properties about it:

- **The two `CreateProductProfileValidator` variants.** They are declared in
  `Validators/CreateProductProfileValidator.cs` (variant A, the one the create
  handler is wired with) and `Validators/CreateProductProfileRequestValidator.cs`
  (variant B). Each is modelled as a FluentValidation rule list, run by a loop
  that collects one message per failing rule in registration order. Each
  variant's result is proved equal to a rule-by-rule written-out list of its
  messages, and proved empty exactly when every rule holds. The helper
  predicates (`BeValidName`, `BeValidSKU`, `BeUniqueSKU`, `BeValidImageUrl`,
  `PassBusinessRules`, and so on) are pure predicates over the request and the
  products table.
- **The smaller validators.** These are `CreateProductValidator` (six
  `NotEmpty` rules) and the three data-annotation attributes `ValidSKU`,
  `PriceRange` and `ProductCategory`.
- **The AutoMapper profiles.** These are `AdvancedProductMappingProfile`
  (request to `Product`, and `Product` to `ProductProfileDto` with the Home
  discount and image suppression) and the plain `ProductMapping`. The
  resolvers they use are also modelled: product age in both of its forms,
  brand initials and availability status.
- **`CreateProductHandler.Handle`.** This is a class holding the products table
  it writes, the validator it runs, and the log of `ProductCreationMetrics`
  records. `Handle` validates, re-checks the SKU, inserts, maps and answers.
  It is proved against a specification function `CreateStep` that gives the
  outcome, the new table and the one metrics record for every call.
- **`DeleteProductHandler.Handle`.** This is a find-and-remove on the products
  table.
- **The custom `ValidationException`.** Its `Errors` list and `Message`
  (the messages joined with "; ") are modelled.

## Two declarations of one type

Two files declare `ProductManagementt.Validators.CreateProductProfileValidator`:
`Validators/CreateProductProfileValidator.cs` and
`Validators/CreateProductProfileRequestValidator.cs`. Two files also declare
`ProductManagementt.Features.Mapping.Resolvers.ProductAgeResolver`:
`Common/Mapping/Resolvers/ProductAgeResolver.cs` and
`Features/Mapping/Resolvers/ProductAgeResolver.cs`. The two versions of each
differ, and only one of each can be in a build. The model keeps both. The
validators are the modules `ProfileValidatorA` and `ProfileValidatorB`. The
two resolvers are `Resolvers.ProductAge` and `Resolvers.AgeLabelFromDouble`,
proved to agree in `Resolvers.ResolversAgree`.

## Units

- **Amounts.** A `decimal` amount is an integer count of hundredths
  (`Cents`: 300.00 is 30000).
- **Instants.** A `DateTime` is its tick count (`Ticks`). `.Date` is the day
  number, ticks divided by 864 000 000 000.
- **Clock readings.** `DateTime.UtcNow` and `DateTime.UtcNow.AddYears(-5)` are
  parameters. Variant A reads them each time it validates. Variant B reads
  them once, in its constructor, for the release-date rules, and again at
  validation time for the daily count.
- **One instant per call.** `CreateProductHandler.Handle` takes a single `now`.
  The source reads `DateTime.UtcNow` separately in the validator, when it
  sets `CreatedAt`, and in `ProductAgeResolver`. Near a day boundary those
  readings can fall on different days. The age label the source gives can
  then differ from the model's.
- **Fresh values.** The fresh `Guid`s are parameters.

## Text and patterns

- **Strings.** Strings are `seq<char>`, whose elements are Unicode scalar
  values rather than UTF-16 code units (see "## Left out").
- **White space.** `char.IsWhiteSpace` and the regex class `\s` are the exact
  .NET set.
- **Word characters and case.** `\w` and `OrdinalIgnoreCase` are restricted to
  ASCII.
- **Regex anchors.** The anchored regular expressions are modelled with .NET's
  `$`, which also matches just before a final newline.

## Decisions visible in the model

- **Duplicate-SKU branch.** The handler's validator and the handler share one
  `ProductManagementContext` in a request scope. With a shared table the
  duplicate-SKU re-check can never fire (`CreateHandling.SharedStoreOutcome`).
  The class still lets the two tables differ, so the branch is modelled and
  reachable.
- **Exception types.** The handler throws FluentValidation's
  `ValidationException` (its file imports `FluentValidation`, not the custom
  exception namespace). Its outcomes are therefore `ValidationFailed(messages)`
  and `DuplicateSku(message)`. The custom exception is modelled on its own in
  `ValidationErrors`.
- **`FormattedPrice`.** `FormattedPrice` is computed from the stored price. For
  a Home product it therefore shows the undiscounted amount, next to the
  discounted `Price` (`Mapping.HomeFormattedPriceUndiscounted`).
- **Mapping profile.** `CreateStep` maps with `MapAdvanced`, not `MapPlain`.
  `Program.cs` registers no mapper. Both integration-test fixtures add
  `AdvancedProductMappingProfile` after `ProductMapping`, and the later map
  of the same type pair is the one used. The Home test agrees: it expects
  270.00 and a null image.
- **Daily limit.** The daily-limit business rule fails only when more than 500
  products were created today. A 501st product of the day is therefore still
  accepted.

## Model

| member | source | states |
|---|---|---|
| RuleSet.Failures | lab4product/ProductManagementt/ProductManagementt/Validators/CreateProductProfileValidator.cs:22-94 | FluentValidation with `CascadeMode.Continue` reports at most one message per registered rule |
| RuleSet.Validate | lab4product/ProductManagementt/ProductManagementt/Validators/CreateProductProfileValidator.cs:22-94 | running the rules one by one and appending each failing rule's message yields exactly the failure list of the rule set |
| RuleSet.FailuresAppend | lab4product/ProductManagementt/ProductManagementt/Validators/CreateProductProfileValidator.cs:22-94 | rules registered one group after another report the first group's messages followed by the second's |
| RuleSet.FailuresEmptyIff | lab4product/ProductManagementt/ProductManagementt/Validators/CreateProductProfileValidator.cs:22-94 | a request is valid (no messages) iff no applicable rule fails |
| RuleSet.FailingRuleReported | lab4product/ProductManagementt/ProductManagementt/Validators/CreateProductProfileValidator.cs:22-94 | every applicable failing rule contributes its message |
| RuleSet.ReportedFromFailingRule | lab4product/ProductManagementt/ProductManagementt/Validators/CreateProductProfileValidator.cs:22-94 | every reported message comes from some applicable failing rule |
| RuleSet.SwitchedOffRulesSilent | lab4product/ProductManagementt/ProductManagementt/Validators/CreateProductProfileValidator.cs:72-90 | rules registered under a `When` that does not hold add no message |
| RuleSet.NeverReported | lab4product/ProductManagementt/ProductManagementt/Validators/CreateProductProfileValidator.cs:22-94 | a text that no rule of the list renders is never reported |
| ProfileValidatorA.NameFailures | lab4product/ProductManagementt/ProductManagementt/Validators/CreateProductProfileValidator.cs:23-27 | the name rules are silent iff the name is not blank, has at most 200 characters, has no inappropriate word and is not already used with this brand |
| ProfileValidatorA.BrandFailures | lab4product/ProductManagementt/ProductManagementt/Validators/CreateProductProfileValidator.cs:30-33 | the brand rules are silent iff the brand is not blank, has 2 to 100 characters and matches the brand pattern |
| ProfileValidatorA.SkuFailures | lab4product/ProductManagementt/ProductManagementt/Validators/CreateProductProfileValidator.cs:36-39 | the SKU rules are silent iff the SKU is not blank, is well formed after removing spaces and is not stored verbatim |
| ProfileValidatorA.CategoryFailures | lab4product/ProductManagementt/ProductManagementt/Validators/CreateProductProfileValidator.cs:42-43 | the category rule is silent iff the category is a declared enum member |
| ProfileValidatorA.PriceFailures | lab4product/ProductManagementt/ProductManagementt/Validators/CreateProductProfileValidator.cs:46-48 | the price rules are silent iff 0 < price < 10000.00, and report at most one message |
| ProfileValidatorA.ReleaseFailures | lab4product/ProductManagementt/ProductManagementt/Validators/CreateProductProfileValidator.cs:51-53 | the release rules are silent iff 1900-01-01 <= release <= now, both bounds inclusive |
| ProfileValidatorA.StockFailures | lab4product/ProductManagementt/ProductManagementt/Validators/CreateProductProfileValidator.cs:56-58 | the stock rules are silent iff 0 <= stock <= 100000, and report at most one message |
| ProfileValidatorA.ImageUrlFailures | lab4product/ProductManagementt/ProductManagementt/Validators/CreateProductProfileValidator.cs:61-62 | the image rule is silent iff `BeValidImageUrl` holds; a missing or blank URL is never reported |
| ProfileValidatorA.BusinessFailures | lab4product/ProductManagementt/ProductManagementt/Validators/CreateProductProfileValidator.cs:66-68 | the business rule is silent iff `PassBusinessRules` holds |
| ProfileValidatorA.ElectronicsFailures | lab4product/ProductManagementt/ProductManagementt/Validators/CreateProductProfileValidator.cs:72-77 | the Electronics rules report only for Electronics, and are silent iff price >= 50, release within five years and a tech keyword occurs |
| ProfileValidatorA.HomeFailures | lab4product/ProductManagementt/ProductManagementt/Validators/CreateProductProfileValidator.cs:79-83 | the Home rules report only for Home, and are silent iff price <= 200 and the name is appropriate |
| ProfileValidatorA.ClothingFailures | lab4product/ProductManagementt/ProductManagementt/Validators/CreateProductProfileValidator.cs:85-90 | the Clothing rule reports only for Clothing, and is silent iff the brand has at least 3 characters |
| ProfileValidatorA.CrossFieldFailures | lab4product/ProductManagementt/ProductManagementt/Validators/CreateProductProfileValidator.cs:92-94 | the cross-field rule fails iff price > 100 and stock > 20 |
| ProfileValidatorA.NameRulesReport | lab4product/ProductManagementt/ProductManagementt/Validators/CreateProductProfileValidator.cs:23-27 | the registered name rules report exactly the name group's messages, in order |
| ProfileValidatorA.BrandRulesReport | lab4product/ProductManagementt/ProductManagementt/Validators/CreateProductProfileValidator.cs:30-33 | the registered brand rules report exactly the brand group's messages |
| ProfileValidatorA.SkuRulesReport | lab4product/ProductManagementt/ProductManagementt/Validators/CreateProductProfileValidator.cs:36-39 | the registered SKU rules report exactly the SKU group's messages |
| ProfileValidatorA.CategoryRulesReport | lab4product/ProductManagementt/ProductManagementt/Validators/CreateProductProfileValidator.cs:42-43 | the registered category rule reports exactly the category group's message |
| ProfileValidatorA.PriceRulesReport | lab4product/ProductManagementt/ProductManagementt/Validators/CreateProductProfileValidator.cs:46-48 | the registered price rules report exactly the price group's messages |
| ProfileValidatorA.ReleaseRulesReport | lab4product/ProductManagementt/ProductManagementt/Validators/CreateProductProfileValidator.cs:51-53 | the registered release rules report exactly the release group's messages |
| ProfileValidatorA.StockRulesReport | lab4product/ProductManagementt/ProductManagementt/Validators/CreateProductProfileValidator.cs:56-58 | the registered stock rules report exactly the stock group's messages |
| ProfileValidatorA.ImageUrlRulesReport | lab4product/ProductManagementt/ProductManagementt/Validators/CreateProductProfileValidator.cs:61-62 | the image rule under its `When` reports exactly the image group's message |
| ProfileValidatorA.BusinessRulesReport | lab4product/ProductManagementt/ProductManagementt/Validators/CreateProductProfileValidator.cs:66-68 | the registered business rule reports exactly the business group's message |
| ProfileValidatorA.ElectronicsRulesReport | lab4product/ProductManagementt/ProductManagementt/Validators/CreateProductProfileValidator.cs:72-77 | the Electronics `When` block reports exactly the Electronics group's messages |
| ProfileValidatorA.HomeRulesReport | lab4product/ProductManagementt/ProductManagementt/Validators/CreateProductProfileValidator.cs:79-83 | the Home `When` block reports exactly the Home group's messages |
| ProfileValidatorA.ClothingRulesReport | lab4product/ProductManagementt/ProductManagementt/Validators/CreateProductProfileValidator.cs:85-90 | the Clothing `When` block reports exactly the Clothing group's message |
| ProfileValidatorA.CrossFieldRulesReport | lab4product/ProductManagementt/ProductManagementt/Validators/CreateProductProfileValidator.cs:92-94 | the cross-field rule reports exactly the cross-field group's message |
| ProfileValidatorA.FieldRulesReport | lab4product/ProductManagementt/ProductManagementt/Validators/CreateProductProfileValidator.cs:22-62 | the per-property rules report the eight groups' messages in declaration order |
| ProfileValidatorA.ConditionalRulesReport | lab4product/ProductManagementt/ProductManagementt/Validators/CreateProductProfileValidator.cs:72-94 | the three `When` blocks and the final rule report their groups' messages in order |
| ProfileValidatorA.RegisteredRulesReport | lab4product/ProductManagementt/ProductManagementt/Validators/CreateProductProfileValidator.cs:17-95 | all rules the constructor registers report exactly the group-by-group message list |
| ProfileValidatorA.ExpectedFailuresEmptyIff | lab4product/ProductManagementt/ProductManagementt/Validators/CreateProductProfileValidator.cs:22-94 | the validator reports nothing iff every registered rule holds, stated field by field |
| ProfileValidatorA.BeValidNameMeaning | lab4product/ProductManagementt/ProductManagementt/Validators/CreateProductProfileValidator.cs:97-98 | `BeValidName` fails iff "badword1", "badword2" or "offensive" occurs, ignoring case |
| ProfileValidatorA.BeValidSkuMeaning | lab4product/ProductManagementt/ProductManagementt/Validators/CreateProductProfileValidator.cs:108-112 | `BeValidSKU` holds iff the SKU without spaces is 5 to 20 letters, digits and hyphens, optionally followed by one newline |
| ProfileValidatorA.SkuSpacesIgnored | lab4product/ProductManagementt/ProductManagementt/Validators/CreateProductProfileValidator.cs:110-111 | inserting a space anywhere never changes the `BeValidSKU` verdict |
| ProfileValidatorA.SpacedDuplicateSkuPasses | lab4product/ProductManagementt/ProductManagementt/Validators/CreateProductProfileValidator.cs:108-119 | a stored SKU with a space inserted passes both the format rule and the raw-text uniqueness rule |
| ProfileValidatorA.PassBusinessRulesIff | lab4product/ProductManagementt/ProductManagementt/Validators/CreateProductProfileValidator.cs:130-168 | the early-return chain holds iff none of its five checks fires: daily count over 500, cheap Electronics, inappropriate Home name, price > 500 with stock > 10, Electronics older than five years |
| ProfileValidatorA.BusinessMessageOnlyFromBusinessRule | lab4product/ProductManagementt/ProductManagementt/Validators/CreateProductProfileValidator.cs:66-68 | no rule other than the business rule can produce "Business rules failed." |
| ProfileValidatorA.BusinessMessageOnce | lab4product/ProductManagementt/ProductManagementt/Validators/CreateProductProfileValidator.cs:66-68 | "Business rules failed." is reported exactly once when the business rules fail and never otherwise, however many checks fire |
| ProfileValidatorA.CheapElectronicsReportedTwice | lab4product/ProductManagementt/ProductManagementt/Validators/CreateProductProfileValidator.cs:66-74 | an Electronics product under $50 is reported both by the business rule and by the Electronics price rule |
| ProfileValidatorA.CrossFieldBoundary | lab4product/ProductManagementt/ProductManagementt/Validators/CreateProductProfileValidator.cs:92-94 | with 21 units, $100.00 passes the cross-field rule and $100.01 fails it |
| ProfileValidatorA.CreateProductProfileValidator.constructor | lab4product/ProductManagementt/ProductManagementt/Validators/CreateProductProfileValidator.cs:17-20 | the validator keeps the products table it is given |
| ProfileValidatorA.CreateProductProfileValidator.ValidateAsync | lab4product/ProductManagementt/ProductManagementt/Validators/CreateProductProfileValidator.cs:22-94 | validating returns the registered rules' messages in order, and nothing iff every rule holds against the current table and clock |
| ProfileValidatorB.NameFailures | lab4product/ProductManagementt/ProductManagementt/Validators/CreateProductProfileRequestValidator.cs:24-28 | the name rules are silent iff the name is not blank, has no inappropriate word, has at most 200 characters and is unused with this brand |
| ProfileValidatorB.BrandFailures | lab4product/ProductManagementt/ProductManagementt/Validators/CreateProductProfileRequestValidator.cs:30-33 | the brand rules are silent iff the brand is not blank, has 2 to 100 characters and passes `BeValidBrandName` |
| ProfileValidatorB.SkuFailures | lab4product/ProductManagementt/ProductManagementt/Validators/CreateProductProfileRequestValidator.cs:35-38 | the SKU rules are silent iff the SKU is not blank, well formed and not stored verbatim |
| ProfileValidatorB.CategoryFailures | lab4product/ProductManagementt/ProductManagementt/Validators/CreateProductProfileRequestValidator.cs:40-41 | the category rule is silent iff the category is a declared enum member |
| ProfileValidatorB.PriceFailures | lab4product/ProductManagementt/ProductManagementt/Validators/CreateProductProfileRequestValidator.cs:43-44 | the price rules are silent iff 0 < price < 10000.00 |
| ProfileValidatorB.ReleaseFailures | lab4product/ProductManagementt/ProductManagementt/Validators/CreateProductProfileRequestValidator.cs:46-48 | the release rules are silent iff 1900-01-01 < release < the construction instant, both bounds exclusive |
| ProfileValidatorB.StockFailures | lab4product/ProductManagementt/ProductManagementt/Validators/CreateProductProfileRequestValidator.cs:50-52 | the stock rules are silent iff 0 <= stock <= 100000 |
| ProfileValidatorB.ImageUrlFailures | lab4product/ProductManagementt/ProductManagementt/Validators/CreateProductProfileRequestValidator.cs:54-59 | the image rule is skipped for a missing or blank URL, and otherwise silent iff `BeValidImageUrl` holds |
| ProfileValidatorB.BusinessFailures | lab4product/ProductManagementt/ProductManagementt/Validators/CreateProductProfileRequestValidator.cs:61-62 | the business rule is silent iff `PassBusinessRules` holds |
| ProfileValidatorB.ElectronicsFailures | lab4product/ProductManagementt/ProductManagementt/Validators/CreateProductProfileRequestValidator.cs:65-73 | the Electronics rules report only for Electronics, and are silent iff price >= 50, a tech keyword occurs and the release is no earlier than five years before construction |
| ProfileValidatorB.HomeFailures | lab4product/ProductManagementt/ProductManagementt/Validators/CreateProductProfileRequestValidator.cs:75-81 | the Home rules report only for Home, and are silent iff price <= 200 and no restricted word occurs |
| ProfileValidatorB.ClothingFailures | lab4product/ProductManagementt/ProductManagementt/Validators/CreateProductProfileRequestValidator.cs:83-87 | the Clothing rule reports only for Clothing, and is silent iff the brand has at least 3 characters |
| ProfileValidatorB.CrossFieldFailures | lab4product/ProductManagementt/ProductManagementt/Validators/CreateProductProfileRequestValidator.cs:89-90 | the final rule fails iff price > 100 and stock > 20 |
| ProfileValidatorB.NameRulesReport | lab4product/ProductManagementt/ProductManagementt/Validators/CreateProductProfileRequestValidator.cs:24-28 | the registered name rules (uniqueness before content) report exactly the name group's messages |
| ProfileValidatorB.BrandRulesReport | lab4product/ProductManagementt/ProductManagementt/Validators/CreateProductProfileRequestValidator.cs:30-33 | the registered brand rules report exactly the brand group's messages |
| ProfileValidatorB.SkuRulesReport | lab4product/ProductManagementt/ProductManagementt/Validators/CreateProductProfileRequestValidator.cs:35-38 | the registered SKU rules report exactly the SKU group's messages |
| ProfileValidatorB.CategoryRulesReport | lab4product/ProductManagementt/ProductManagementt/Validators/CreateProductProfileRequestValidator.cs:40-41 | the registered category rule reports exactly the category group's message |
| ProfileValidatorB.PriceRulesReport | lab4product/ProductManagementt/ProductManagementt/Validators/CreateProductProfileRequestValidator.cs:43-44 | the registered price rules report exactly the price group's messages |
| ProfileValidatorB.ReleaseRulesReport | lab4product/ProductManagementt/ProductManagementt/Validators/CreateProductProfileRequestValidator.cs:46-48 | the release rules built at construction report exactly the release group's messages |
| ProfileValidatorB.StockRulesReport | lab4product/ProductManagementt/ProductManagementt/Validators/CreateProductProfileRequestValidator.cs:50-52 | the registered stock rules report exactly the stock group's messages |
| ProfileValidatorB.ImageUrlRulesReport | lab4product/ProductManagementt/ProductManagementt/Validators/CreateProductProfileRequestValidator.cs:54-59 | the image rule under its `When` reports exactly the image group's message |
| ProfileValidatorB.BusinessRulesReport | lab4product/ProductManagementt/ProductManagementt/Validators/CreateProductProfileRequestValidator.cs:61-62 | the registered business rule reports exactly the business group's message |
| ProfileValidatorB.ElectronicsRulesReport | lab4product/ProductManagementt/ProductManagementt/Validators/CreateProductProfileRequestValidator.cs:65-73 | the Electronics `When` block reports exactly the Electronics group's messages, in its own order |
| ProfileValidatorB.HomeRulesReport | lab4product/ProductManagementt/ProductManagementt/Validators/CreateProductProfileRequestValidator.cs:75-81 | the Home `When` block reports exactly the Home group's messages |
| ProfileValidatorB.ClothingRulesReport | lab4product/ProductManagementt/ProductManagementt/Validators/CreateProductProfileRequestValidator.cs:83-87 | the Clothing `When` block reports exactly the Clothing group's message |
| ProfileValidatorB.CrossFieldRulesReport | lab4product/ProductManagementt/ProductManagementt/Validators/CreateProductProfileRequestValidator.cs:89-90 | the final rule reports exactly the cross-field group's message |
| ProfileValidatorB.FieldRulesReport | lab4product/ProductManagementt/ProductManagementt/Validators/CreateProductProfileRequestValidator.cs:24-59 | the per-property rules report the eight groups' messages in declaration order |
| ProfileValidatorB.ConditionalRulesReport | lab4product/ProductManagementt/ProductManagementt/Validators/CreateProductProfileRequestValidator.cs:65-90 | the three `When` blocks and the final rule report their groups' messages in order |
| ProfileValidatorB.RegisteredRulesReport | lab4product/ProductManagementt/ProductManagementt/Validators/CreateProductProfileRequestValidator.cs:19-91 | all rules the constructor registers report exactly the group-by-group message list |
| ProfileValidatorB.ExpectedFailuresEmptyIff | lab4product/ProductManagementt/ProductManagementt/Validators/CreateProductProfileRequestValidator.cs:24-90 | the validator reports nothing iff every registered rule holds, stated field by field |
| ProfileValidatorB.BeValidNameMeaning | lab4product/ProductManagementt/ProductManagementt/Validators/CreateProductProfileRequestValidator.cs:93-97 | `BeValidName` fails iff the name is blank or contains "badword1", "badword2" or "inappropriate", ignoring case |
| ProfileValidatorB.BlankNameReportedTwice | lab4product/ProductManagementt/ProductManagementt/Validators/CreateProductProfileRequestValidator.cs:24-28 | a blank name is reported first as empty and again as inappropriate |
| ProfileValidatorB.BeValidBrandNameMeaning | lab4product/ProductManagementt/ProductManagementt/Validators/CreateProductProfileRequestValidator.cs:107-110 | a brand is accepted iff it is non-empty and every character is a word character, white space, '-', '\'' or '.' |
| ProfileValidatorB.BeValidSkuAgrees | lab4product/ProductManagementt/ProductManagementt/Validators/CreateProductProfileRequestValidator.cs:112-116 | this variant's `BeValidSKU` agrees with variant A's on every string |
| ProfileValidatorB.PassBusinessRulesIff | lab4product/ProductManagementt/ProductManagementt/Validators/CreateProductProfileRequestValidator.cs:134-158 | the early-return chain holds iff none of its four checks fires; its Home check uses the restricted words |
| ProfileValidatorB.PassBusinessRulesIgnoresRelease | lab4product/ProductManagementt/ProductManagementt/Validators/CreateProductProfileRequestValidator.cs:134-158 | this variant's business rules never look at the release date |
| ProfileValidatorB.LimitedStockAgrees | lab4product/ProductManagementt/ProductManagementt/Validators/CreateProductProfileRequestValidator.cs:170-174 | `LimitedStockForExpensiveProduct` is equivalent to variant A's final rule |
| ProfileValidatorB.ClockReadOnlyForToday | lab4product/ProductManagementt/ProductManagementt/Validators/CreateProductProfileRequestValidator.cs:46-48 | the clock at validation time matters only through today's date; the release rules use the instants read at construction |
| ProfileValidatorB.CreateProductProfileValidator.constructor | lab4product/ProductManagementt/ProductManagementt/Validators/CreateProductProfileRequestValidator.cs:19-22 | the validator keeps its table and the two instants read while its rules are registered |
| ProfileValidatorB.CreateProductProfileValidator.ValidateAsync | lab4product/ProductManagementt/ProductManagementt/Validators/CreateProductProfileRequestValidator.cs:24-90 | validating returns the registered rules' messages in order, and nothing iff every rule holds |
| Regex.SkuPatternAMeaning | lab4product/ProductManagementt/ProductManagementt/Validators/CreateProductProfileValidator.cs:111 | `^[a-zA-Z0-9\-]{5,20}$` accepts exactly 5 to 20 letters, digits and hyphens, or those followed by one final newline |
| Regex.SkuPatternsAgree | lab4product/ProductManagementt/ProductManagementt/Validators/CreateProductProfileRequestValidator.cs:115 | the two spellings of the SKU pattern accept the same strings |
| Regex.BrandPatternAMeaning | lab4product/ProductManagementt/ProductManagementt/Validators/CreateProductProfileValidator.cs:33 | variant A's brand pattern accepts exactly non-empty strings of ASCII letters, digits, white space, '-', '\'' and '.' |
| Regex.BrandPatternBMeaning | lab4product/ProductManagementt/ProductManagementt/Validators/CreateProductProfileRequestValidator.cs:109 | variant B's brand pattern accepts exactly non-empty strings of word characters, white space, '-', '\'' and '.' |
| Regex.TrailingNewlineAccepted | lab4product/ProductManagementt/ProductManagementt/Validators/CreateProductProfileValidator.cs:111 | a valid SKU followed by a newline is still accepted, although the newline is not in the class |
| Text.StripSpaces | lab4product/ProductManagementt/ProductManagementt/Validators/CreateProductProfileValidator.cs:110 | `Replace(" ", "")` leaves no space, removes nothing but spaces and keeps every other character |
| Text.InsertedSpaceIsStripped | lab4product/ProductManagementt/ProductManagementt/Validators/CreateProductProfileValidator.cs:110 | inserting a space anywhere does not change the stripped string |
| Text.NatToString | lab4product/ProductManagementt/ProductManagementt/Common/Mapping/Resolvers/ProductAgeResolver.cs:29 | the interpolated count is a non-empty run of decimal digits |
| Text.DigitsRoundTrip | lab4product/ProductManagementt/ProductManagementt/Common/Mapping/Resolvers/ProductAgeResolver.cs:29 | reading the digits back gives the number printed |
| Text.Join | lab4product/ProductManagementt/ProductManagementt/Exceptions/ValidationException.cs:10 | `string.Join` of nothing is "", of one item is that item, and its length is the items' lengths plus one separator between neighbours |
| Text.JoinContainsEach | lab4product/ProductManagementt/ProductManagementt/Exceptions/ValidationException.cs:10 | every joined item occurs in the joined string |
| Domain.DateOf | lab4product/ProductManagementt/ProductManagementt/Common/Mapping/Resolvers/ProductAgeResolver.cs:10-11 | `.Date` is the midnight at or before the instant, on the same day |
| Persistence.ProductStore.constructor | lab4product/ProductManagementt/ProductManagementt/Persistance/ProductManagementContext.cs:6-8 | the table starts with the products given |
| Persistence.CountCreatedOn | lab4product/ProductManagementt/ProductManagementt/Validators/CreateProductProfileValidator.cs:133 | the count of products created on a day is 0 iff none was, and the table size iff all were |
| Persistence.CountCreatedOnCounts | lab4product/ProductManagementt/ProductManagementt/Validators/CreateProductProfileValidator.cs:133 | the count is exactly the number of stored products whose creation date is the day |
| Persistence.AppendFreshSku | lab4product/ProductManagementt/ProductManagementt/Features/Products/CreateProduct/CreateProductHandler.cs:74-108 | adding a product whose SKU is not stored keeps SKUs pairwise distinct |
| Persistence.AppendFreshNameBrand | lab4product/ProductManagementt/ProductManagementt/Validators/CreateProductProfileValidator.cs:100-106 | adding a product whose name and brand are not stored together keeps name/brand pairs distinct |
| CreateProductValidation.Validate | lab4product/ProductManagementt/ProductManagementt/Validators/CreateProductValidator.cs:10-15 | each "... is required" message appears iff its property is blank or default, and the request is valid iff all six are present |
| CreateProductValidation.UncheckedFieldsIgnored | lab4product/ProductManagementt/ProductManagementt/Validators/CreateProductValidator.cs:8-16 | stock, image URL, id, creation time and availability never affect the messages |
| CreateProductValidation.AllMissingInOrder | lab4product/ProductManagementt/ProductManagementt/Validators/CreateProductValidator.cs:10-15 | with everything missing, the six messages come in declaration order |
| Attributes.ValidSkuIsValid | lab4product/ProductManagementt/ProductManagementt/Validators/Attributes/ValidSKUAttribute.cs:9-14 | null is valid; any other value is valid iff its text is non-null and passes the SKU format check |
| Attributes.ValidSkuAgreesWithValidators | lab4product/ProductManagementt/ProductManagementt/Validators/Attributes/ValidSKUAttribute.cs:12-13 | on strings the attribute agrees with both validators' `BeValidSKU` |
| Attributes.ValidSkuSpacesIgnored | lab4product/ProductManagementt/ProductManagementt/Validators/Attributes/ValidSKUAttribute.cs:12 | inserting a space never changes the attribute's verdict |
| Attributes.ValidSkuNullText | lab4product/ProductManagementt/ProductManagementt/Validators/Attributes/ValidSKUAttribute.cs:12-13 | an object whose `ToString()` is null is invalid |
| Attributes.PriceRangeIsValid | lab4product/ProductManagementt/ProductManagementt/Validators/Attributes/PriceRangeAttribute.cs:13-14 | valid iff the value is a decimal with min <= amount <= max; with min > max nothing is valid |
| Attributes.PriceRangeWithinAccepted | lab4product/ProductManagementt/ProductManagementt/Validators/Attributes/PriceRangeAttribute.cs:14 | every decimal from min to max, both bounds included, is accepted |
| Attributes.PriceRangeOutsideRejected | lab4product/ProductManagementt/ProductManagementt/Validators/Attributes/PriceRangeAttribute.cs:14 | every decimal below min or above max is rejected |
| Attributes.PriceRangeNonDecimalRejected | lab4product/ProductManagementt/ProductManagementt/Validators/Attributes/PriceRangeAttribute.cs:14 | a value that is not a decimal is rejected |
| Attributes.CategoryIsValid | lab4product/ProductManagementt/ProductManagementt/Validators/Attributes/ProductCategoryAttribute.cs:15-16 | valid iff the value is a category in the allowed list; an empty list rejects everything |
| Attributes.CategoryVerdictDependsOnSetOnly | lab4product/ProductManagementt/ProductManagementt/Validators/Attributes/ProductCategoryAttribute.cs:16 | two allowed lists with the same members (any order, any duplicates) give the same verdict |
| ValidationErrors.Messages | lab4product/ProductManagementt/ProductManagementt/Exceptions/ValidationException.cs:12 | the selected messages keep the failures' order and count |
| ValidationErrors.FromFailures | lab4product/ProductManagementt/ProductManagementt/Exceptions/ValidationException.cs:9-13 | `Errors` lists each failure's message in order, `Message` is them joined with "; ", and no failures give "" and an empty list |
| ValidationErrors.FromMessage | lab4product/ProductManagementt/ProductManagementt/Exceptions/ValidationException.cs:15 | the string constructor keeps the message and leaves `Errors` null |
| ValidationErrors.EachMessageInMessage | lab4product/ProductManagementt/ProductManagementt/Exceptions/ValidationException.cs:10 | every failure's message occurs verbatim in `Message` |
| ValidationErrors.SingleFailureMessage | lab4product/ProductManagementt/ProductManagementt/Exceptions/ValidationException.cs:10 | one failure gives exactly its message |
| ValidationErrors.MessageLength | lab4product/ProductManagementt/ProductManagementt/Exceptions/ValidationException.cs:10 | `Message` is as long as the messages plus two characters per separator |
| ValidationErrors.PropertyNamesIgnored | lab4product/ProductManagementt/ProductManagementt/Exceptions/ValidationException.cs:10-12 | property names of the failures play no part in the exception |
| Resolvers.AgeLabel | lab4product/ProductManagementt/ProductManagementt/Common/Mapping/Resolvers/ProductAgeResolver.cs:16-39 | under 30 days (negative included) is "New Release"; 30..364 is the month form with n in 1..12; 365..1824 the year form with n in 1..4; from 1825 "Classic" |
| Resolvers.TruncatedQuotient | lab4product/ProductManagementt/ProductManagementt/Features/Mapping/Resolvers/ProductAgeResolver.cs:26 | truncating the real quotient of whole days equals integer division |
| Resolvers.AgeLabelFromDouble | lab4product/ProductManagementt/ProductManagementt/Features/Mapping/Resolvers/ProductAgeResolver.cs:10-37 | the if-chain over a `double` day count gives the same label as the switch form for every whole-day difference |
| Resolvers.ProductAge | lab4product/ProductManagementt/ProductManagementt/Common/Mapping/Resolvers/ProductAgeResolver.cs:10-40 | a product released today or later is "New Release" |
| Resolvers.ResolversAgree | lab4product/ProductManagementt/ProductManagementt/Features/Mapping/Resolvers/ProductAgeResolver.cs:10-11 | the two age resolvers agree on every product and every instant |
| Resolvers.AgeIgnoresTimeOfDay | lab4product/ProductManagementt/ProductManagementt/Common/Mapping/Resolvers/ProductAgeResolver.cs:10-11 | two instants of the same day give the same age |
| Resolvers.AgeBoundaries | lab4product/ProductManagementt/ProductManagementt/Common/Mapping/Resolvers/ProductAgeResolver.cs:21-39 | 29, 30, 364, 365, 1824 and 1825 days give "New Release", "1 month old", "12 months old", "1 year old", "4 years old" and "Classic" |
| Resolvers.Words | lab4product/ProductManagementt/ProductManagementt/Common/Mapping/Resolvers/BrandInitialsResolver.cs:15-18 | splitting on ' ' and dropping blank parts leaves only non-empty parts |
| Resolvers.WordsAppend | lab4product/ProductManagementt/ProductManagementt/Common/Mapping/Resolvers/BrandInitialsResolver.cs:15-18 | the parts of two texts joined by a space are the parts of the first followed by those of the second |
| Resolvers.WordsOfSpaceless | lab4product/ProductManagementt/ProductManagementt/Common/Mapping/Resolvers/BrandInitialsResolver.cs:15-18 | a text without spaces is one part, or none when blank |
| Resolvers.NonBlankHasWord | lab4product/ProductManagementt/ProductManagementt/Common/Mapping/Resolvers/BrandInitialsResolver.cs:20-23 | a brand that is not blank has at least one part, so the no-parts branch cannot be taken |
| Resolvers.BrandInitials | lab4product/ProductManagementt/ProductManagementt/Common/Mapping/Resolvers/BrandInitialsResolver.cs:10-33 | a blank brand gives "?"; any other brand gives one or two characters |
| Resolvers.BrandInitialsOfWords | lab4product/ProductManagementt/ProductManagementt/Common/Mapping/Resolvers/BrandInitialsResolver.cs:25-33 | the initials are the upper-cased first letter of the first part, then that of the last part iff there are two or more parts |
| Resolvers.TwoWordInitials | lab4product/ProductManagementt/ProductManagementt/Common/Mapping/Resolvers/BrandInitialsResolver.cs:30-33 | two words give their two upper-cased first letters |
| Resolvers.MiddleWordsIgnored | lab4product/ProductManagementt/ProductManagementt/Common/Mapping/Resolvers/BrandInitialsResolver.cs:30-33 | words between the first and the last do not change the initials |
| Resolvers.SamsungElectronicsInitials | lab4product/ProductManagementt/ProductManagementt/Common/Mapping/Resolvers/BrandInitialsResolver.cs:30-33 | "Samsung Electronics" gives "SE" |
| Resolvers.AvailabilityStatus | lab4product/ProductManagementt/ProductManagementt/Common/Mapping/Resolvers/AvailabilityStatusResolver.cs:10-30 | not available gives "Out of Stock"; otherwise stock <= 0, 1, 2..5 and >= 6 give "Unavailable", "Last Item", "Limited Stock" and "In Stock" (each iff), and nothing else is returned |
| Resolvers.NeverUnavailableWhenFlagFollowsStock | lab4product/ProductManagementt/ProductManagementt/Common/Mapping/Resolvers/AvailabilityStatusResolver.cs:10-20 | when availability means stock above zero, "Unavailable" is never returned |
| Resolvers.LimitedStockExamples | lab4product/ProductManagementt/ProductManagementt/Common/Mapping/Resolvers/AvailabilityStatusResolver.cs:25-26 | stocks 3 and 5 are both "Limited Stock" |
| Mapping.HomePrice | lab4product/ProductManagementt/ProductManagementt/Common/Mapping/AdvancedProductMappingProfile.cs:44-48 | the Home price is within half a cent of 90% of the price, and even on an exact tie (round half to even) |
| Mapping.HomePriceUnique | lab4product/ProductManagementt/ProductManagementt/Common/Mapping/AdvancedProductMappingProfile.cs:47 | any amount meeting those two conditions is the Home price |
| Mapping.HomePriceBounds | lab4product/ProductManagementt/ProductManagementt/Common/Mapping/AdvancedProductMappingProfile.cs:44-48 | for a non-negative price the Home price is between 0 and the price |
| Mapping.HomePriceExample | lab4product/ProductManagementt/ProductManagementt/Common/Mapping/AdvancedProductMappingProfile.cs:47 | 300.00 becomes 270.00 |
| Mapping.ToProduct | lab4product/ProductManagementt/ProductManagementt/Common/Mapping/AdvancedProductMappingProfile.cs:11-26 | the product carries every request field, the fresh id and the current time, and is available iff stock > 0 |
| Mapping.BuiltProductNeverUnavailable | lab4product/ProductManagementt/ProductManagementt/Common/Mapping/AdvancedProductMappingProfile.cs:22 | a product built from a request is never "Unavailable" |
| Mapping.MapAdvanced | lab4product/ProductManagementt/ProductManagementt/Common/Mapping/AdvancedProductMappingProfile.cs:28-54 | direct members copied, derived ones from the resolvers; Home drops the image and shows the discounted price, other categories keep both |
| Mapping.MapPlain | lab4product/ProductManagementt/ProductManagementt/Common/Mapping/ProductMapping.cs:8-29 | every direct member including price and image copied, derived ones from the same resolvers |
| Mapping.ProfilesAgree | lab4product/ProductManagementt/ProductManagementt/Common/Mapping/ProductMapping.cs:8-29 | the two profiles agree outside Home and differ only in price and image for Home |
| Mapping.HomeFormattedPriceUndiscounted | lab4product/ProductManagementt/ProductManagementt/Common/Mapping/AdvancedProductMappingProfile.cs:44-51 | for Home from 0.05 up the formatted price is above the DTO price, as it is taken from the stored price |
| Mapping.HomeExample | lab4product/ProductManagementt/ProductManagementt/Common/Mapping/AdvancedProductMappingProfile.cs:38-48 | a Home product at 300.00 shows 270.00 and no image |
| CreateHandling.CreateStep | lab4product/ProductManagementt/ProductManagementt/Features/Products/CreateProduct/CreateProductHandler.cs:47-142 | created iff no message and SKU free; failures leave the table alone with a failed record, zero DB time and the joined or duplicate reason; success appends one product from the request, answers "/products/{id}" with its DTO and logs success |
| CreateHandling.SharedStoreOutcome | lab4product/ProductManagementt/ProductManagementt/Features/Products/CreateProduct/CreateProductHandler.cs:47-98 | with the validator on the handler's table, a request is stored iff the validator accepts it, and the duplicate-SKU branch never fires |
| CreateHandling.AcceptedSkuIsFree | lab4product/ProductManagementt/ProductManagementt/Features/Products/CreateProduct/CreateProductHandler.cs:74-77 | a request the validator accepts has a SKU its table does not hold |
| CreateHandling.SkusStayDistinct | lab4product/ProductManagementt/ProductManagementt/Features/Products/CreateProduct/CreateProductHandler.cs:74-108 | distinct stored SKUs stay distinct whatever the validator said |
| CreateHandling.NameBrandPairsStayDistinct | lab4product/ProductManagementt/ProductManagementt/Features/Products/CreateProduct/CreateProductHandler.cs:47-108 | with the validator on the same table, distinct name/brand pairs stay distinct |
| CreateHandling.IdsStayDistinct | lab4product/ProductManagementt/ProductManagementt/Features/Products/CreateProduct/CreateProductHandler.cs:106-108 | with a fresh id, stored ids stay distinct |
| CreateHandling.CreateProductHandler.constructor | lab4product/ProductManagementt/ProductManagementt/Features/Products/CreateProduct/CreateProductHandler.cs:10-14 | the handler keeps its table and validator and starts with an empty metrics log |
| CreateHandling.CreateProductHandler.Handle | lab4product/ProductManagementt/ProductManagementt/Features/Products/CreateProduct/CreateProductHandler.cs:16-143 | the outcome and new table are those of `CreateStep`, exactly one metrics record is appended, and on a shared table no duplicate-SKU outcome occurs |
| DeleteHandling.FirstWithId | lab4product/ProductManagementt/ProductManagementt/Features/Products/DeleteProductHandler.cs:10 | the lookup finds nothing iff no product has the id, and otherwise the first product with it |
| DeleteHandling.RemoveAt | lab4product/ProductManagementt/ProductManagementt/Features/Products/DeleteProductHandler.cs:16-17 | removal drops one product and keeps the others in order |
| DeleteHandling.AfterDelete | lab4product/ProductManagementt/ProductManagementt/Features/Products/DeleteProductHandler.cs:10-18 | without the id the table is unchanged; otherwise it loses exactly the first product with that id, the rest kept in order |
| DeleteHandling.DeleteRemovesId | lab4product/ProductManagementt/ProductManagementt/Features/Products/DeleteProductHandler.cs:10-18 | with unique ids, no product with the deleted id remains and ids stay unique |
| DeleteHandling.DeleteKeepsSkusDistinct | lab4product/ProductManagementt/ProductManagementt/Features/Products/DeleteProductHandler.cs:16-17 | deleting keeps distinct SKUs distinct |
| DeleteHandling.DeleteProductHandler.constructor | lab4product/ProductManagementt/ProductManagementt/Features/Products/DeleteProductHandler.cs:6 | the handler keeps the table it is given |
| DeleteHandling.DeleteProductHandler.Handle | lab4product/ProductManagementt/ProductManagementt/Features/Products/DeleteProductHandler.cs:8-19 | the answer is NotFound iff no product had the id, and the table becomes the table after the delete |

## Left out

- **Logging, `BeginScope` and the log events.** These are side output, not
  modelled. Stopwatch durations are reduced to `Zero` or `Measured`.
- **The handler's correlation id.** It is always empty and is used only for
  logging.
- **Asynchrony and cancellation tokens.** Every call is sequential. As a
  result, no other writer touches the table between validation and the SKU
  re-check.
- **HTTP and hosting.** `Program.cs`, the middlewares and response writing are
  not part of this model. Neither is the JSON body of a `Created` result: the
  location and the DTO are modelled.
- **`CategoryDisplayResolver`.** Its source is not part of this model; the
  display name is kept symbolic.
- **`PriceFormatterResolver`.** Its "C2" culture formatting is kept symbolic,
  as the amount it formats.
- **`Uri.TryCreate`.** In variant A's `BeValidImageUrl` it is approximated by a
  case-insensitive "http://" or "https://" prefix.
- **The `double` constructor arguments of `PriceRangeAttribute`.** Their
  conversion to `decimal` is not modelled; the bounds are taken as amounts in
  hundredths.
- **Decimals.** Only two decimal places are modelled. The text a decimal's
  `ToString()` gives is carried with the value.
- **`ValidSKUAttribute.AddValidation`.** It writes client-side HTML attributes
  and is not modelled.
- **`ProductCategory`.** The enum's declaration is not part of this model.
  Members other than Electronics, Home and Clothing are kept abstract, and so
  is the member numbered 0 that `NotEmpty` rejects.
- **Default-message placeholders.** FluentValidation's default messages that
  quote a `DateTime` show its tick count, not its culture-formatted text.
- **The `ValidationException` FluentValidation throws.** Its message text is
  not modelled; the failure messages it carries are.
- **Other handlers and programs.** The older `Features/Products/CreateProductHandler.cs`,
  `GetAllProductsHandler.cs` and `lab2` are not part of this model.
- **`DeleteProductRequest`.** It is not part of this model; the handler takes
  the id directly.
- **Characters outside ASCII.** `\w` and case-insensitive comparison are
  restricted to ASCII.
- **Culture-sensitive `StartsWith` and `EndsWith`.** The source calls the
  one-argument overloads, which compare under the current culture and can
  skip ignorable code points. `Text.StartsWith` and `Text.EndsWith` compare
  ordinally instead. This affects `Domain.HasImageExtension` and the
  "http://" or "https://" prefix test in `ProfileValidatorB.BeValidImageUrl`.
- **Null `Name`, `Brand` and `Sku`.** In the request these are `string`,
  never null. In the source a null reaches the `Must` predicates, because
  rules continue after `NotEmpty` fails. A null name makes every predicate
  that calls `name.Contains` throw `NullReferenceException`. In both variants
  these are `BeValidName` (variant A only; B's guards against null),
  `PassBusinessRules` for a Home request, `ContainTechnologyKeywords` and
  `BeAppropriateForHome`. A null SKU makes both variants' `BeValidSKU` throw
  `NullReferenceException` (`Replace`). A null brand makes variant B's
  `BeValidBrandName` throw `ArgumentNullException` from `Regex.IsMatch`.
  Those exceptions are not modelled.
- **UTF-16 lengths.** `|s|` counts Unicode scalar values, so a character
  outside the Basic Multilingual Plane counts 1 where .NET's `Length` counts
  2. The length rules and the "You entered N characters" text therefore
  differ from the source for such characters. This affects `Length(1, 200)`
  (`ProfileValidatorA.NameFailures`, `ProfileValidatorB.NameFailures`),
  `Length(2, 100)` (`BrandFailures`), `MinimumLength(3)` (`ClothingFailures`)
  and the rendered length message.
- **Table updates.** The table is a value the handlers reassign. EF change
  tracking and `SaveChangesAsync` failures are not modelled.
- **Resolvers.Words.** Its contract states only that every part is non-empty.
  How the parts relate to the text is proved in `Resolvers.WordsAppend` and
  `Resolvers.WordsOfSpaceless`.
- **Resolvers.BrandInitials.** Its contract gives only the length. The letters
  themselves are stated in `Resolvers.BrandInitialsOfWords`. A non-blank brand
  can also give "?" (the brand "?" itself), so the blank case is stated one
  way only.
- **Resolvers.ProductAge.** Its contract states only the "New Release" case.
  The full label is `Resolvers.AgeLabel` of the whole-day difference, and the
  agreement with the other resolver is `Resolvers.ResolversAgree`.
