/** `CreateProductHandler.Handle` (Features/Products/CreateProduct): validate
    the request, re-check the SKU against the store, insert the mapped
    product, map it back to a DTO and answer `Created`; one metrics record is
    logged on every path. */
module CreateHandling {
  import opened Text
  import opened Wrappers
  import opened Domain
  import opened Persistence
  import opened RuleSet
  import opened Mapping
  import A = ProfileValidatorA

  /** A `Stopwatch` reading: the clock is not modelled, only whether the
      duration is `TimeSpan.Zero` or a measured one. */
  datatype Duration = Zero | Measured

  /** `ProductCreationMetrics`, the record the handler logs once per call. */
  datatype ProductCreationMetrics = ProductCreationMetrics(
    operationId: string,
    productName: string,
    sku: string,
    category: ProductCategory,
    validationDuration: Duration,
    databaseSaveDuration: Duration,
    totalDuration: Duration,
    success: bool,
    errorReason: Option<string>)

  /** What a call ends with: `Results.Created(location, dto)`, or FluentValidation's
      `ValidationException` thrown with the failure messages, or thrown with
      the duplicate-SKU message alone. */
  datatype CreateOutcome =
    | Created(location: string, body: ProductProfileDto)
    | ValidationFailed(errors: seq<string>)
    | DuplicateSku(message: string)

  function DuplicateSkuMessage(sku: string): string {
    "A product with SKU '" + sku + "' already exists."
  }

  /** The outcome, the store after the call and the metrics record logged. */
  datatype Step = Step(outcome: CreateOutcome, products: seq<Product>, metrics: ProductCreationMetrics)

  /** One call of `Handle`, given the validator's messages `errors` and the
      store `products` the re-check and the insert see. `newId` is the fresh
      `Guid` of the product, `now` the current time and `operationId` the
      first eight characters of a fresh `Guid`. */
  function CreateStep(request: CreateProductProfileRequest, errors: seq<string>, products: seq<Product>,
                      operationId: string, newId: Guid, now: Ticks): (s: Step)
    ensures s.outcome.Created? <==> errors == [] && !SkuTaken(products, request.sku)
    ensures s.outcome.ValidationFailed? <==> errors != []
    ensures !s.outcome.Created? ==>
      s.products == products && !s.metrics.success && s.metrics.databaseSaveDuration == Zero
    ensures s.outcome.ValidationFailed? ==>
      s.outcome.errors == errors && s.metrics.errorReason == Some(Join(", ", errors))
    ensures s.outcome.DuplicateSku? ==>
      s.outcome.message == DuplicateSkuMessage(request.sku) && s.metrics.errorReason == Some(s.outcome.message)
    ensures s.outcome.Created? ==>
      && |s.products| == |products| + 1
      && s.products[..|products|] == products
      && RequestOf(s.products[|products|]) == request
      && s.products[|products|].id == newId
      && s.products[|products|].isAvailable == (request.stockQuantity > 0)
      && s.outcome.location == "/products/" + newId.text
      && s.outcome.body == MapAdvanced(s.products[|products|], now)
      && s.metrics.success && s.metrics.errorReason == None
    ensures s.metrics.operationId == operationId && s.metrics.productName == request.name
      && s.metrics.sku == request.sku && s.metrics.category == request.category
  {
    if errors != [] then
      Step(ValidationFailed(errors), products,
           ProductCreationMetrics(operationId, request.name, request.sku, request.category,
                                  Measured, Zero, Measured, false, Some(Join(", ", errors))))
    else if SkuTaken(products, request.sku) then
      var message := DuplicateSkuMessage(request.sku);
      Step(DuplicateSku(message), products,
           ProductCreationMetrics(operationId, request.name, request.sku, request.category,
                                  Measured, Zero, Measured, false, Some(message)))
    else
      var product := ToProduct(request, newId, now);
      var dto := MapAdvanced(product, now);
      Step(Created("/products/" + dto.id.text, dto), products + [product],
           ProductCreationMetrics(operationId, product.name, product.sku, product.category,
                                  Measured, Measured, Measured, true, None))
  }

  /** The messages variant A of the profile validator reports against `products`. */
  function ValidatorErrors(request: CreateProductProfileRequest, products: seq<Product>,
                           now: Ticks, fiveYearsAgo: Ticks): seq<string> {
    A.ExpectedFailures(request, Env(products, now, fiveYearsAgo))
  }

  /** When the validator reads the same store the handler writes, the request is
      stored exactly when the validator accepts it, and the duplicate-SKU
      re-check never fires: the validator's own `BeUniqueSKU` rule has already
      rejected any SKU the re-check would find. */
  lemma SharedStoreOutcome(request: CreateProductProfileRequest, products: seq<Product>,
                           operationId: string, newId: Guid, now: Ticks, fiveYearsAgo: Ticks)
    ensures var s := CreateStep(request, ValidatorErrors(request, products, now, fiveYearsAgo),
                                products, operationId, newId, now);
      (s.outcome.Created? <==> A.Accepts(request, Env(products, now, fiveYearsAgo)))
      && !s.outcome.DuplicateSku?
  {
    A.ExpectedFailuresEmptyIff(request, Env(products, now, fiveYearsAgo));
  }

  /** A request the validator accepts carries a SKU its store does not hold. */
  lemma AcceptedSkuIsFree(request: CreateProductProfileRequest, products: seq<Product>, now: Ticks, fiveYearsAgo: Ticks)
    requires ValidatorErrors(request, products, now, fiveYearsAgo) == []
    ensures !SkuTaken(products, request.sku)
  {
    A.ExpectedFailuresEmptyIff(request, Env(products, now, fiveYearsAgo));
  }

  /** Whatever the validator says, the re-check keeps the stored SKUs pairwise
      distinct. */
  lemma SkusStayDistinct(request: CreateProductProfileRequest, errors: seq<string>, products: seq<Product>,
                         operationId: string, newId: Guid, now: Ticks)
    requires SkusDistinct(products)
    ensures SkusDistinct(CreateStep(request, errors, products, operationId, newId, now).products)
  {
    var s := CreateStep(request, errors, products, operationId, newId, now);
    if s.outcome.Created? {
      var p := s.products[|products|];
      assert s.products == products + [p];
      AppendFreshSku(products, p);
    }
  }

  /** A stored request is appended, as the mapped product, after the products
      already there. */
  lemma CreatedAppends(request: CreateProductProfileRequest, errors: seq<string>, products: seq<Product>,
                       operationId: string, newId: Guid, now: Ticks)
    requires errors == [] && !SkuTaken(products, request.sku)
    ensures CreateStep(request, errors, products, operationId, newId, now).products
            == products + [ToProduct(request, newId, now)]
  { }

  /** With the validator on the same store, no two stored products share both
      name and brand either, since `BeUniqueName` holds for every stored
      request. */
  lemma NameBrandPairsStayDistinct(request: CreateProductProfileRequest, products: seq<Product>,
                                   operationId: string, newId: Guid, now: Ticks, fiveYearsAgo: Ticks)
    requires NameBrandPairsDistinct(products)
    ensures NameBrandPairsDistinct(CreateStep(request, ValidatorErrors(request, products, now, fiveYearsAgo),
                                              products, operationId, newId, now).products)
  {
    var env := Env(products, now, fiveYearsAgo);
    var errors := A.ExpectedFailures(request, env);
    if errors == [] && !SkuTaken(products, request.sku) {
      A.ExpectedFailuresEmptyIff(request, env);
      CreatedAppends(request, errors, products, operationId, newId, now);
      AppendFreshNameBrand(products, ToProduct(request, newId, now));
    }
  }

  /** With a fresh `Guid`, ids stay distinct. */
  lemma IdsStayDistinct(request: CreateProductProfileRequest, errors: seq<string>, products: seq<Product>,
                        operationId: string, newId: Guid, now: Ticks)
    requires IdsDistinct(products)
    requires forall i :: 0 <= i < |products| ==> products[i].id != newId
    ensures IdsDistinct(CreateStep(request, errors, products, operationId, newId, now).products)
  {
    var s := CreateStep(request, errors, products, operationId, newId, now);
    if s.outcome.Created? {
      assert s.products == products + [s.products[|products|]];
      forall i, j | 0 <= i < j < |s.products| ensures s.products[i].id != s.products[j].id {
        if j == |products| {
          assert s.products[i] == products[i];
        } else {
          assert s.products[i] == products[i] && s.products[j] == products[j];
        }
      }
    }
  }

  /** The handler, with its store and its validator as injected. */
  class CreateProductHandler {
    const context: ProductStore
    const validator: A.CreateProductProfileValidator
    /** The metrics records logged so far, oldest first. */
    var metricsLog: seq<ProductCreationMetrics>

    constructor(context: ProductStore, validator: A.CreateProductProfileValidator)
      ensures this.context == context && this.validator == validator && metricsLog == []
    {
      this.context := context;
      this.validator := validator;
      metricsLog := [];
    }

    /** The validator reads the store the handler writes, as in one request
        scope. */
    predicate SharesStore() {
      validator.context == context
    }

    /** `Handle(request)`, with the fresh ids and the clock passed in. */
    method Handle(request: CreateProductProfileRequest, operationId: string, newId: Guid,
                  now: Ticks, fiveYearsAgo: Ticks) returns (outcome: CreateOutcome)
      modifies this, context
      ensures var s := CreateStep(request, ValidatorErrors(request, old(validator.context.products), now, fiveYearsAgo),
                                  old(context.products), operationId, newId, now);
        outcome == s.outcome && context.products == s.products && metricsLog == old(metricsLog) + [s.metrics]
      ensures SharesStore() ==> !outcome.DuplicateSku?
    {
      ghost var checked := validator.context.products;
      var errors := validator.ValidateAsync(request, now, fiveYearsAgo);
      assert errors == ValidatorErrors(request, checked, now, fiveYearsAgo);
      var products := context.products;
      ghost var s := CreateStep(request, errors, products, operationId, newId, now);
      var record;
      if errors != [] {
        outcome := ValidationFailed(errors);
        record := ProductCreationMetrics(operationId, request.name, request.sku, request.category,
                                         Measured, Zero, Measured, false, Some(Join(", ", errors)));
      } else if SkuTaken(products, request.sku) {
        AcceptedSkuIsFree(request, checked, now, fiveYearsAgo);
        var message := DuplicateSkuMessage(request.sku);
        outcome := DuplicateSku(message);
        record := ProductCreationMetrics(operationId, request.name, request.sku, request.category,
                                         Measured, Zero, Measured, false, Some(message));
      } else {
        var product := ToProduct(request, newId, now);
        products := products + [product];
        var dto := MapAdvanced(product, now);
        outcome := Created("/products/" + dto.id.text, dto);
        record := ProductCreationMetrics(operationId, product.name, product.sku, product.category,
                                         Measured, Measured, Measured, true, None);
      }
      assert s == Step(outcome, products, record);
      assert s == CreateStep(request, ValidatorErrors(request, old(validator.context.products), now, fiveYearsAgo),
                             old(context.products), operationId, newId, now);
      // The handler and its store are separate objects: writing one leaves the other.
      assert (this as object) != (context as object);
      context.products := products;
      metricsLog := metricsLog + [record];
    }
  }
}
