/** The part of FluentValidation's `AbstractValidator` the product validators
    rely on: rules registered in order (`RuleFor(...)` chains and `When`
    blocks), each check with its own message, every rule evaluated (the default
    `CascadeMode.Continue`), and one failure message collected per failing
    check, in registration order. A request is valid when nothing is collected.

    The checks themselves belong to each validator: a rule list is generic in
    its check type `C`, and the validator supplies the function that decides
    whether a check holds. */
module RuleSet {
  import opened Text
  import opened Wrappers
  import opened Domain
  import opened Regex

  /** What a check may consult besides the request: the products table, the
      clock (`DateTime.UtcNow`) and the clock moved back five years
      (`DateTime.UtcNow.AddYears(-5)`), all read when the validator runs. */
  datatype Env = Env(products: seq<Product>, now: Ticks, fiveYearsAgo: Ticks)

  /** The string properties a rule may be built on. */
  datatype Field = NameField | BrandField | SkuField

  function FieldValue(req: CreateProductProfileRequest, f: Field): string {
    match f
    case NameField => req.name
    case BrandField => req.brand
    case SkuField => req.sku
  }

  /** The built-in property validators of FluentValidation the product
      validators register. Each holds or fails on the request alone. */
  datatype BuiltIn =
    | NotEmpty(field: Field)                  // `NotEmpty()` on a string
    | Length(field: Field, min: nat, max: nat) // `Length(min, max)`
    | MinimumLength(field: Field, min: nat)    // `MinimumLength(min)`
    | Matches(field: Field, pattern: Pattern)  // `Matches(regex)`
    | CategoryInEnum                           // `IsInEnum()`
    | PriceGreaterThan(bound: Cents)           // `GreaterThan(bound)`
    | PriceLessThan(bound: Cents)              // `LessThan(bound)`
    | PriceAtLeast(bound: Cents)               // `GreaterThanOrEqualTo(bound)`
    | PriceAtMost(bound: Cents)                // `LessThanOrEqualTo(bound)`
    | ReleaseGreaterThan(instant: Ticks)
    | ReleaseLessThan(instant: Ticks)
    | ReleaseAtLeast(instant: Ticks)
    | StockAtLeast(bound: int)
    | StockAtMost(bound: int)

  predicate BuiltInHolds(b: BuiltIn, req: CreateProductProfileRequest) {
    match b
    case NotEmpty(f) => !IsBlank(FieldValue(req, f))
    case Length(f, min, max) => min <= |FieldValue(req, f)| <= max
    case MinimumLength(f, min) => |FieldValue(req, f)| >= min
    case Matches(f, p) => IsMatch(FieldValue(req, f), p)
    case CategoryInEnum => IsDeclared(req.category)
    case PriceGreaterThan(bound) => req.price > bound
    case PriceLessThan(bound) => req.price < bound
    case PriceAtLeast(bound) => req.price >= bound
    case PriceAtMost(bound) => req.price <= bound
    case ReleaseGreaterThan(bound) => req.releaseDate > bound
    case ReleaseLessThan(bound) => req.releaseDate < bound
    case ReleaseAtLeast(bound) => req.releaseDate >= bound
    case StockAtLeast(bound) => req.stockQuantity >= bound
    case StockAtMost(bound) => req.stockQuantity <= bound
  }

  /** The `When(...)` condition a rule was registered under. */
  datatype Condition =
    | Always
    | ImageUrlGiven                        // !string.IsNullOrWhiteSpace(x.ImageUrl)
    | CategoryIs(category: ProductCategory) // x.Category == ProductCategory.<category>

  predicate Applies(when: Condition, req: CreateProductProfileRequest) {
    match when
    case Always => true
    case ImageUrlGiven => req.imageUrl.Some? && !IsBlank(req.imageUrl.value)
    case CategoryIs(c) => req.category == c
  }

  /** A failure message: a `WithMessage` text, or one of FluentValidation's
      default English templates with its placeholders still to fill from the
      request (the length entered, the category value). */
  datatype Message =
    | Fixed(text: string)
    | EnteredLength(prefix: string, field: Field)  // "... You entered {TotalLength} characters."
    | CategoryValue(prefix: string)                // "... does not include '{PropertyValue}'."

  function Render(m: Message, req: CreateProductProfileRequest): string {
    match m
    case Fixed(text) => text
    case EnteredLength(prefix, f) => prefix + NatToString(|FieldValue(req, f)|) + " characters."
    case CategoryValue(prefix) => prefix + CategoryText(req.category) + "'."
  }

  datatype Rule<C> = Rule(check: C, when: Condition, message: Message)

  /** The rule is switched on for this request and its check does not hold. */
  predicate Fails<C>(r: Rule<C>, req: CreateProductProfileRequest, env: Env, holds: (C, CreateProductProfileRequest, Env) -> bool) {
    Applies(r.when, req) && !holds(r.check, req, env)
  }

  /** The message a single check contributes: itself when the check failed,
      nothing otherwise. */
  function Report(failed: bool, message: string): seq<string> {
    if failed then [message] else []
  }

  /** The messages of the failing rules, in registration order. */
  function Failures<C>(rules: seq<Rule<C>>, req: CreateProductProfileRequest, env: Env,
                       holds: (C, CreateProductProfileRequest, Env) -> bool): (errors: seq<string>)
    ensures |errors| <= |rules|
  {
    if rules == [] then []
    else Report(Fails(rules[0], req, env, holds), Render(rules[0].message, req))
         + Failures(rules[1..], req, env, holds)
  }

  /** The failures from rule `i` on: rule `i`'s own report, then the rest. */
  lemma FailuresFrom<C>(rules: seq<Rule<C>>, i: nat, req: CreateProductProfileRequest, env: Env,
                        holds: (C, CreateProductProfileRequest, Env) -> bool)
    requires i < |rules|
    ensures Failures(rules[i..], req, env, holds)
         == Report(Fails(rules[i], req, env, holds), Render(rules[i].message, req)) + Failures(rules[i + 1..], req, env, holds)
  {
    assert rules[i..][0] == rules[i];
    assert rules[i..][1..] == rules[i + 1..];
  }

  /** The failures of short rule lists, rule by rule. */
  lemma FailuresOfOne<C>(rs: seq<Rule<C>>, req: CreateProductProfileRequest, env: Env,
                         holds: (C, CreateProductProfileRequest, Env) -> bool)
    requires |rs| == 1
    ensures Failures(rs, req, env, holds) == Report(Fails(rs[0], req, env, holds), Render(rs[0].message, req))
  {
    assert rs[1..] == [];
  }

  lemma FailuresOfTwo<C>(rs: seq<Rule<C>>, req: CreateProductProfileRequest, env: Env,
                         holds: (C, CreateProductProfileRequest, Env) -> bool)
    requires |rs| == 2
    ensures Failures(rs, req, env, holds)
         == Report(Fails(rs[0], req, env, holds), Render(rs[0].message, req))
          + Report(Fails(rs[1], req, env, holds), Render(rs[1].message, req))
  {
    FailuresOfOne(rs[1..], req, env, holds);
  }

  lemma FailuresOfThree<C>(rs: seq<Rule<C>>, req: CreateProductProfileRequest, env: Env,
                           holds: (C, CreateProductProfileRequest, Env) -> bool)
    requires |rs| == 3
    ensures Failures(rs, req, env, holds)
         == Report(Fails(rs[0], req, env, holds), Render(rs[0].message, req))
          + Report(Fails(rs[1], req, env, holds), Render(rs[1].message, req))
          + Report(Fails(rs[2], req, env, holds), Render(rs[2].message, req))
  {
    FailuresOfTwo(rs[1..], req, env, holds);
  }

  lemma FailuresOfFour<C>(rs: seq<Rule<C>>, req: CreateProductProfileRequest, env: Env,
                          holds: (C, CreateProductProfileRequest, Env) -> bool)
    requires |rs| == 4
    ensures Failures(rs, req, env, holds)
         == Report(Fails(rs[0], req, env, holds), Render(rs[0].message, req))
          + Report(Fails(rs[1], req, env, holds), Render(rs[1].message, req))
          + Report(Fails(rs[2], req, env, holds), Render(rs[2].message, req))
          + Report(Fails(rs[3], req, env, holds), Render(rs[3].message, req))
  {
    FailuresOfThree(rs[1..], req, env, holds);
  }

  /** The failures of two rule lists registered one after the other. */
  lemma {:induction false} FailuresAppend<C>(r1: seq<Rule<C>>, r2: seq<Rule<C>>, req: CreateProductProfileRequest,
                                           env: Env, holds: (C, CreateProductProfileRequest, Env) -> bool)
    ensures Failures(r1 + r2, req, env, holds) == Failures(r1, req, env, holds) + Failures(r2, req, env, holds)
  {
    if r1 != [] {
      assert (r1 + r2)[0] == r1[0];
      assert (r1 + r2)[1..] == r1[1..] + r2;
      FailuresAppend(r1[1..], r2, req, env, holds);
    } else {
      assert r1 + r2 == r2;
    }
  }

  /** A request passes exactly when every rule that applies to it holds. */
  lemma {:induction false} FailuresEmptyIff<C>(rules: seq<Rule<C>>, req: CreateProductProfileRequest, env: Env,
                                             holds: (C, CreateProductProfileRequest, Env) -> bool)
    ensures Failures(rules, req, env, holds) == [] <==> forall k :: 0 <= k < |rules| ==> !Fails(rules[k], req, env, holds)
  {
    if rules != [] {
      FailuresEmptyIff(rules[1..], req, env, holds);
      assert forall k :: 1 <= k < |rules| ==> rules[k] == rules[1..][k - 1];
    }
  }

  /** Every failing rule contributes its message. */
  lemma {:induction false} FailingRuleReported<C>(rules: seq<Rule<C>>, k: nat, req: CreateProductProfileRequest, env: Env,
                                                holds: (C, CreateProductProfileRequest, Env) -> bool)
    requires k < |rules| && Fails(rules[k], req, env, holds)
    ensures Render(rules[k].message, req) in Failures(rules, req, env, holds)
  {
    if k > 0 {
      assert rules[1..][k - 1] == rules[k];
      FailingRuleReported(rules[1..], k - 1, req, env, holds);
    }
  }

  /** Every collected message is the message of some failing rule. */
  lemma {:induction false} ReportedFromFailingRule<C>(rules: seq<Rule<C>>, m: string, req: CreateProductProfileRequest, env: Env,
                                                    holds: (C, CreateProductProfileRequest, Env) -> bool)
    requires m in Failures(rules, req, env, holds)
    ensures exists k :: 0 <= k < |rules| && Fails(rules[k], req, env, holds) && Render(rules[k].message, req) == m
  {
    var head := Report(Fails(rules[0], req, env, holds), Render(rules[0].message, req));
    if m in head {
      assert Fails(rules[0], req, env, holds) && Render(rules[0].message, req) == m;
    } else {
      ReportedFromFailingRule(rules[1..], m, req, env, holds);
      var k :| 0 <= k < |rules[1..]| && Fails(rules[1..][k], req, env, holds) && Render(rules[1..][k].message, req) == m;
      assert rules[1..][k] == rules[k + 1];
    }
  }

  /** A group of rules none of which applies to the request reports nothing. */
  lemma {:induction false} SwitchedOffRulesSilent<C>(rules: seq<Rule<C>>, req: CreateProductProfileRequest, env: Env,
                                                   holds: (C, CreateProductProfileRequest, Env) -> bool)
    requires forall k :: 0 <= k < |rules| ==> !Applies(rules[k].when, req)
    ensures Failures(rules, req, env, holds) == []
  {
    if rules != [] {
      assert forall k :: 0 <= k < |rules[1..]| ==> rules[1..][k] == rules[k + 1];
      SwitchedOffRulesSilent(rules[1..], req, env, holds);
    }
  }

  /** A message that no rule of the list can render is never reported. */
  lemma NeverReported<C>(rules: seq<Rule<C>>, m: string, req: CreateProductProfileRequest, env: Env,
                         holds: (C, CreateProductProfileRequest, Env) -> bool)
    requires forall k :: 0 <= k < |rules| ==> Render(rules[k].message, req) != m
    ensures m !in Failures(rules, req, env, holds)
  {
    if m in Failures(rules, req, env, holds) {
      ReportedFromFailingRule(rules, m, req, env, holds);
    }
  }

  /** `ValidateAsync`: every registered rule is visited in order and the message
      of each failing one is appended to the error list. */
  method Validate<C>(rules: seq<Rule<C>>, req: CreateProductProfileRequest, env: Env,
                     holds: (C, CreateProductProfileRequest, Env) -> bool) returns (errors: seq<string>)
    ensures errors == Failures(rules, req, env, holds)
  {
    errors := [];
    var i := 0;
    while i < |rules|
      invariant 0 <= i <= |rules|
      invariant errors + Failures(rules[i..], req, env, holds) == Failures(rules, req, env, holds)
    {
      var r := rules[i];
      FailuresFrom(rules, i, req, env, holds);
      ghost var before := errors;
      ghost var report := Report(Fails(r, req, env, holds), Render(r.message, req));
      AppendAssociates(before, report, Failures(rules[i + 1..], req, env, holds));
      if Applies(r.when, req) && !holds(r.check, req, env) {
        errors := errors + [Render(r.message, req)];
      } else {
        assert before + report == before;
      }
      assert errors == before + report;
      i := i + 1;
    }
    assert rules[i..] == [];
  }
}
