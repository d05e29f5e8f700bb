/** `ProductManagementContext`: the products table, and the queries the
    validators and handlers run against it. */
module Persistence {
  import opened Domain

  /** The `DbContext`, reduced to its `Products` set in insertion order. The
      create handler and the validator it is given share one instance. */
  class ProductStore {
    var products: seq<Product>

    constructor(initial: seq<Product>)
      ensures products == initial
    {
      products := initial;
    }
  }

  /** `Products.AnyAsync(p => p.SKU == sku)`. */
  predicate SkuTaken(products: seq<Product>, sku: string) {
    exists i :: 0 <= i < |products| && products[i].sku == sku
  }

  /** `Products.AnyAsync(p => p.Name == name && p.Brand == brand)`. */
  predicate NameBrandTaken(products: seq<Product>, name: string, brand: string) {
    exists i :: 0 <= i < |products| && products[i].name == name && products[i].brand == brand
  }

  /** `Products.CountAsync(p => p.CreatedAt.Date == today)`, for the day number
      of today's date. */
  function CountCreatedOn(products: seq<Product>, day: nat): (n: nat)
    ensures n <= |products|
    ensures n == 0 <==> forall i :: 0 <= i < |products| ==> DayOf(products[i].createdAt) != day
    ensures n == |products| <==> forall i :: 0 <= i < |products| ==> DayOf(products[i].createdAt) == day
  {
    if products == [] then 0
    else
      var init := products[..|products| - 1];
      CountCreatedOn(init, day) + (if DayOf(products[|products| - 1].createdAt) == day then 1 else 0)
  }

  /** The positions of the products created on `day`. */
  function CreatedOnPositions(products: seq<Product>, day: nat): set<nat> {
    set i: nat | i < |products| && DayOf(products[i].createdAt) == day
  }

  /** Adding one product at the end adds its position when it was created on
      `day`, and nothing otherwise. */
  lemma CreatedOnPositionsSnoc(products: seq<Product>, day: nat)
    requires products != []
    ensures var n := |products| - 1;
      CreatedOnPositions(products, day)
      == CreatedOnPositions(products[..n], day) + (if DayOf(products[n].createdAt) == day then {n} else {})
  {
    var n := |products| - 1;
    var init := products[..n];
    forall i: nat | i < n ensures products[i] == init[i] { }
  }

  /** `CountCreatedOn` is exactly the number of products created on `day`. */
  lemma {:induction false} CountCreatedOnCounts(products: seq<Product>, day: nat)
    ensures CountCreatedOn(products, day) == |CreatedOnPositions(products, day)|
    decreases |products|
  {
    if products != [] {
      var n := |products| - 1;
      CountCreatedOnCounts(products[..n], day);
      CreatedOnPositionsSnoc(products, day);
      assert n !in CreatedOnPositions(products[..n], day);
    }
  }

  /** No two stored products share a SKU. */
  predicate SkusDistinct(products: seq<Product>) {
    forall i, j :: 0 <= i < j < |products| ==> products[i].sku != products[j].sku
  }

  /** No two stored products share both name and brand. */
  predicate NameBrandPairsDistinct(products: seq<Product>) {
    forall i, j :: 0 <= i < j < |products| ==>
      !(products[i].name == products[j].name && products[i].brand == products[j].brand)
  }

  /** No two stored products share an id. */
  predicate IdsDistinct(products: seq<Product>) {
    forall i, j :: 0 <= i < j < |products| ==> products[i].id != products[j].id
  }

  /** Appending a product whose SKU is not yet taken keeps the SKUs distinct. */
  lemma AppendFreshSku(products: seq<Product>, p: Product)
    requires SkusDistinct(products) && !SkuTaken(products, p.sku)
    ensures SkusDistinct(products + [p])
  {
    var s := products + [p];
    forall i, j | 0 <= i < j < |s| ensures s[i].sku != s[j].sku {
      if j == |products| {
        assert s[i] == products[i];
      } else {
        assert s[i] == products[i] && s[j] == products[j];
      }
    }
  }

  /** Appending a product whose name and brand are not yet taken together keeps
      the name/brand pairs distinct. */
  lemma AppendFreshNameBrand(products: seq<Product>, p: Product)
    requires NameBrandPairsDistinct(products) && !NameBrandTaken(products, p.name, p.brand)
    ensures NameBrandPairsDistinct(products + [p])
  {
    var s := products + [p];
    forall i, j | 0 <= i < j < |s|
      ensures !(s[i].name == s[j].name && s[i].brand == s[j].brand)
    {
      if j == |products| {
        assert s[i] == products[i];
      } else {
        assert s[i] == products[i] && s[j] == products[j];
      }
    }
  }
}
