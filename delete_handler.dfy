/** `DeleteProductHandler.Handle` (Features/Products): look the product up by
    id; answer NotFound when there is none, otherwise remove it from the store
    and answer NoContent. */
module DeleteHandling {
  import opened Wrappers
  import opened Domain
  import opened Persistence

  datatype DeleteOutcome = NotFound | NoContent

  /** `Products.FirstOrDefaultAsync(u => u.Id == id)`, as the position of the
      first product with that id. */
  function FirstWithId(products: seq<Product>, id: Guid): (k: Option<nat>)
    ensures k.None? <==> forall i :: 0 <= i < |products| ==> products[i].id != id
    ensures k.Some? ==>
      k.value < |products| && products[k.value].id == id
      && forall i :: 0 <= i < k.value ==> products[i].id != id
  {
    if products == [] then None
    else if products[0].id == id then Some(0)
    else match FirstWithId(products[1..], id)
      case None => None
      case Some(k) => Some(k + 1)
  }

  /** The store without the product at position `k`, the others in order. */
  function RemoveAt(products: seq<Product>, k: nat): (rest: seq<Product>)
    requires k < |products|
    ensures |rest| == |products| - 1
    ensures forall i :: 0 <= i < k ==> rest[i] == products[i]
    ensures forall i :: k <= i < |rest| ==> rest[i] == products[i + 1]
  {
    products[..k] + products[k + 1..]
  }

  /** The store after a delete of `id`: unchanged when no product has that id,
      otherwise without its first product with that id. */
  function AfterDelete(products: seq<Product>, id: Guid): (rest: seq<Product>)
    ensures (forall i :: 0 <= i < |products| ==> products[i].id != id) ==> rest == products
    ensures (exists i :: 0 <= i < |products| && products[i].id == id) ==>
      |rest| == |products| - 1
      && exists k :: 0 <= k < |products| && products[k].id == id
                     && (forall i :: 0 <= i < k ==> products[i].id != id)
                     && rest == products[..k] + products[k + 1..]
  {
    match FirstWithId(products, id)
    case None => products
    case Some(k) => RemoveAt(products, k)
  }

  /** With ids unique, no product with the deleted id remains, and ids stay
      unique. */
  lemma DeleteRemovesId(products: seq<Product>, id: Guid)
    requires IdsDistinct(products)
    ensures forall i :: 0 <= i < |AfterDelete(products, id)| ==> AfterDelete(products, id)[i].id != id
    ensures IdsDistinct(AfterDelete(products, id))
  {
    var rest := AfterDelete(products, id);
    match FirstWithId(products, id)
    case None =>
    case Some(k) =>
      forall i | 0 <= i < |rest| ensures rest[i].id != id {
        if i < k {
          assert rest[i] == products[i];
        } else {
          assert rest[i] == products[i + 1];
        }
      }
      forall i, j | 0 <= i < j < |rest| ensures rest[i].id != rest[j].id {
        var i0 := if i < k then i else i + 1;
        var j0 := if j < k then j else j + 1;
        assert rest[i] == products[i0] && rest[j] == products[j0] && i0 < j0;
      }
  }

  /** Deleting keeps every other product's SKU unique when SKUs were unique. */
  lemma DeleteKeepsSkusDistinct(products: seq<Product>, id: Guid)
    requires SkusDistinct(products)
    ensures SkusDistinct(AfterDelete(products, id))
  {
    var rest := AfterDelete(products, id);
    match FirstWithId(products, id)
    case None =>
    case Some(k) =>
      forall i, j | 0 <= i < j < |rest| ensures rest[i].sku != rest[j].sku {
        var i0 := if i < k then i else i + 1;
        var j0 := if j < k then j else j + 1;
        assert rest[i] == products[i0] && rest[j] == products[j0] && i0 < j0;
      }
  }

  /** The handler, with its injected store. */
  class DeleteProductHandler {
    const context: ProductStore

    constructor(context: ProductStore)
      ensures this.context == context
    {
      this.context := context;
    }

    /** `Handle(request)` for the request's `Id`. */
    method Handle(id: Guid) returns (outcome: DeleteOutcome)
      modifies context
      ensures outcome == NotFound <==> forall i :: 0 <= i < |old(context.products)| ==> old(context.products)[i].id != id
      ensures context.products == AfterDelete(old(context.products), id)
    {
      var product := FirstWithId(context.products, id);
      if product.None? {
        return NotFound;
      }
      context.products := RemoveAt(context.products, product.value);
      return NoContent;
    }
  }
}
