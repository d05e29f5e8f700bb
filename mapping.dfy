/** The AutoMapper profiles: `AdvancedProductMappingProfile` (request to
    `Product`, and `Product` to `ProductProfileDto` with the Home rules) and the
    plain `ProductMapping` projection. */
module Mapping {
  import opened Wrappers
  import opened Domain
  import opened Resolvers

  /** `Math.Round(price * 0.9m, 2)` on an amount in hundredths: nine tenths of
      it rounded to whole hundredths with the default `MidpointRounding.ToEven`,
      that is to the nearest integer, and to the even one of two equally near. */
  function HomePrice(price: Cents): (discounted: Cents)
    ensures -10 <= 2 * (9 * price - 10 * discounted) <= 10
    ensures (2 * (9 * price - 10 * discounted) == 10 || 2 * (9 * price - 10 * discounted) == -10)
              ==> discounted % 2 == 0
  {
    var tenths := 9 * price;
    var whole := tenths / 10;
    var rest := tenths % 10;
    if rest < 5 then whole
    else if rest > 5 then whole + 1
    else if whole % 2 == 0 then whole
    else whole + 1
  }

  /** The two properties above determine the discounted price: any amount
      within half a hundredth, and even when exactly half a hundredth away, is
      the result. */
  lemma HomePriceUnique(price: Cents, q: Cents)
    requires -10 <= 2 * (9 * price - 10 * q) <= 10
    requires (2 * (9 * price - 10 * q) == 10 || 2 * (9 * price - 10 * q) == -10) ==> q % 2 == 0
    ensures HomePrice(price) == q
  {
  }

  /** For a price that is not negative the discounted price is not negative
      and never above the price. */
  lemma HomePriceBounds(price: Cents)
    requires price >= 0
    ensures 0 <= HomePrice(price) <= price
  {
  }

  /** 300.00 becomes 270.00. */
  lemma HomePriceExample()
    ensures HomePrice(30000) == 27000
  {
    HomePriceUnique(30000, 27000);
  }

  /** `CreateMap<CreateProductProfileRequest, Product>().ConstructUsing(...)`
      with the fresh id and the current time passed in. */
  function ToProduct(req: CreateProductProfileRequest, id: Guid, now: Ticks): (p: Product)
    ensures RequestOf(p) == req
    ensures p.id == id && p.createdAt == now
    ensures p.isAvailable <==> req.stockQuantity > 0
  {
    Product(id, req.name, req.brand, req.sku, req.category, req.price, req.releaseDate,
            now, req.stockQuantity > 0, req.imageUrl, req.stockQuantity)
  }

  /** The request fields a product carries. */
  function RequestOf(p: Product): CreateProductProfileRequest {
    CreateProductProfileRequest(p.name, p.brand, p.sku, p.category, p.price, p.releaseDate,
                                p.imageUrl, p.stockQuantity)
  }

  /** A product built from a request is never reported "Unavailable". */
  lemma BuiltProductNeverUnavailable(req: CreateProductProfileRequest, id: Guid, now: Ticks)
    ensures AvailabilityStatus(ToProduct(req, id, now)) != "Unavailable"
  {
    NeverUnavailableWhenFlagFollowsStock(ToProduct(req, id, now));
  }

  /** The DTO members copied from the product as they are. */
  predicate DirectFieldsCopied(dto: ProductProfileDto, p: Product) {
    dto.id == p.id && dto.name == p.name && dto.brand == p.brand && dto.sku == p.sku
    && dto.releaseDate == p.releaseDate && dto.createdAt == p.createdAt
    && dto.isAvailable == p.isAvailable && dto.stockQuantity == p.stockQuantity
  }

  /** The DTO members produced by the resolvers; the age is read at `now`.
      `FormattedPrice` is derived from the stored price. */
  predicate DerivedFieldsResolved(dto: ProductProfileDto, p: Product, now: Ticks) {
    dto.categoryDisplayName == DisplayNameOf(p.category)
    && dto.formattedPrice == CurrencyOf(p.price)
    && dto.productAge == ProductAge(p, now)
    && dto.brandInitials == BrandInitials(p.brand)
    && dto.availabilityStatus == AvailabilityStatus(p)
  }

  /** `AdvancedProductMappingProfile`: `Product` to `ProductProfileDto`. A Home
      product loses its image URL and shows the discounted price; every other
      product keeps both. */
  function MapAdvanced(p: Product, now: Ticks): (dto: ProductProfileDto)
    ensures DirectFieldsCopied(dto, p) && DerivedFieldsResolved(dto, p, now)
    ensures p.category == Home ==> dto.imageUrl == None && dto.price == HomePrice(p.price)
    ensures p.category != Home ==> dto.imageUrl == p.imageUrl && dto.price == p.price
  {
    ProductProfileDto(
      p.id, p.name, p.brand, p.sku,
      DisplayNameOf(p.category),
      if p.category == Home then HomePrice(p.price) else p.price,
      CurrencyOf(p.price),
      p.releaseDate, p.createdAt,
      if p.category == Home then None else p.imageUrl,
      p.isAvailable, p.stockQuantity,
      ProductAge(p, now), BrandInitials(p.brand), AvailabilityStatus(p))
  }

  /** `ProductMapping`: every member copied or resolved, with no category rule. */
  function MapPlain(p: Product, now: Ticks): (dto: ProductProfileDto)
    ensures DirectFieldsCopied(dto, p) && DerivedFieldsResolved(dto, p, now)
    ensures dto.price == p.price && dto.imageUrl == p.imageUrl
  {
    ProductProfileDto(
      p.id, p.name, p.brand, p.sku,
      DisplayNameOf(p.category), p.price, CurrencyOf(p.price),
      p.releaseDate, p.createdAt, p.imageUrl,
      p.isAvailable, p.stockQuantity,
      ProductAge(p, now), BrandInitials(p.brand), AvailabilityStatus(p))
  }

  /** Outside Home the two profiles produce the same DTO; for Home they differ
      in the price and the image URL only. */
  lemma ProfilesAgree(p: Product, now: Ticks)
    ensures p.category != Home ==> MapAdvanced(p, now) == MapPlain(p, now)
    ensures p.category == Home ==>
      MapAdvanced(p, now) == MapPlain(p, now).(price := HomePrice(p.price), imageUrl := None)
  {
  }

  /** For Home from 0.05 up, the formatted price (taken from the stored price)
      is above the DTO price. */
  lemma HomeFormattedPriceUndiscounted(p: Product, now: Ticks)
    requires p.category == Home && p.price >= 5
    ensures MapAdvanced(p, now).formattedPrice.amount > MapAdvanced(p, now).price
  {
  }

  /** A Home product priced 300.00 shows 270.00 and no image. */
  lemma HomeExample(p: Product, now: Ticks)
    requires p.category == Home && p.price == 30000
    ensures MapAdvanced(p, now).price == 27000 && MapAdvanced(p, now).imageUrl == None
  {
    HomePriceExample();
  }
}
