/** The product records of `Features/Products`: the stored `Product`, the two
    creation requests and the profile DTO returned to clients. */
module Domain {
  import opened Text
  import opened Wrappers

  /** A `decimal` amount at scale 2, counted in hundredths (300.00 is 30000). */
  type Cents = int

  /** A `DateTime`, as its `Ticks`: 100-nanosecond intervals since 0001-01-01. */
  type Ticks = nat

  const TicksPerDay: nat := 864_000_000_000

  /** `new DateTime(1900, 1, 1)`: 693595 days after 0001-01-01. */
  const Jan1st1900: Ticks := 693_595 * TicksPerDay

  /** The day of `DateTime.Date`: two instants have the same `.Date` exactly when
      they have the same day number. */
  function DayOf(t: Ticks): nat {
    t / TicksPerDay
  }

  /** `DateTime.Date`: the instant truncated to midnight. */
  function DateOf(t: Ticks): (d: Ticks)
    ensures d <= t < d + TicksPerDay
    ensures d % TicksPerDay == 0 && DayOf(d) == DayOf(t)
  {
    DayOf(t) * TicksPerDay
  }

  /** `ProductCategory`. The enum declaration is not part of this model: only the
      members Electronics, Home and Clothing are referred to. Any further
      declared member is `OtherDeclared`, and a value outside the declared set
      (an integer cast to the enum) is `Undeclared`. */
  datatype ProductCategory =
    | Electronics
    | Home
    | Clothing
    | OtherDeclared(name: string)
    | Undeclared(raw: int)

  /** `Enum.IsDefined`, the test behind FluentValidation's `IsInEnum`. */
  predicate IsDeclared(c: ProductCategory) { !c.Undeclared? }

  /** `category.ToString()`: the member name, or the number of an undeclared value. */
  function CategoryText(c: ProductCategory): string {
    match c
    case Electronics => "Electronics"
    case Home => "Home"
    case Clothing => "Clothing"
    case OtherDeclared(name) => name
    case Undeclared(raw) => IntToString(raw)
  }

  /** `url.EndsWith(...)` for one of the five image suffixes both profile
      validators accept; the comparison is case-sensitive and ordinal (see
      `Text.EndsWith`). */
  predicate HasImageExtension(url: string) {
    EndsWith(url, ".jpg") || EndsWith(url, ".jpeg") || EndsWith(url, ".png")
    || EndsWith(url, ".gif") || EndsWith(url, ".webp")
  }

  /** A `Guid`, through its canonical text form (`Guid.ToString()`). */
  datatype Guid = Guid(text: string)

  /** The `Product` record (Features/Products/Product.cs). */
  datatype Product = Product(
    id: Guid,
    name: string,
    brand: string,
    sku: string,
    category: ProductCategory,
    price: Cents,
    releaseDate: Ticks,
    createdAt: Ticks,
    isAvailable: bool,
    imageUrl: Option<string>,
    stockQuantity: int)

  /** `CreateProductProfileRequest`: the eight fields the creation endpoint
      receives. */
  datatype CreateProductProfileRequest = CreateProductProfileRequest(
    name: string,
    brand: string,
    sku: string,
    category: ProductCategory,
    price: Cents,
    releaseDate: Ticks,
    imageUrl: Option<string>,
    stockQuantity: int)

  /** `CreateProductRequest` (Features/Products/CreateProductRequest.cs), the
      request checked by the smaller `CreateProductValidator`. */
  datatype CreateProductRequest = CreateProductRequest(
    name: string,
    brand: string,
    sku: string,
    category: ProductCategory,
    price: Cents,
    releaseDate: Ticks,
    createdAt: Ticks,
    imageUrl: Option<string>,
    isAvailable: bool,
    stockQuantity: int,
    id: Guid)

  /** The text `CategoryDisplayResolver` produces for a category. That resolver
      is not part of this model, so the text is kept symbolic. */
  datatype CategoryDisplay = DisplayNameOf(category: ProductCategory)

  /** The culture-dependent "C2" currency text `PriceFormatterResolver` produces
      for an amount, kept symbolic. */
  datatype CurrencyText = CurrencyOf(amount: Cents)

  /** `ProductProfileDto`. */
  datatype ProductProfileDto = ProductProfileDto(
    id: Guid,
    name: string,
    brand: string,
    sku: string,
    categoryDisplayName: CategoryDisplay,
    price: Cents,
    formattedPrice: CurrencyText,
    releaseDate: Ticks,
    createdAt: Ticks,
    imageUrl: Option<string>,
    isAvailable: bool,
    stockQuantity: int,
    productAge: string,
    brandInitials: string,
    availabilityStatus: string)
}
