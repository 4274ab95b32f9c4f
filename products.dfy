/** The `Product` record shared by the cart, the catalogue and the storefront views. */
module Products {
  import opened Wrappers

  /**
   * A product. Prices and ratings are JavaScript numbers, modelled as exact reals;
   * `discountPrice`, `brand` and `rating` are optional fields.
   */
  datatype Product = Product(
    id: int,
    name: string,
    category: string,
    price: real,
    discountPrice: Option<real>,
    image: string,
    specs: string,
    inStock: bool,
    brand: Option<string>,
    rating: Option<real>)

  /** `Omit<Product, 'id'>`: what the add form hands to the catalogue. */
  datatype ProductData = ProductData(
    name: string,
    category: string,
    price: real,
    discountPrice: Option<real>,
    image: string,
    specs: string,
    inStock: bool,
    brand: Option<string>,
    rating: Option<real>)

  /** `{ ...data, id }`: the record with the given id and every other field from `data`. */
  function WithId(d: ProductData, id: int): Product {
    Product(id, d.name, d.category, d.price, d.discountPrice, d.image, d.specs, d.inStock, d.brand, d.rating)
  }

  /** The fields of a product other than its id. */
  function DataOf(p: Product): ProductData {
    ProductData(p.name, p.category, p.price, p.discountPrice, p.image, p.specs, p.inStock, p.brand, p.rating)
  }

  /** Attaching an id and stripping it again are inverse to each other. */
  lemma WithIdRoundTrip(d: ProductData, p: Product)
    ensures DataOf(WithId(d, p.id)) == d
    ensures WithId(DataOf(p), p.id) == p
  {
  }

  /** `product.discountPrice` is truthy: present and non-zero. */
  predicate HasDiscount(p: Product) {
    p.discountPrice.Some? && p.discountPrice.value != 0.0
  }

  /** `product.discountPrice || product.price`: the price the shop charges. */
  function EffectivePrice(p: Product): real {
    if HasDiscount(p) then p.discountPrice.value else p.price
  }

  /** `product.rating || 0`. */
  function RatingOrZero(p: Product): real {
    p.rating.GetOr(0.0)
  }

  /**
   * The discount as a percentage of the price, `(price - discountPrice) / price * 100`; 0 without
   * a discount and, in this model, for a zero price.
   */
  function DiscountOf(p: Product): real {
    if HasDiscount(p) && p.price != 0.0 then (p.price - p.discountPrice.value) / p.price * 100.0 else 0.0
  }
}
