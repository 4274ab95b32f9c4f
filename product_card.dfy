/** The storefront's product card: discount badge, prices, rating stars and the add-to-cart button. */
module ProductCard {
  import opened Wrappers
  import opened Products
  import CartEngine

  /** `Math.round`: the nearest integer, halves rounded up. */
  function JsRound(x: real): (r: int)
    ensures r as real - 0.5 <= x < r as real + 0.5
  {
    (x + 0.5).Floor
  }

  /** `discountPercentage`: the rounded discount, 0 when the discount price is absent or 0. */
  function DiscountPercentage(p: Product): int {
    if HasDiscount(p) then JsRound(DiscountOf(p)) else 0
  }

  /** The "% OFF" badge. */
  predicate ShowsBadge(p: Product) {
    DiscountPercentage(p) > 0
  }

  /** For a positive price, the badge shows exactly when the discount is at least half a percent. */
  lemma BadgeThreshold(p: Product)
    requires p.price > 0.0
    ensures ShowsBadge(p) <==> HasDiscount(p) && p.discountPrice.value <= 0.995 * p.price
  {
    if HasDiscount(p) {
      var dp := p.discountPrice.value;
      var ratio := (p.price - dp) / p.price;
      assert ratio * p.price == p.price - dp;
      assert DiscountOf(p) == ratio * 100.0;
      RatioThreshold(p.price, dp, ratio);
    }
  }

  lemma RatioThreshold(price: real, dp: real, ratio: real)
    requires price > 0.0 && ratio * price == price - dp
    ensures ratio * 100.0 >= 0.5 <==> dp <= 0.995 * price
  {
    if ratio * 100.0 >= 0.5 {
      assert ratio * price >= 0.005 * price;
    } else {
      assert ratio * price < 0.005 * price;
    }
  }

  /** A discount price above the price never shows a badge. */
  lemma NoBadgeForMarkup(p: Product)
    requires p.price > 0.0 && p.discountPrice.Some? && p.discountPrice.value > p.price
    ensures !ShowsBadge(p)
  {
    BadgeThreshold(p);
  }

  /** The price shown: the effective price. */
  function ShownPrice(p: Product): real {
    EffectivePrice(p)
  }

  /** The struck-through base price, present only when the discount price is truthy. */
  function StruckPrice(p: Product): (r: Option<real>)
    ensures r.Some? <==> HasDiscount(p)
    ensures r.Some? ==> r.value == p.price && ShownPrice(p) == p.discountPrice.value
    ensures r.None? ==> ShownPrice(p) == p.price
  {
    if HasDiscount(p) then Some(p.price) else None
  }

  /** The rating row is shown only for a truthy rating. */
  predicate ShowsRating(p: Product) {
    p.rating.Some? && p.rating.value != 0.0
  }

  /** How many of the stars `0 .. n-1` are filled: `i < Math.floor(rating)`. */
  function FilledAmong(n: nat, rating: real): nat {
    if n == 0 then 0 else FilledAmong(n - 1, rating) + (if ((n - 1) as real) < rating.Floor as real then 1 else 0)
  }

  /** The filled stars of the five. */
  function FilledStars(rating: real): nat {
    FilledAmong(5, rating)
  }

  lemma {:induction false} FilledAmongClamp(n: nat, rating: real)
    ensures FilledAmong(n, rating) == if rating.Floor <= 0 then 0 else if rating.Floor >= n then n else rating.Floor
  {
    if n > 0 {
      FilledAmongClamp(n - 1, rating);
    }
  }

  /** The filled stars number `floor(rating)`, kept within 0 and 5. */
  lemma FilledStarsClamp(rating: real)
    ensures FilledStars(rating) == if rating.Floor <= 0 then 0 else if rating.Floor >= 5 then 5 else rating.Floor
    ensures FilledStars(rating) <= 5
  {
    FilledAmongClamp(5, rating);
  }

  /** The add-to-cart button is disabled for a product out of stock. */
  predicate ButtonDisabled(p: Product) {
    !p.inStock
  }

  /** The button's label. */
  function ButtonLabel(p: Product, inCart: bool): (r: string)
    ensures r == "Out of Stock" <==> ButtonDisabled(p)
    ensures r == "In Cart" <==> p.inStock && inCart
    ensures r == "Add to Cart" <==> p.inStock && !inCart
  {
    if !p.inStock then "Out of Stock" else if inCart then "In Cart" else "Add to Cart"
  }

  /** `handleAddToCart`: the product is then in the cart, so an in-stock card reads "In Cart". */
  method HandleAddToCart(cart: CartEngine.Cart, p: Product)
    requires cart.Valid()
    modifies cart
    ensures cart.Valid() && cart.items == CartEngine.Added(old(cart.items), p)
    ensures p.inStock ==> ButtonLabel(p, CartEngine.InCart(cart.items, p.id)) == "In Cart"
  {
    cart.AddToCart(p);
  }
}
