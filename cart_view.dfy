/** The cart drawer: line totals, tax and final total, and its quantity stepper and clear button. */
module CartView {
  import opened Wrappers
  import opened Products
  import opened CartEngine
  import JsText

  /** The goods-and-services tax rate applied to the subtotal. */
  const TaxRate: real := 0.18

  /** `estimatedTax`: 18% of the subtotal. */
  function EstimatedTax(items: seq<CartItem>): real {
    TotalPrice(items) * TaxRate
  }

  /** `finalTotal`: the subtotal plus the tax. */
  function FinalTotal(items: seq<CartItem>): real {
    TotalPrice(items) + EstimatedTax(items)
  }

  /** The final total is 1.18 times the subtotal, and never below a non-negative subtotal. */
  lemma FinalTotalScales(items: seq<CartItem>)
    ensures FinalTotal(items) == 1.18 * TotalPrice(items)
    ensures TotalPrice(items) >= 0.0 ==> FinalTotal(items) >= TotalPrice(items)
  {
  }

  /** The line totals the drawer shows, one per line, in cart order. */
  function LineTotals(items: seq<CartItem>): (r: seq<real>)
    ensures |r| == |items| && forall i :: 0 <= i < |items| ==> r[i] == LinePrice(items[i])
  {
    seq(|items|, i requires 0 <= i < |items| => LinePrice(items[i]))
  }

  /** The sum of a list of amounts, first to last. */
  function Sum(xs: seq<real>): real {
    if |xs| == 0 then 0.0 else xs[0] + Sum(xs[1..])
  }

  lemma {:induction false} SumSnoc(xs: seq<real>, x: real)
    ensures Sum(xs + [x]) == Sum(xs) + x
  {
    if |xs| > 0 {
      assert (xs + [x])[1..] == xs[1..] + [x];
      SumSnoc(xs[1..], x);
    }
  }

  /** The line totals shown add up to the subtotal `getTotalPrice()`. */
  lemma {:induction false} LineTotalsSum(items: seq<CartItem>)
    ensures Sum(LineTotals(items)) == TotalPrice(items)
  {
    if |items| > 0 {
      var front := items[..|items| - 1];
      LineTotalsSum(front);
      assert LineTotals(items) == LineTotals(front) + [LinePrice(items[|items| - 1])];
      SumSnoc(LineTotals(front), LinePrice(items[|items| - 1]));
    }
  }

  /** The struck-through `price * quantity`, shown only when the discount price is truthy. */
  function StruckLineTotal(it: CartItem): (r: Option<real>)
    ensures r.Some? <==> HasDiscount(it.product)
  {
    if HasDiscount(it.product) then Some(it.product.price * it.quantity as real) else None
  }

  /** A real discount shows a struck total at least as large as the line total. */
  lemma StruckAboveLineTotal(it: CartItem)
    requires HasDiscount(it.product) && it.product.discountPrice.value <= it.product.price
    requires it.quantity >= 1
    ensures LinePrice(it) <= StruckLineTotal(it).value
  {
    var q := it.quantity as real;
    assert it.product.discountPrice.value * q <= it.product.price * q;
  }

  /** The badge beside the title: shown only for a non-empty cart, singular for one item. */
  function ItemsBadge(totalItems: int): (r: Option<string>)
    ensures r.Some? <==> totalItems > 0
    ensures totalItems == 1 ==> r == Some("1 item")
  {
    if totalItems <= 0 then None
    else if totalItems == 1 then Some("1 item")
    else Some(JsText.IntText(totalItems) + " items")
  }

  /** Pressing minus on a line of quantity one removes just that line. */
  lemma MinusOnOneRemoves(items: seq<CartItem>, k: nat)
    requires WellFormed(items) && k < |items| && items[k].quantity == 1
    ensures QuantityUpdated(items, items[k].product.id, items[k].quantity - 1) == items[..k] + items[k + 1..]
    ensures TotalItems(items[..k] + items[k + 1..]) == TotalItems(items) - 1
  {
    UpdateNonPositive(items, items[k].product.id, 0);
    RemoveAt(items, items[k].product.id, k);
    TotalsWithout(items, k);
  }

  lemma TotalsWithout(items: seq<CartItem>, k: nat)
    requires k < |items|
    ensures TotalItems(items[..k] + items[k + 1..]) == TotalItems(items) - items[k].quantity
  {
    var pre, x, post := items[..k], items[k], items[k + 1..];
    var tail := items[k..];
    assert items == pre + tail;
    assert tail == [x] + post;
    TotalItemsAppend(pre, tail);
    TotalItemsAppend([x], post);
    TotalItemsAppend(pre, post);
    assert TotalItems([x]) == x.quantity by {
      assert [x][..0] == [];
    }
  }

  /** Pressing minus above one lowers just that line by one. */
  lemma MinusAboveOne(items: seq<CartItem>, k: nat)
    requires WellFormed(items) && k < |items| && items[k].quantity > 1
    ensures QuantityUpdated(items, items[k].product.id, items[k].quantity - 1) ==
      items[k := items[k].(quantity := items[k].quantity - 1)]
    ensures TotalItems(QuantityUpdated(items, items[k].product.id, items[k].quantity - 1)) == TotalItems(items) - 1
  {
    UpdatePositive(items, items[k].product.id, items[k].quantity - 1, k);
    TotalItemsReplace(items, k, items[k].(quantity := items[k].quantity - 1));
  }

  /** Pressing plus raises just that line by one. */
  lemma PlusAddsOne(items: seq<CartItem>, k: nat)
    requires WellFormed(items) && k < |items|
    ensures QuantityUpdated(items, items[k].product.id, items[k].quantity + 1) ==
      items[k := items[k].(quantity := items[k].quantity + 1)]
    ensures TotalItems(QuantityUpdated(items, items[k].product.id, items[k].quantity + 1)) == TotalItems(items) + 1
  {
    UpdatePositive(items, items[k].product.id, items[k].quantity + 1, k);
    TotalItemsReplace(items, k, items[k].(quantity := items[k].quantity + 1));
  }

  /** The minus button of line `k`: `updateQuantity(item.id, item.quantity - 1)`. */
  method PressMinus(cart: Cart, k: nat)
    requires cart.Valid() && k < |cart.items|
    modifies cart
    ensures cart.Valid()
    ensures cart.items == QuantityUpdated(old(cart.items), old(cart.items)[k].product.id, old(cart.items)[k].quantity - 1)
  {
    var it := cart.items[k];
    cart.UpdateQuantity(it.product.id, it.quantity - 1);
  }

  /** The plus button of line `k`: `updateQuantity(item.id, item.quantity + 1)`. */
  method PressPlus(cart: Cart, k: nat)
    requires cart.Valid() && k < |cart.items|
    modifies cart
    ensures cart.Valid()
    ensures cart.items == old(cart.items)[k := old(cart.items)[k].(quantity := old(cart.items)[k].quantity + 1)]
  {
    var it := cart.items[k];
    PlusAddsOne(cart.items, k);
    cart.UpdateQuantity(it.product.id, it.quantity + 1);
  }

  /** `handleRemoveItem`. */
  method PressRemove(cart: Cart, k: nat)
    requires cart.Valid() && k < |cart.items|
    modifies cart
    ensures cart.Valid() && cart.items == old(cart.items[..k] + cart.items[k + 1..])
  {
    RemoveAt(cart.items, cart.items[k].product.id, k);
    cart.RemoveFromCart(cart.items[k].product.id);
  }

  /** `handleClearCart`: nothing is left, so no badge and nothing to pay. */
  method PressClear(cart: Cart)
    requires cart.Valid()
    modifies cart
    ensures cart.Valid() && cart.items == []
    ensures ItemsBadge(TotalItems(cart.items)).None? && FinalTotal(cart.items) == 0.0
  {
    cart.ClearCart();
  }
}
