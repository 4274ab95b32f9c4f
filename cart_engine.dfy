/**
 * The cart engine: an ordered list of line items keyed by product id, with add, remove,
 * set-quantity and clear, and the totals derived from it.
 */
module CartEngine {
  import opened Products
  import Seqs

  /** `CartItem extends Product` with a `quantity`. */
  datatype CartItem = CartItem(product: Product, quantity: int)

  /** At most one line per product id. */
  predicate UniqueIds(items: seq<CartItem>) {
    forall i, j :: 0 <= i < j < |items| ==> items[i].product.id != items[j].product.id
  }

  /** No line is left at a quantity below one. */
  predicate PositiveQuantities(items: seq<CartItem>) {
    forall i :: 0 <= i < |items| ==> items[i].quantity >= 1
  }

  /** The cart invariant. */
  predicate WellFormed(items: seq<CartItem>) {
    UniqueIds(items) && PositiveQuantities(items)
  }

  /** `items.some(item => item.id === id)`. */
  function InCart(items: seq<CartItem>, id: int): (b: bool)
    ensures b <==> exists i :: 0 <= i < |items| && items[i].product.id == id
  {
    if |items| == 0 then false
    else items[0].product.id == id || InCart(items[1..], id)
  }

  /** `items.map(item => item.id === id ? { ...item, quantity: item.quantity + 1 } : item)`. */
  function Incremented(items: seq<CartItem>, id: int): (r: seq<CartItem>)
    ensures |r| == |items|
    ensures forall i :: 0 <= i < |items| ==>
      r[i] == if items[i].product.id == id then items[i].(quantity := items[i].quantity + 1) else items[i]
  {
    seq(|items|, i requires 0 <= i < |items| =>
      if items[i].product.id == id then items[i].(quantity := items[i].quantity + 1) else items[i])
  }

  /** `addToCart(product)`: bump the existing line, or append a new line with quantity 1. */
  function Added(items: seq<CartItem>, p: Product): seq<CartItem> {
    if InCart(items, p.id) then Incremented(items, p.id) else items + [CartItem(p, 1)]
  }

  /** `removeFromCart(id)`: `items.filter(item => item.id !== id)`. */
  function Removed(items: seq<CartItem>, id: int): seq<CartItem> {
    Seqs.Filter(items, (it: CartItem) => it.product.id != id)
  }

  /** `items.map(item => item.id === id ? { ...item, quantity } : item)`. */
  function WithQuantity(items: seq<CartItem>, id: int, q: int): (r: seq<CartItem>)
    ensures |r| == |items|
    ensures forall i :: 0 <= i < |items| ==>
      r[i] == if items[i].product.id == id then items[i].(quantity := q) else items[i]
  {
    seq(|items|, i requires 0 <= i < |items| =>
      if items[i].product.id == id then items[i].(quantity := q) else items[i])
  }

  /** `updateQuantity(id, q)`: a quantity of zero or less removes the line. */
  function QuantityUpdated(items: seq<CartItem>, id: int, q: int): seq<CartItem> {
    if q <= 0 then Removed(items, id) else WithQuantity(items, id, q)
  }

  /** `getTotalItems()`: `items.reduce((total, item) => total + item.quantity, 0)`. */
  function TotalItems(items: seq<CartItem>): int {
    if |items| == 0 then 0 else TotalItems(items[..|items| - 1]) + items[|items| - 1].quantity
  }

  /** One line's contribution to the price: effective price times quantity. */
  function LinePrice(it: CartItem): real {
    EffectivePrice(it.product) * it.quantity as real
  }

  /** `getTotalPrice()`: the sum of `(discountPrice || price) * quantity`, folded from the left. */
  function TotalPrice(items: seq<CartItem>): real {
    if |items| == 0 then 0.0 else TotalPrice(items[..|items| - 1]) + LinePrice(items[|items| - 1])
  }

  // ------------------------------------------------------------- lemmas

  /** The index of the line holding `id`. */
  lemma FindLine(items: seq<CartItem>, id: int) returns (k: nat)
    requires InCart(items, id)
    ensures k < |items| && items[k].product.id == id
  {
    k :| k < |items| && items[k].product.id == id;
  }

  /** With unique ids, a line's id pins down its index. */
  lemma OnlyLine(items: seq<CartItem>, k: nat, j: nat)
    requires UniqueIds(items) && k < |items| && j < |items|
    requires items[k].product.id == items[j].product.id
    ensures j == k
  {
  }

  /** Adding a product already in the cart bumps that one line by 1; length, order and every other line stay. */
  lemma AddExisting(items: seq<CartItem>, p: Product, k: nat)
    requires WellFormed(items) && k < |items| && items[k].product.id == p.id
    ensures Added(items, p) == items[k := items[k].(quantity := items[k].quantity + 1)]
  {
    var r := Added(items, p);
    var s := items[k := items[k].(quantity := items[k].quantity + 1)];
    forall j | 0 <= j < |items| ensures r[j] == s[j] {
      if items[j].product.id == p.id { OnlyLine(items, k, j); }
    }
  }

  /** Adding a product not in the cart appends one line with quantity 1 after an unchanged prefix. */
  lemma AddNew(items: seq<CartItem>, p: Product)
    requires !InCart(items, p.id)
    ensures |Added(items, p)| == |items| + 1
    ensures Added(items, p)[..|items|] == items && Added(items, p)[|items|] == CartItem(p, 1)
  {
  }

  /** After `addToCart(p)`, `isInCart(p.id)` holds. */
  lemma AddMakesInCart(items: seq<CartItem>, p: Product)
    ensures InCart(Added(items, p), p.id)
  {
    if InCart(items, p.id) {
      var k := FindLine(items, p.id);
      assert Added(items, p)[k].product.id == p.id;
    } else {
      assert Added(items, p)[|items|].product.id == p.id;
    }
  }

  /** `addToCart` keeps ids unique and quantities positive. */
  lemma AddWellFormed(items: seq<CartItem>, p: Product)
    requires WellFormed(items)
    ensures WellFormed(Added(items, p))
  {
    if InCart(items, p.id) {
      var k := FindLine(items, p.id);
      AddExisting(items, p, k);
    }
  }

  /** Adding the same new product twice gives one line of quantity 2, not two lines. */
  lemma AddTwice(items: seq<CartItem>, p: Product)
    requires WellFormed(items) && !InCart(items, p.id)
    ensures Added(Added(items, p), p) == items + [CartItem(p, 2)]
  {
    var once := Added(items, p);
    AddWellFormed(items, p);
    AddExisting(once, p, |items|);
  }

  /** The quantity total is additive over concatenation. */
  lemma {:induction false} TotalItemsAppend(a: seq<CartItem>, b: seq<CartItem>)
    ensures TotalItems(a + b) == TotalItems(a) + TotalItems(b)
  {
    if |b| == 0 {
      assert a + b == a;
    } else {
      assert (a + b)[..|a + b| - 1] == a + b[..|b| - 1];
      TotalItemsAppend(a, b[..|b| - 1]);
    }
  }

  /** Replacing one line changes the quantity total by the difference of the two quantities. */
  lemma TotalItemsReplace(items: seq<CartItem>, k: nat, x: CartItem)
    requires k < |items|
    ensures TotalItems(items[k := x]) == TotalItems(items) - items[k].quantity + x.quantity
  {
    var pre, post := items[..k], items[k + 1..];
    assert items == pre + [items[k]] + post;
    assert items[k := x] == pre + [x] + post;
    TotalItemsAppend(pre + [items[k]], post);
    TotalItemsAppend(pre + [x], post);
    TotalItemsAppend(pre, [items[k]]);
    TotalItemsAppend(pre, [x]);
  }

  /** Every `addToCart` raises the item count by exactly one. */
  lemma AddTotalItems(items: seq<CartItem>, p: Product)
    requires WellFormed(items)
    ensures TotalItems(Added(items, p)) == TotalItems(items) + 1
  {
    if InCart(items, p.id) {
      var k := FindLine(items, p.id);
      AddExisting(items, p, k);
      TotalItemsReplace(items, k, items[k].(quantity := items[k].quantity + 1));
    } else {
      TotalItemsAppend(items, [CartItem(p, 1)]);
    }
  }

  /** With every quantity at least 1, the item count is at least the number of lines. */
  lemma {:induction false} TotalItemsAtLeastLines(items: seq<CartItem>)
    requires PositiveQuantities(items)
    ensures TotalItems(items) >= |items|
  {
    if |items| > 0 {
      TotalItemsAtLeastLines(items[..|items| - 1]);
    }
  }

  /** `removeFromCart(id)` leaves no line for `id` and keeps the lines of every other id. */
  lemma RemoveEffect(items: seq<CartItem>, id: int, other: int)
    requires other != id
    ensures !InCart(Removed(items, id), id)
    ensures InCart(Removed(items, id), other) == InCart(items, other)
  {
    var r := Removed(items, id);
    forall i | 0 <= i < |r| ensures r[i].product.id != id {
      assert r[i] in r;
    }
    if InCart(items, other) {
      var k := FindLine(items, other);
      assert items[k] in r;
    }
    if InCart(r, other) {
      var k := FindLine(r, other);
      assert r[k] in items;
    }
  }

  /** Removing an id that is not in the cart changes nothing. */
  lemma RemoveAbsent(items: seq<CartItem>, id: int)
    requires !InCart(items, id)
    ensures Removed(items, id) == items
  {
    Seqs.KeepAll(items, (it: CartItem) => it.product.id != id);
  }

  /** With unique ids, removing the line at `k` keeps the others in order. */
  lemma RemoveAt(items: seq<CartItem>, id: int, k: nat)
    requires UniqueIds(items) && k < |items| && items[k].product.id == id
    ensures Removed(items, id) == items[..k] + items[k + 1..]
  {
    Seqs.FilterDropsOne(items, (it: CartItem) => it.product.id != id, k);
  }

  /** Removing keeps the cart invariant. */
  lemma RemoveWellFormed(items: seq<CartItem>, id: int)
    requires WellFormed(items)
    ensures WellFormed(Removed(items, id))
  {
    var keep := (it: CartItem) => it.product.id != id;
    var r := Removed(items, id);
    forall i | 0 <= i < |r| ensures r[i].quantity >= 1 {
      assert r[i] in items;
    }
    if !UniqueIds(r) {
      var i, j :| 0 <= i < j < |r| && r[i].product.id == r[j].product.id;
      RemoveSameIdsAbsurd(items, keep, i, j);
    }
  }

  /** Two lines of a filtered cart that share an id would have to be one line of the cart. */
  lemma {:induction false} RemoveSameIdsAbsurd(items: seq<CartItem>, keep: CartItem -> bool, i: nat, j: nat)
    requires UniqueIds(items)
    requires i < j < |Seqs.Filter(items, keep)|
    ensures Seqs.Filter(items, keep)[i].product.id != Seqs.Filter(items, keep)[j].product.id
  {
    var front := items[..|items| - 1];
    var last := items[|items| - 1];
    var f := Seqs.Filter(front, keep);
    assert UniqueIds(front);
    if keep(last) && j == |f| {
      assert Seqs.Filter(items, keep)[i] == f[i];
      assert f[i] in front;
      var m :| 0 <= m < |front| && front[m] == f[i];
      assert items[m] == f[i];
    } else {
      RemoveSameIdsAbsurd(front, keep, i, j);
    }
  }

  /** `updateQuantity(id, q)` with `q <= 0` is exactly `removeFromCart(id)`. */
  lemma UpdateNonPositive(items: seq<CartItem>, id: int, q: int)
    requires q <= 0
    ensures QuantityUpdated(items, id, q) == Removed(items, id)
  {
  }

  /** With `q > 0` only the quantity of the line for `id` is set. */
  lemma UpdatePositive(items: seq<CartItem>, id: int, q: int, k: nat)
    requires UniqueIds(items) && k < |items| && items[k].product.id == id && q > 0
    ensures QuantityUpdated(items, id, q) == items[k := items[k].(quantity := q)]
  {
    var r := QuantityUpdated(items, id, q);
    forall j | 0 <= j < |items| ensures r[j] == items[k := items[k].(quantity := q)][j] {
      if items[j].product.id == id { OnlyLine(items, k, j); }
    }
  }

  /** Updating an id that is not in the cart leaves the cart unchanged. */
  lemma UpdateAbsent(items: seq<CartItem>, id: int, q: int)
    requires !InCart(items, id)
    ensures QuantityUpdated(items, id, q) == items
  {
    if q <= 0 { RemoveAbsent(items, id); }
  }

  /** `updateQuantity` keeps the cart invariant. */
  lemma UpdateWellFormed(items: seq<CartItem>, id: int, q: int)
    requires WellFormed(items)
    ensures WellFormed(QuantityUpdated(items, id, q))
  {
    if q <= 0 { RemoveWellFormed(items, id); }
  }

  /** The worked example: a line {price 1000, discountPrice 800, quantity 3} totals 2400. */
  lemma TotalPriceExample(p: Product)
    requires p.price == 1000.0 && p.discountPrice == Wrappers.Some(800.0)
    ensures TotalPrice([CartItem(p, 3)]) == 2400.0
  {
    assert [CartItem(p, 3)][..0] == [];
  }

  // -------------------------------------------------------------- state

  /** The cart provider's `items` state and its mutators. */
  class Cart {
    var items: seq<CartItem>

    ghost predicate Valid()
      reads this
    {
      WellFormed(items)
    }

    /** A cart starts out empty (the saved cart is loaded by storage code outside the model). */
    constructor ()
      ensures Valid() && items == []
    {
      items := [];
    }

    method AddToCart(p: Product)
      requires Valid()
      modifies this
      ensures Valid() && items == Added(old(items), p)
      ensures InCart(items, p.id) && TotalItems(items) == TotalItems(old(items)) + 1
    {
      AddWellFormed(items, p);
      AddMakesInCart(items, p);
      AddTotalItems(items, p);
      items := Added(items, p);
    }

    method RemoveFromCart(id: int)
      requires Valid()
      modifies this
      ensures Valid() && items == Removed(old(items), id)
      ensures !InCart(items, id)
    {
      RemoveWellFormed(items, id);
      RemoveEffect(items, id, id + 1);
      items := Removed(items, id);
    }

    method UpdateQuantity(id: int, q: int)
      requires Valid()
      modifies this
      ensures Valid() && items == QuantityUpdated(old(items), id, q)
    {
      if q <= 0 {
        RemoveFromCart(id);
        return;
      }
      UpdateWellFormed(items, id, q);
      items := WithQuantity(items, id, q);
    }

    method ClearCart()
      requires Valid()
      modifies this
      ensures Valid() && items == [] && TotalItems(items) == 0
    {
      items := [];
    }
  }
}
