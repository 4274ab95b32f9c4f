/**
 * The catalogue engine and the admin gate: the admin-managed product list with its
 * create / update / delete / bulk operations, and the three-flag password gate.
 */
module CatalogEngine {
  import opened Wrappers
  import opened Products
  import Seqs

  /** The fixed shared password of the admin panel. */
  const AdminPassword: string := "admin123"

  // ------------------------------------------------------------ records

  /**
   * `Partial<Product>`: `None` means the field is not supplied. For the optional product
   * fields, `Some(None)` is a field supplied as `undefined`, which the spread copies too.
   */
  datatype Patch = Patch(
    id: Option<int>,
    name: Option<string>,
    category: Option<string>,
    price: Option<real>,
    discountPrice: Option<Option<real>>,
    image: Option<string>,
    specs: Option<string>,
    inStock: Option<bool>,
    brand: Option<Option<string>>,
    rating: Option<Option<real>>)

  /** `{}`: a patch supplying nothing. */
  const NoChange: Patch := Patch(None, None, None, None, None, None, None, None, None, None)

  /** `{ ...product, ...patch }`: supplied fields replace, the rest are kept. */
  function Merge(p: Product, d: Patch): Product {
    Product(
      d.id.GetOr(p.id), d.name.GetOr(p.name), d.category.GetOr(p.category), d.price.GetOr(p.price),
      d.discountPrice.GetOr(p.discountPrice), d.image.GetOr(p.image), d.specs.GetOr(p.specs),
      d.inStock.GetOr(p.inStock), d.brand.GetOr(p.brand), d.rating.GetOr(p.rating))
  }

  /** `{ ...a, ...b }` on two patches: a field of `b` wins over the same field of `a`. */
  function Combine(a: Patch, b: Patch): Patch {
    Patch(
      Later(a.id, b.id), Later(a.name, b.name), Later(a.category, b.category), Later(a.price, b.price),
      Later(a.discountPrice, b.discountPrice), Later(a.image, b.image), Later(a.specs, b.specs),
      Later(a.inStock, b.inStock), Later(a.brand, b.brand), Later(a.rating, b.rating))
  }

  function Later<T>(a: Option<T>, b: Option<T>): Option<T> {
    if b.Some? then b else a
  }

  /** Merging the empty patch changes nothing. */
  lemma MergeNoChange(p: Product)
    ensures Merge(p, NoChange) == p
  {
  }

  /** Applying the same patch twice is the same as applying it once. */
  lemma MergeIdempotent(p: Product, d: Patch)
    ensures Merge(Merge(p, d), d) == Merge(p, d)
  {
  }

  /** Two successive merges are one merge with the combined patch. */
  lemma MergeCombine(p: Product, a: Patch, b: Patch)
    ensures Merge(Merge(p, a), b) == Merge(p, Combine(a, b))
  {
  }

  /** The ids of a product list, in order. */
  function Ids(ps: seq<Product>): (r: seq<int>)
    ensures |r| == |ps| && forall i :: 0 <= i < |ps| ==> r[i] == ps[i].id
  {
    seq(|ps|, i requires 0 <= i < |ps| => ps[i].id)
  }

  /** No two products share an id. */
  predicate UniqueIds(ps: seq<Product>) {
    forall i, j :: 0 <= i < j < |ps| ==> ps[i].id != ps[j].id
  }

  // ------------------------------------------------------- list builders

  /** `addProduct(data)`: `[...products, { ...data, id }]`. */
  function AddedProduct(ps: seq<Product>, d: ProductData, id: int): seq<Product> {
    ps + [WithId(d, id)]
  }

  /** `updateProduct(id, patch)`: `products.map(p => p.id === id ? { ...p, ...patch } : p)`. */
  function UpdatedProducts(ps: seq<Product>, id: int, d: Patch): (r: seq<Product>)
    ensures |r| == |ps|
    ensures forall i :: 0 <= i < |ps| ==> r[i] == if ps[i].id == id then Merge(ps[i], d) else ps[i]
  {
    seq(|ps|, i requires 0 <= i < |ps| => if ps[i].id == id then Merge(ps[i], d) else ps[i])
  }

  /** `deleteProduct(id)`: `products.filter(p => p.id !== id)`. */
  function DeletedProduct(ps: seq<Product>, id: int): seq<Product> {
    Seqs.Filter(ps, (p: Product) => p.id != id)
  }

  /** `deleteMultipleProducts(ids)`: `products.filter(p => !ids.includes(p.id))`. */
  function DeletedProducts(ps: seq<Product>, ids: seq<int>): seq<Product> {
    Seqs.Filter(ps, (p: Product) => p.id !in ids)
  }

  /** `bulkUpdateStock(ids, b)`: `products.map(p => ids.includes(p.id) ? { ...p, inStock: b } : p)`. */
  function StockUpdated(ps: seq<Product>, ids: seq<int>, b: bool): (r: seq<Product>)
    ensures |r| == |ps|
    ensures forall i :: 0 <= i < |ps| ==> r[i] == if ps[i].id in ids then ps[i].(inStock := b) else ps[i]
  {
    seq(|ps|, i requires 0 <= i < |ps| => if ps[i].id in ids then ps[i].(inStock := b) else ps[i])
  }

  /**
   * The id-assignment step of `importProducts`: `{ ...p, id: p.id || newId }`, where `supply[i]`
   * stands for the clock-and-random id the source draws for the `i`-th product.
   */
  function WithIds(news: seq<Product>, supply: seq<int>): (r: seq<Product>)
    requires |supply| == |news|
    ensures |r| == |news|
    ensures forall i :: 0 <= i < |news| ==>
      r[i].id == (if news[i].id != 0 then news[i].id else supply[i]) && DataOf(r[i]) == DataOf(news[i])
  {
    seq(|news|, i requires 0 <= i < |news| => if news[i].id != 0 then news[i] else news[i].(id := supply[i]))
  }

  /** `importProducts(news)`: `[...products, ...withIds]`. */
  function ImportedProducts(ps: seq<Product>, news: seq<Product>, supply: seq<int>): seq<Product>
    requires |supply| == |news|
  {
    ps + WithIds(news, supply)
  }

  // ------------------------------------------------------ list properties

  /** `addProduct` appends exactly one product, carrying the supply id, after the untouched old list. */
  lemma AddProductEffect(ps: seq<Product>, d: ProductData, id: int)
    ensures |AddedProduct(ps, d, id)| == |ps| + 1
    ensures AddedProduct(ps, d, id)[..|ps|] == ps
    ensures AddedProduct(ps, d, id)[|ps|].id == id && DataOf(AddedProduct(ps, d, id)[|ps|]) == d
  {
  }

  /** A supply id keeps ids unique. */
  lemma AddProductUnique(ps: seq<Product>, d: ProductData, id: int)
    requires UniqueIds(ps) && id !in Ids(ps)
    ensures UniqueIds(AddedProduct(ps, d, id))
  {
    var r := AddedProduct(ps, d, id);
    forall i, j | 0 <= i < j < |r| ensures r[i].id != r[j].id {
      if j == |ps| { assert Ids(ps)[i] == r[i].id; }
    }
  }

  /** Updating an id that no product has changes nothing. */
  lemma UpdateAbsent(ps: seq<Product>, id: int, d: Patch)
    requires id !in Ids(ps)
    ensures UpdatedProducts(ps, id, d) == ps
  {
    var r := UpdatedProducts(ps, id, d);
    forall i | 0 <= i < |ps| ensures r[i] == ps[i] {
      assert Ids(ps)[i] == ps[i].id;
    }
  }

  /** A patch that does not set the id keeps the ids, and so keeps them unique. */
  lemma UpdateKeepsIds(ps: seq<Product>, id: int, d: Patch)
    requires d.id.None?
    ensures Ids(UpdatedProducts(ps, id, d)) == Ids(ps)
  {
  }

  /** `deleteProduct(id)` removes every product with that id and keeps the rest, with their multiplicities. */
  lemma DeleteProductEffect(ps: seq<Product>, id: int, x: Product)
    ensures x in DeletedProduct(ps, id) <==> x in ps && x.id != id
    ensures multiset(DeletedProduct(ps, id))[x] == if x.id != id then multiset(ps)[x] else 0
  {
    Seqs.FilterMultiplicity(ps, (p: Product) => p.id != id, x);
  }

  /** Deleting an absent id leaves the list unchanged. */
  lemma DeleteAbsent(ps: seq<Product>, id: int)
    requires id !in Ids(ps)
    ensures DeletedProduct(ps, id) == ps
  {
    forall x | x in ps ensures x.id != id {
      var i :| 0 <= i < |ps| && ps[i] == x;
      assert Ids(ps)[i] == x.id;
    }
    Seqs.KeepAll(ps, (p: Product) => p.id != id);
  }

  /** With unique ids, deleting the product at `k` keeps the others in order. */
  lemma DeleteAt(ps: seq<Product>, k: nat)
    requires UniqueIds(ps) && k < |ps|
    ensures DeletedProduct(ps, ps[k].id) == ps[..k] + ps[k + 1..]
  {
    Seqs.FilterDropsOne(ps, (p: Product) => p.id != ps[k].id, k);
  }

  /** `deleteMultipleProducts(ids)` keeps exactly the products whose id is not listed. */
  lemma DeleteManyEffect(ps: seq<Product>, ids: seq<int>, x: Product)
    ensures x in DeletedProducts(ps, ids) <==> x in ps && x.id !in ids
    ensures multiset(DeletedProducts(ps, ids))[x] == if x.id !in ids then multiset(ps)[x] else 0
  {
    Seqs.FilterMultiplicity(ps, (p: Product) => p.id !in ids, x);
  }

  /** `deleteMultipleProducts([x])` is `deleteProduct(x)`. */
  lemma DeleteManySingle(ps: seq<Product>, x: int)
    ensures DeletedProducts(ps, [x]) == DeletedProduct(ps, x)
  {
    Seqs.FilterExt(ps, (p: Product) => p.id !in [x], (p: Product) => p.id != x);
  }

  /** Deleting keeps ids unique. */
  lemma DeleteManyUnique(ps: seq<Product>, ids: seq<int>)
    requires UniqueIds(ps)
    ensures UniqueIds(DeletedProducts(ps, ids))
  {
    Seqs.FilterNoDuplicates(Ids(ps), (i: int) => i !in ids);
    DeletedIds(ps, ids);
  }

  /** The ids of the kept products are the kept ids. */
  lemma {:induction false} DeletedIds(ps: seq<Product>, ids: seq<int>)
    ensures Ids(DeletedProducts(ps, ids)) == Seqs.Filter(Ids(ps), (i: int) => i !in ids)
  {
    if |ps| > 0 {
      var n := |ps| - 1;
      var front, last := ps[..n], ps[n];
      DeletedIds(front, ids);
      assert Ids(ps)[..n] == Ids(front);
      assert Ids(ps)[n] == last.id;
      if last.id !in ids {
        IdsSnoc(DeletedProducts(front, ids), last);
      }
    }
  }

  lemma IdsSnoc(a: seq<Product>, e: Product)
    ensures Ids(a + [e]) == Ids(a) + [e.id]
  {
  }

  /** `bulkUpdateStock` changes only `inStock`, and only on listed products. */
  lemma StockUpdateEffect(ps: seq<Product>, ids: seq<int>, b: bool, i: nat)
    requires i < |ps|
    ensures StockUpdated(ps, ids, b)[i].(inStock := ps[i].inStock) == ps[i]
    ensures ps[i].id in ids ==> StockUpdated(ps, ids, b)[i].inStock == b
    ensures ps[i].id !in ids ==> StockUpdated(ps, ids, b)[i] == ps[i]
  {
  }

  /** `bulkUpdateStock` keeps the ids. */
  lemma StockUpdateKeepsIds(ps: seq<Product>, ids: seq<int>, b: bool)
    ensures Ids(StockUpdated(ps, ids, b)) == Ids(ps)
  {
  }

  /** `importProducts` keeps the old list as a prefix; each new product keeps a non-zero id or gets its supply one. */
  lemma ImportEffect(ps: seq<Product>, news: seq<Product>, supply: seq<int>, i: nat)
    requires |supply| == |news| && i < |news|
    ensures |ImportedProducts(ps, news, supply)| == |ps| + |news|
    ensures ImportedProducts(ps, news, supply)[..|ps|] == ps
    ensures ImportedProducts(ps, news, supply)[|ps| + i].id == if news[i].id != 0 then news[i].id else supply[i]
    ensures DataOf(ImportedProducts(ps, news, supply)[|ps| + i]) == DataOf(news[i])
  {
  }

  /** Products that all carry non-zero ids are appended unchanged. */
  lemma ImportKeepsIds(ps: seq<Product>, news: seq<Product>, supply: seq<int>)
    requires |supply| == |news| && forall i :: 0 <= i < |news| ==> news[i].id != 0
    ensures ImportedProducts(ps, news, supply) == ps + news
  {
  }

  // ----------------------------------------------------------- the gate

  /** The admin-mode and authenticated flags. */
  datatype Gate = Gate(adminMode: bool, authenticated: bool)

  /** `toggleAdminMode()`: flip the mode; entering admin mode forces `authenticated` off. */
  function Toggled(g: Gate): (r: Gate)
    ensures r.adminMode == !g.adminMode
    ensures r.adminMode ==> !r.authenticated
    ensures !r.adminMode ==> r.authenticated == g.authenticated
  {
    Gate(!g.adminMode, if !g.adminMode then false else g.authenticated)
  }

  /** `login(pw)`: the new gate, and whether the password matched. */
  function LoggedIn(g: Gate, pw: string): (r: (Gate, bool))
    ensures r.1 <==> pw == AdminPassword
    ensures r.1 ==> r.0 == g.(authenticated := true)
    ensures !r.1 ==> r.0 == g
  {
    if pw == AdminPassword then (g.(authenticated := true), true) else (g, false)
  }

  /** `logout()`: both flags off. */
  function LoggedOut(g: Gate): Gate {
    Gate(false, false)
  }

  /** Leaving admin mode and coming back always asks for the password again. */
  lemma ToggleTwice(g: Gate)
    requires g.adminMode
    ensures Toggled(Toggled(g)) == Gate(true, false)
  {
  }

  // -------------------------------------------------------------- state

  /** The admin provider's state: the catalogue and the two gate flags. */
  class Catalog {
    var products: seq<Product>
    var isAdminMode: bool
    var isAuthenticated: bool

    function GateOf(): Gate
      reads this
    {
      Gate(isAdminMode, isAuthenticated)
    }

    /** Starts from the saved list, which storage code outside the model supplies, and both flags off. */
    constructor (saved: seq<Product>)
      ensures products == saved && !isAdminMode && !isAuthenticated
    {
      products := saved;
      isAdminMode, isAuthenticated := false, false;
    }

    method ToggleAdminMode()
      modifies this
      ensures GateOf() == Toggled(old(GateOf())) && products == old(products)
    {
      if !isAdminMode {
        isAuthenticated := false;
      }
      isAdminMode := !isAdminMode;
    }

    method Login(pw: string) returns (ok: bool)
      modifies this
      ensures (GateOf(), ok) == LoggedIn(old(GateOf()), pw) && products == old(products)
    {
      if pw == AdminPassword {
        isAuthenticated := true;
        return true;
      }
      return false;
    }

    method Logout()
      modifies this
      ensures GateOf() == LoggedOut(old(GateOf())) && products == old(products)
    {
      isAuthenticated := false;
      isAdminMode := false;
    }

    method AddProduct(d: ProductData, id: int)
      modifies this
      ensures products == AddedProduct(old(products), d, id) && GateOf() == old(GateOf())
    {
      products := products + [WithId(d, id)];
    }

    method UpdateProduct(id: int, d: Patch)
      modifies this
      ensures products == UpdatedProducts(old(products), id, d) && GateOf() == old(GateOf())
    {
      products := UpdatedProducts(products, id, d);
    }

    method DeleteProduct(id: int)
      modifies this
      ensures products == DeletedProduct(old(products), id) && GateOf() == old(GateOf())
    {
      products := DeletedProduct(products, id);
    }

    method DeleteMultipleProducts(ids: seq<int>)
      modifies this
      ensures products == DeletedProducts(old(products), ids) && GateOf() == old(GateOf())
    {
      products := DeletedProducts(products, ids);
    }

    method BulkUpdateStock(ids: seq<int>, b: bool)
      modifies this
      ensures products == StockUpdated(old(products), ids, b) && GateOf() == old(GateOf())
    {
      products := StockUpdated(products, ids, b);
    }

    method ImportProducts(news: seq<Product>, supply: seq<int>)
      requires |supply| == |news|
      modifies this
      ensures products == ImportedProducts(old(products), news, supply) && GateOf() == old(GateOf())
    {
      products := products + WithIds(news, supply);
    }
  }
}
