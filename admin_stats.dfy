/** The figures of the admin dashboard: stock counts, inventory value, categories and brands. */
module AdminStats {
  import opened Wrappers
  import opened Products
  import Seqs

  /** The `stats` object. */
  datatype Stats = Stats(totalProducts: nat, inStock: nat, outOfStock: nat, totalValue: real)

  function InStockTest(): Product -> bool {
    (p: Product) => p.inStock
  }

  function OutOfStockTest(): Product -> bool {
    (p: Product) => !p.inStock
  }

  /** `products.reduce((sum, p) => sum + (p.discountPrice || p.price), 0)`. */
  function TotalValue(ps: seq<Product>): real {
    if |ps| == 0 then 0.0 else TotalValue(ps[..|ps| - 1]) + EffectivePrice(ps[|ps| - 1])
  }

  function StatsOf(ps: seq<Product>): Stats {
    Stats(|ps|, |Seqs.Filter(ps, InStockTest())|, |Seqs.Filter(ps, OutOfStockTest())|, TotalValue(ps))
  }

  /** Every product is counted once, either in stock or out of stock. */
  lemma StockCountsPartition(ps: seq<Product>)
    ensures StatsOf(ps).inStock + StatsOf(ps).outOfStock == StatsOf(ps).totalProducts == |ps|
  {
    Seqs.FilterPartition(ps, InStockTest(), OutOfStockTest());
  }

  /** The inventory value adds up over any split of the list. */
  lemma {:induction false} TotalValueAppend(a: seq<Product>, b: seq<Product>)
    ensures TotalValue(a + b) == TotalValue(a) + TotalValue(b)
  {
    if |b| == 0 {
      assert a + b == a;
    } else {
      var front := b[..|b| - 1];
      assert (a + b)[..|a + b| - 1] == a + front;
      TotalValueAppend(a, front);
    }
  }

  /** The value counts one unit per product: changing stock flags does not change it. */
  lemma {:induction false} TotalValueIgnoresStock(ps: seq<Product>, qs: seq<Product>)
    requires |qs| == |ps|
    requires forall i :: 0 <= i < |ps| ==> qs[i] == ps[i].(inStock := qs[i].inStock)
    ensures TotalValue(qs) == TotalValue(ps)
  {
    if |ps| > 0 {
      TotalValueIgnoresStock(ps[..|ps| - 1], qs[..|qs| - 1]);
    }
  }

  /** `[...new Set(xs)]`: each value once, at its first appearance. */
  function Dedup(xs: seq<string>): (r: seq<string>)
    ensures Seqs.NoDuplicates(r)
    ensures forall x :: x in r <==> x in xs
    ensures |r| <= |xs|
  {
    if |xs| == 0 then []
    else
      var d := Dedup(xs[..|xs| - 1]);
      assert forall x :: x in xs <==> x in xs[..|xs| - 1] || x == xs[|xs| - 1];
      if xs[|xs| - 1] in d then d else d + [xs[|xs| - 1]]
  }

  /** First-appearance order: the distinct values of a prefix come first, in the same order. */
  lemma {:induction false} DedupPrefix(xs: seq<string>, k: nat)
    requires k <= |xs|
    ensures |Dedup(xs[..k])| <= |Dedup(xs)| && Dedup(xs)[..|Dedup(xs[..k])|] == Dedup(xs[..k])
    decreases |xs|
  {
    if k < |xs| {
      var front := xs[..|xs| - 1];
      assert front[..k] == xs[..k];
      DedupPrefix(front, k);
    } else {
      assert xs[..k] == xs;
    }
  }

  /** `products.map(p => p.category)`. */
  function CategoryList(ps: seq<Product>): (r: seq<string>)
    ensures |r| == |ps| && forall i :: 0 <= i < |ps| ==> r[i] == ps[i].category
  {
    seq(|ps|, i requires 0 <= i < |ps| => ps[i].category)
  }

  function Categories(ps: seq<Product>): seq<string> {
    Dedup(CategoryList(ps))
  }

  /** `products.map(p => p.brand).filter(Boolean)`: the brands that are present and non-empty. */
  function BrandList(ps: seq<Product>): (r: seq<string>)
    ensures forall b :: b in r <==> b != "" && exists i :: 0 <= i < |ps| && ps[i].brand == Some(b)
  {
    if |ps| == 0 then []
    else
      var front := BrandList(ps[..|ps| - 1]);
      var last := ps[|ps| - 1];
      assert forall i :: 0 <= i < |ps| - 1 ==> ps[..|ps| - 1][i] == ps[i];
      if last.brand.Some? && last.brand.value != "" then front + [last.brand.value] else front
  }

  function Brands(ps: seq<Product>): seq<string> {
    Dedup(BrandList(ps))
  }

  /** `categories` holds each product's category exactly once. */
  lemma CategoriesExactly(ps: seq<Product>, c: string)
    ensures Seqs.NoDuplicates(Categories(ps))
    ensures c in Categories(ps) <==> exists i :: 0 <= i < |ps| && ps[i].category == c
  {
    if c in CategoryList(ps) {
      var i :| 0 <= i < |ps| && CategoryList(ps)[i] == c;
    }
  }

  /** `brands` holds each non-empty brand exactly once, and no empty or missing brand. */
  lemma BrandsExactly(ps: seq<Product>, b: string)
    ensures Seqs.NoDuplicates(Brands(ps)) && "" !in Brands(ps)
    ensures b in Brands(ps) <==> b != "" && exists i :: 0 <= i < |ps| && ps[i].brand == Some(b)
  {
  }

  function CategoryTest(c: string): Product -> bool {
    (p: Product) => p.category == c
  }

  /** `products.filter(p => p.category === category).length`. */
  function CategoryCount(ps: seq<Product>, c: string): nat {
    |Seqs.Filter(ps, CategoryTest(c))|
  }

  /** The counts shown next to the given categories, added up. */
  function CountsSum(ps: seq<Product>, cats: seq<string>): nat {
    if |cats| == 0 then 0 else CountsSum(ps, cats[..|cats| - 1]) + CategoryCount(ps, cats[|cats| - 1])
  }

  lemma FilterSnoc(u: seq<Product>, e: Product, f: Product -> bool)
    ensures Seqs.Filter(u + [e], f) == Seqs.Filter(u, f) + (if f(e) then [e] else [])
  {
    Seqs.FilterAppend(u, [e], f);
    assert [e][..0] == [];
  }

  /** How often `c` occurs in `cats`. */
  function Occurrences(cats: seq<string>, c: string): nat {
    if |cats| == 0 then 0
    else Occurrences(cats[..|cats| - 1], c) + (if cats[|cats| - 1] == c then 1 else 0)
  }

  lemma CategoryCountSnoc(front: seq<Product>, last: Product, c: string)
    ensures CategoryCount(front + [last], c) == CategoryCount(front, c) + (if last.category == c then 1 else 0)
  {
    FilterSnoc(front, last, CategoryTest(c));
  }

  /** One more product adds one to the count of each listed occurrence of its category. */
  lemma {:induction false} CountsSumSnoc(front: seq<Product>, last: Product, cats: seq<string>)
    ensures CountsSum(front + [last], cats) == CountsSum(front, cats) + Occurrences(cats, last.category)
  {
    if |cats| > 0 {
      var init := cats[..|cats| - 1];
      var c := cats[|cats| - 1];
      CountsSumSnoc(front, last, init);
      CategoryCountSnoc(front, last, c);
    }
  }

  /** A duplicate-free list holds each value at most once. */
  lemma {:induction false} NoDupOccurrences(cats: seq<string>, c: string)
    requires Seqs.NoDuplicates(cats)
    ensures Occurrences(cats, c) == if c in cats then 1 else 0
  {
    if |cats| > 0 {
      var init := cats[..|cats| - 1];
      assert Seqs.NoDuplicates(init);
      NoDupOccurrences(init, c);
      assert cats == init + [cats[|cats| - 1]];
      assert cats[|cats| - 1] !in init;
    }
  }

  /** A category no product has counts zero. */
  lemma NoCategoryNoCount(ps: seq<Product>, c: string)
    requires c !in Categories(ps)
    ensures CategoryCount(ps, c) == 0
  {
    forall p | p in ps ensures !CategoryTest(c)(p) {
      var i :| 0 <= i < |ps| && ps[i] == p;
      assert CategoryList(ps)[i] == p.category;
    }
    Seqs.FilterNone(ps, CategoryTest(c));
  }

  /** The per-category counts of the dashboard add up to the number of products. */
  lemma {:induction false} CategoryCountsTotal(ps: seq<Product>)
    ensures CountsSum(ps, Categories(ps)) == |ps|
  {
    if |ps| > 0 {
      var front := ps[..|ps| - 1];
      var last := ps[|ps| - 1];
      var lc := last.category;
      assert ps == front + [last];
      assert CategoryList(ps) == CategoryList(front) + [lc];
      assert CategoryList(ps)[..|ps| - 1] == CategoryList(front);
      var cats := Categories(front);
      CategoryCountsTotal(front);
      CountsSumSnoc(front, last, cats);
      NoDupOccurrences(cats, lc);
      if lc !in cats {
        assert Categories(ps) == cats + [lc];
        assert (cats + [lc])[..|cats|] == cats;
        NoCategoryNoCount(front, lc);
        CategoryCountSnoc(front, last, lc);
      }
    }
  }

  /** `brands.slice(0, 8)`: the first eight brands. */
  function TopBrands(ps: seq<Product>): (r: seq<string>)
    ensures |r| <= 8 && |r| <= |Brands(ps)| && r == Brands(ps)[..|r|]
    ensures |Brands(ps)| <= 8 ==> r == Brands(ps)
  {
    var bs := Brands(ps);
    if |bs| <= 8 then bs else bs[..8]
  }

  /** Every listed category and brand has a positive count. */
  lemma ListedCountsPositive(ps: seq<Product>, c: string, b: string)
    requires c in Categories(ps) && b in TopBrands(ps)
    ensures CategoryCount(ps, c) > 0
    ensures |Seqs.Filter(ps, (p: Product) => p.brand == Some(b))| > 0
  {
    CategoryCountPositive(ps, c);
    assert b in Brands(ps);
    BrandCountPositive(ps, b);
  }

  lemma CategoryCountPositive(ps: seq<Product>, c: string)
    requires c in Categories(ps)
    ensures CategoryCount(ps, c) > 0
  {
    CategoriesExactly(ps, c);
    var i :| 0 <= i < |ps| && ps[i].category == c;
    assert ps[i] in Seqs.Filter(ps, CategoryTest(c));
  }

  lemma BrandCountPositive(ps: seq<Product>, b: string)
    requires b in Brands(ps)
    ensures |Seqs.Filter(ps, (p: Product) => p.brand == Some(b))| > 0
  {
    BrandsExactly(ps, b);
    var j :| 0 <= j < |ps| && ps[j].brand == Some(b);
    assert ps[j] in Seqs.Filter(ps, (p: Product) => p.brand == Some(b));
  }
}
