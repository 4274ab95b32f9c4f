/**
 * The query engine behind the storefront's product grid: the search / category / brand /
 * price filter, the five sort orders, and the filter panel state.
 */
module QueryEngine {
  import opened Wrappers
  import opened Products
  import opened JsText
  import Seqs

  /** The price-range text boxes, as typed. */
  datatype PriceRange = PriceRange(min: string, max: string)

  /** Everything the grid's filtered list depends on. */
  datatype Query = Query(search: string, category: string, brand: string, sortBy: string, range: PriceRange)

  // ------------------------------------------------------------- filter

  /** `searchQuery && searchQuery.trim()`: the search applies only to non-blank text. */
  predicate SearchActive(search: string) {
    search != "" && Trim(search) != ""
  }

  /** The trimmed, lower-cased term occurs in the lower-cased name, category, specs or brand. */
  predicate MatchesSearch(p: Product, search: string) {
    var term := Trim(Lower(search));
    Contains(Lower(p.name), term) || Contains(Lower(p.category), term) ||
    Contains(Lower(p.specs), term) || Contains(Lower(p.brand.GetOr("")), term)
  }

  /** `bound && price < parseInt(bound)`: a bound that does not parse imposes nothing. */
  predicate BelowMin(price: real, bound: string) {
    bound != "" && match ParseInt(bound) { case Some(n) => price < n as real case None => false }
  }

  predicate AboveMax(price: real, bound: string) {
    bound != "" && match ParseInt(bound) { case Some(n) => price > n as real case None => false }
  }

  /** The filter callback of `filteredProducts`. */
  predicate Passes(p: Product, q: Query) {
    (!SearchActive(q.search) || MatchesSearch(p, q.search)) &&
    (q.category == "All" || p.category == q.category) &&
    (q.brand == "All" || p.brand == Some(q.brand)) &&
    !BelowMin(EffectivePrice(p), q.range.min) &&
    !AboveMax(EffectivePrice(p), q.range.max)
  }

  function PassTest(q: Query): Product -> bool {
    (p: Product) => Passes(p, q)
  }

  /** `allProducts.filter(...)`. */
  function Filtered(ps: seq<Product>, q: Query): seq<Product> {
    Seqs.Filter(ps, PassTest(q))
  }

  /** `adminProducts.length > 0 ? adminProducts : (propProducts || [])`. */
  function AllProducts(admin: seq<Product>, given: Option<seq<Product>>): (r: seq<Product>)
    ensures |admin| > 0 ==> r == admin
    ensures |admin| == 0 ==> r == given.GetOr([])
    ensures |r| == 0 <==> |admin| == 0 && (given.None? || |given.value| == 0)
  {
    if |admin| > 0 then admin else given.GetOr([])
  }

  // --------------------------------------------------------------- sort

  datatype SortKey = ByName | PriceLow | PriceHigh | ByRating | ByDiscount

  /** The `switch (sortBy)`: any other value falls to the name order. */
  function KeyOf(sortBy: string): SortKey {
    if sortBy == "price-low" then PriceLow
    else if sortBy == "price-high" then PriceHigh
    else if sortBy == "rating" then ByRating
    else if sortBy == "discount" then ByDiscount
    else ByName
  }

  /** The comparator returns a negative number: `a` goes strictly before `b`. */
  predicate Before(k: SortKey, a: Product, b: Product) {
    match k
    case PriceLow => EffectivePrice(a) < EffectivePrice(b)
    case PriceHigh => EffectivePrice(b) < EffectivePrice(a)
    case ByRating => RatingOrZero(b) < RatingOrZero(a)
    case ByDiscount => DiscountOf(b) < DiscountOf(a)
    case ByName => TextLess(a.name, b.name)
  }

  lemma BeforeIrreflexive(k: SortKey, a: Product)
    ensures !Before(k, a, a)
  {
    if k == ByName { TextLessIrreflexive(a.name); }
  }

  lemma BeforeTransitive(k: SortKey, a: Product, b: Product, c: Product)
    requires Before(k, a, b) && Before(k, b, c)
    ensures Before(k, a, c)
  {
    if k == ByName { TextLessTransitive(a.name, b.name, c.name); }
  }

  /** Every comparator is a strict weak order: if `a` precedes `c`, any `b` precedes `c` or follows `a`. */
  lemma BeforeNegTransitive(k: SortKey, a: Product, b: Product, c: Product)
    requires Before(k, a, c)
    ensures Before(k, a, b) || Before(k, b, c)
  {
    if k == ByName {
      if a.name == b.name {
      } else if TextLess(b.name, a.name) {
        TextLessTransitive(b.name, a.name, c.name);
      } else {
        TextLessTotal(a.name, b.name);
      }
    }
  }

  lemma BeforeAsymmetric(k: SortKey, a: Product, b: Product)
    requires Before(k, a, b)
    ensures !Before(k, b, a)
  {
    if Before(k, b, a) {
      BeforeTransitive(k, a, b, a);
      BeforeIrreflexive(k, a);
    }
  }

  /** No element is out of order with a later one. */
  predicate Sorted(k: SortKey, s: seq<Product>) {
    forall i, j :: 0 <= i < j < |s| ==> !Before(k, s[j], s[i])
  }

  /** Inserts `x` after every element of the sorted `t` that it does not strictly precede. */
  function Insert(k: SortKey, t: seq<Product>, x: Product): seq<Product> {
    if |t| == 0 || !Before(k, x, t[|t| - 1]) then t + [x]
    else Insert(k, t[..|t| - 1], x) + [t[|t| - 1]]
  }

  /** A stable sort: insertion of each element in turn, from left to right. */
  function SortBy(k: SortKey, s: seq<Product>): seq<Product> {
    if |s| == 0 then [] else Insert(k, SortBy(k, s[..|s| - 1]), s[|s| - 1])
  }

  lemma {:induction false} InsertPermutes(k: SortKey, t: seq<Product>, x: Product)
    ensures |Insert(k, t, x)| == |t| + 1
    ensures multiset(Insert(k, t, x)) == multiset(t) + multiset{x}
  {
    if |t| > 0 && Before(k, x, t[|t| - 1]) {
      var front := t[..|t| - 1];
      InsertPermutes(k, front, x);
      assert t == front + [t[|t| - 1]];
    }
  }

  lemma {:induction false} InsertSorted(k: SortKey, t: seq<Product>, x: Product)
    requires Sorted(k, t)
    ensures Sorted(k, Insert(k, t, x))
  {
    if |t| == 0 || !Before(k, x, t[|t| - 1]) {
      assert Insert(k, t, x) == t + [x];
      forall i | 0 <= i < |t| ensures !Before(k, x, t[i]) {
        if Before(k, x, t[i]) {
          if i < |t| - 1 {
            BeforeNegTransitive(k, x, t[|t| - 1], t[i]);
          }
        }
      }
      SortedSnoc(k, t, x);
    } else {
      var front := t[..|t| - 1];
      var e := t[|t| - 1];
      var r' := Insert(k, front, x);
      assert Insert(k, t, x) == r' + [e];
      assert Sorted(k, front) by {
        forall i, j | 0 <= i < j < |front| ensures !Before(k, front[j], front[i]) {
          assert front[i] == t[i] && front[j] == t[j];
        }
      }
      InsertSorted(k, front, x);
      InsertPermutes(k, front, x);
      forall i | 0 <= i < |r'| ensures !Before(k, e, r'[i]) {
        assert r'[i] in multiset(front) + multiset{x};
        if r'[i] == x {
          BeforeAsymmetric(k, x, e);
        } else {
          var m :| 0 <= m < |front| && front[m] == r'[i];
          assert t[m] == r'[i];
        }
      }
      SortedSnoc(k, r', e);
    }
  }

  /** Appending an element that goes before none of a sorted list keeps it sorted. */
  lemma SortedSnoc(k: SortKey, u: seq<Product>, e: Product)
    requires Sorted(k, u)
    requires forall i :: 0 <= i < |u| ==> !Before(k, e, u[i])
    ensures Sorted(k, u + [e])
  {
    var r := u + [e];
    forall i, j | 0 <= i < j < |r| ensures !Before(k, r[j], r[i]) {
      if j < |u| {
        assert r[i] == u[i] && r[j] == u[j];
      } else {
        assert r[i] == u[i] && r[j] == e;
      }
    }
  }

  /** The sort returns a sorted permutation of its input. */
  lemma {:induction false} SortByCorrect(k: SortKey, s: seq<Product>)
    ensures Sorted(k, SortBy(k, s))
    ensures multiset(SortBy(k, s)) == multiset(s)
  {
    if |s| > 0 {
      var n := |s| - 1;
      var front, last := s[..n], s[n];
      var t := SortBy(k, front);
      assert SortBy(k, s) == Insert(k, t, last);
      SortByCorrect(k, front);
      InsertSorted(k, t, last);
      InsertPermutes(k, t, last);
      assert multiset(s) == multiset(front) + multiset{last} by {
        Seqs.Snoc(s);
      }
    }
  }

  /** Sorting a sorted list returns it unchanged. */
  lemma {:induction false} SortBySortedFixpoint(k: SortKey, s: seq<Product>)
    requires Sorted(k, s)
    ensures SortBy(k, s) == s
  {
    if |s| > 0 {
      var n := |s| - 1;
      var front, last := s[..n], s[n];
      SortedFront(k, s);
      SortBySortedFixpoint(k, front);
      assert SortBy(k, s) == Insert(k, front, last);
      assert Insert(k, front, last) == front + [last];
      Seqs.Snoc(s);
    }
  }

  /** The front of a sorted list is sorted, and its last element does not go before the one ahead of it. */
  lemma SortedFront(k: SortKey, s: seq<Product>)
    requires |s| > 0 && Sorted(k, s)
    ensures Sorted(k, s[..|s| - 1])
    ensures |s| == 1 || !Before(k, s[|s| - 1], s[..|s| - 1][|s| - 2])
  {
    var front := s[..|s| - 1];
    forall i, j | 0 <= i < j < |front| ensures !Before(k, front[j], front[i]) {
      assert front[i] == s[i] && front[j] == s[j];
    }
    if |s| > 1 {
      assert front[|s| - 2] == s[|s| - 2];
    }
  }

  /** Sorting is idempotent. */
  lemma SortByIdempotent(k: SortKey, s: seq<Product>)
    ensures SortBy(k, SortBy(k, s)) == SortBy(k, s)
  {
    SortByCorrect(k, s);
    SortBySortedFixpoint(k, SortBy(k, s));
  }

  /** Neither precedes the other: the comparator returns 0. */
  predicate Tied(k: SortKey, a: Product, b: Product) {
    !Before(k, a, b) && !Before(k, b, a)
  }

  function TieTest(k: SortKey, y: Product): Product -> bool {
    (z: Product) => Tied(k, z, y)
  }

  /** The elements of `s` that tie with `y`, in their order in `s`. */
  function TiedWith(k: SortKey, s: seq<Product>, y: Product): seq<Product> {
    Seqs.Filter(s, TieTest(k, y))
  }

  lemma FilterSingle(x: Product, f: Product -> bool)
    ensures Seqs.Filter([x], f) == if f(x) then [x] else []
  {
    assert [x][..0] == [];
  }

  /** Appending one element to a filtered sequence. */
  lemma FilterSnoc(u: seq<Product>, e: Product, f: Product -> bool)
    ensures Seqs.Filter(u + [e], f) == Seqs.Filter(u, f) + (if f(e) then [e] else [])
  {
    Seqs.FilterAppend(u, [e], f);
    FilterSingle(e, f);
  }

  /** Two elements that straddle an order step cannot both tie with the same `y`. */
  lemma NotBothTied(k: SortKey, x: Product, e: Product, y: Product)
    requires Before(k, x, e)
    ensures !(TieTest(k, y)(x) && TieTest(k, y)(e))
  {
    if Tied(k, x, y) {
      BeforeNegTransitive(k, x, y, e);
    }
  }

  /** Moving `x` past an `e` that cannot pass together with it leaves the filtered order alone. */
  lemma SnocSwap(r: seq<Product>, u: seq<Product>, x: Product, e: Product, f: Product -> bool)
    requires Seqs.Filter(r, f) == Seqs.Filter(u, f) + (if f(x) then [x] else [])
    requires !(f(x) && f(e))
    ensures Seqs.Filter(r + [e], f) == Seqs.Filter(u + [e], f) + (if f(x) then [x] else [])
  {
    FilterSnoc(r, e, f);
    FilterSnoc(u, e, f);
    var lhs := Seqs.Filter(u, f);
    if f(x) {
      assert lhs + [x] + [] == lhs + [x] && lhs + [] == lhs;
    } else {
      assert lhs + [] == lhs;
    }
  }

  lemma {:induction false} InsertTied(k: SortKey, t: seq<Product>, x: Product, y: Product)
    ensures TiedWith(k, Insert(k, t, x), y) == TiedWith(k, t, y) + (if TieTest(k, y)(x) then [x] else [])
  {
    var f := TieTest(k, y);
    if |t| == 0 || !Before(k, x, t[|t| - 1]) {
      assert Insert(k, t, x) == t + [x];
      FilterSnoc(t, x, f);
    } else {
      var front := t[..|t| - 1];
      var e := t[|t| - 1];
      var r := Insert(k, front, x);
      assert Insert(k, t, x) == r + [e];
      assert t == front + [e];
      assert TiedWith(k, r, y) == TiedWith(k, front, y) + (if f(x) then [x] else []) by {
        InsertTied(k, front, x, y);
      }
      NotBothTied(k, x, e, y);
      SnocSwap(r, front, x, e, f);
    }
  }

  /** Stability: the elements that tie with any `y` keep their relative input order. */
  lemma {:induction false} SortByStable(k: SortKey, s: seq<Product>, y: Product)
    ensures TiedWith(k, SortBy(k, s), y) == TiedWith(k, s, y)
  {
    if |s| > 0 {
      var front := s[..|s| - 1];
      var last := s[|s| - 1];
      assert SortBy(k, s) == Insert(k, SortBy(k, front), last);
      assert s == front + [last];
      SortByStable(k, front, y);
      InsertTied(k, SortBy(k, front), last, y);
      FilterSnoc(front, last, TieTest(k, y));
    }
  }

  /** What "sorted" means for each of the five orders. */
  lemma SortedMeaning(k: SortKey, s: seq<Product>, i: nat, j: nat)
    requires Sorted(k, s) && i < j < |s|
    ensures k == PriceLow ==> EffectivePrice(s[i]) <= EffectivePrice(s[j])
    ensures k == PriceHigh ==> EffectivePrice(s[i]) >= EffectivePrice(s[j])
    ensures k == ByRating ==> RatingOrZero(s[i]) >= RatingOrZero(s[j])
    ensures k == ByDiscount ==> DiscountOf(s[i]) >= DiscountOf(s[j])
    ensures k == ByName ==> !TextLess(s[j].name, s[i].name)
  {
    assert !Before(k, s[j], s[i]);
  }

  // -------------------------------------------------------------- query

  /** `filteredProducts`: nothing for an empty list, else the filtered products in sort order. */
  function Results(ps: seq<Product>, q: Query): seq<Product> {
    if |ps| == 0 then [] else SortBy(KeyOf(q.sortBy), Filtered(ps, q))
  }

  /** The result holds exactly the passing products, as a sub-multiset of the input, in sort order. */
  lemma ResultsCorrect(ps: seq<Product>, q: Query, x: Product)
    ensures x in Results(ps, q) <==> x in ps && Passes(x, q)
    ensures multiset(Results(ps, q)) <= multiset(ps) && |Results(ps, q)| <= |ps|
    ensures Sorted(KeyOf(q.sortBy), Results(ps, q))
    ensures TiedWith(KeyOf(q.sortBy), Results(ps, q), x) == TiedWith(KeyOf(q.sortBy), Filtered(ps, q), x)
  {
    ResultsMembers(ps, q, x);
    ResultsOrder(ps, q, x);
  }

  lemma ResultsMembers(ps: seq<Product>, q: Query, x: Product)
    ensures x in Results(ps, q) <==> x in ps && Passes(x, q)
    ensures multiset(Results(ps, q)) <= multiset(ps) && |Results(ps, q)| <= |ps|
  {
    if |ps| > 0 {
      var k := KeyOf(q.sortBy);
      var f := Filtered(ps, q);
      var r := SortBy(k, f);
      assert multiset(r) == multiset(f) by { SortByCorrect(k, f); }
      assert |r| == |f| by {
        assert |multiset(r)| == |multiset(f)|;
      }
      assert x in r <==> x in f by {
        assert x in r <==> x in multiset(r);
        assert x in f <==> x in multiset(f);
      }
      assert x in f <==> x in ps && PassTest(q)(x);
    }
  }

  lemma ResultsOrder(ps: seq<Product>, q: Query, x: Product)
    ensures Sorted(KeyOf(q.sortBy), Results(ps, q))
    ensures TiedWith(KeyOf(q.sortBy), Results(ps, q), x) == TiedWith(KeyOf(q.sortBy), Filtered(ps, q), x)
  {
    var k := KeyOf(q.sortBy);
    var f := Filtered(ps, q);
    SortByCorrect(k, f);
    SortByStable(k, f, x);
    if |ps| == 0 {
      assert f == [];
    }
  }

  /** A blank search, both "All" and an empty price range let every product through. */
  lemma NoFilterPassesAll(ps: seq<Product>, q: Query)
    requires Trim(q.search) == "" && q.category == "All" && q.brand == "All" && q.range == PriceRange("", "")
    ensures Filtered(ps, q) == ps
    ensures multiset(Results(ps, q)) == multiset(ps)
  {
    Seqs.KeepAll(ps, PassTest(q));
    SortByCorrect(KeyOf(q.sortBy), ps);
  }

  /** The search term only counts when it is non-blank after trimming. */
  lemma BlankSearchIgnored(p: Product, q: Query)
    requires Trim(q.search) == ""
    ensures Passes(p, q) == Passes(p, q.(search := ""))
  {
  }

  /** A product without a brand is excluded by any brand other than "All". */
  lemma BrandlessExcluded(p: Product, q: Query)
    requires p.brand.None? && q.brand != "All"
    ensures !Passes(p, q)
  {
  }

  /** The bounds are inclusive and apply to the effective price. */
  lemma PriceBounds(p: Product, q: Query, lo: int, hi: int)
    requires Passes(p, q)
    ensures q.range.min != "" && ParseInt(q.range.min) == Some(lo) ==> EffectivePrice(p) >= lo as real
    ensures q.range.max != "" && ParseInt(q.range.max) == Some(hi) ==> EffectivePrice(p) <= hi as real
  {
  }

  /**
   * The price tests exactly: a product that passes the search, category and brand tests passes
   * the grid's filter iff its effective price is at least a parsed minimum and at most a parsed
   * maximum, so a price equal to a bound is kept; a blank or unparsable bound imposes nothing.
   */
  lemma PriceRangeInclusive(p: Product, q: Query)
    requires !SearchActive(q.search) || MatchesSearch(p, q.search)
    requires q.category == "All" || p.category == q.category
    requires q.brand == "All" || p.brand == Some(q.brand)
    ensures Passes(p, q) <==>
      (q.range.min == "" || ParseInt(q.range.min).None? || ParseInt(q.range.min).value as real <= EffectivePrice(p)) &&
      (q.range.max == "" || ParseInt(q.range.max).None? || EffectivePrice(p) <= ParseInt(q.range.max).value as real)
  {
  }

  /** A bound that is not a number (`parseInt` gives NaN) filters nothing out. */
  lemma UnparsableBoundIgnored(p: Product, q: Query)
    requires ParseInt(q.range.min) == None && ParseInt(q.range.max) == None
    ensures Passes(p, q) == Passes(p, q.(range := PriceRange("", "")))
  {
  }

  /** A product at 80% of its price ranks above one at 95% under "discount", whatever the prices. */
  lemma DiscountRanking(a: Product, b: Product)
    requires a.price > 0.0 && a.discountPrice == Some(a.price * 0.8)
    requires b.price > 0.0 && b.discountPrice == Some(b.price * 0.95)
    ensures Before(ByDiscount, a, b)
  {
    assert (a.price - a.price * 0.8) / a.price == 0.2;
    assert (b.price - b.price * 0.95) / b.price == 0.05;
  }

  // ------------------------------------------------------------ methods

  /** `Insert` puts `x` after the last element it does not go before, and shifts the rest right. */
  lemma {:induction false} InsertAt(k: SortKey, t: seq<Product>, x: Product, j: nat)
    requires j <= |t| && (j == 0 || !Before(k, x, t[j - 1]))
    requires forall m :: j <= m < |t| ==> Before(k, x, t[m])
    ensures Insert(k, t, x) == t[..j] + [x] + t[j..]
  {
    if j < |t| {
      var n := |t| - 1;
      var front := t[..n];
      assert Before(k, x, t[n]);
      InsertAt(k, front, x, j);
      assert front[..j] == t[..j];
      assert front[j..] + [t[n]] == t[j..];
    }
  }

  /** The array during the shifting loop: the prefix before the gap, the gap, the shifted part, the untouched rest. */
  lemma ShiftStep(s: seq<Product>, t: seq<Product>, rest: seq<Product>, j: nat)
    requires 0 < j <= |t| && j < |s| && s == t[..j] + [s[j]] + t[j..] + rest
    ensures s[j := s[j - 1]] == t[..j - 1] + [s[j - 1]] + t[j - 1..] + rest
  {
    assert s[j - 1] == t[j - 1];
    assert t[..j] == t[..j - 1] + [t[j - 1]];
    assert t[j - 1..] == [t[j - 1]] + t[j..];
  }

  /** Filling the gap with `x` leaves the inserted prefix followed by the untouched rest. */
  lemma FillGap(s: seq<Product>, t: seq<Product>, rest: seq<Product>, x: Product, j: nat)
    requires j <= |t| && j < |s| && s == t[..j] + [s[j]] + t[j..] + rest
    ensures |s| == |t| + 1 + |rest|
    ensures s[j := x][..|t| + 1] == t[..j] + [x] + t[j..]
    ensures s[j := x][|t| + 1..] == rest
  {
    assert s[j := x] == (t[..j] + [x] + t[j..]) + rest;
  }

  /** One insertion step: shifts the larger elements of the sorted prefix `a[..i]` right and drops `a[i]` in. */
  method InsertStep(a: array<Product>, i: nat, k: SortKey)
    requires i < a.Length
    modifies a
    ensures a[..i + 1] == Insert(k, old(a[..i]), old(a[i]))
    ensures a[i + 1..] == old(a[i + 1..])
  {
    var x := a[i];
    ghost var t := a[..i];
    ghost var rest := a[i + 1..];
    assert a[..] == t[..i] + [a[i]] + t[i..] + rest;
    var j := i;
    while j > 0 && Before(k, x, a[j - 1])
      invariant 0 <= j <= i
      invariant a[..] == t[..j] + [a[j]] + t[j..] + rest
      invariant forall m :: j <= m < i ==> Before(k, x, t[m])
    {
      ShiftStep(a[..], t, rest, j);
      a[j] := a[j - 1];
      j := j - 1;
    }
    ghost var s := a[..];
    FillGap(s, t, rest, x, j);
    InsertAt(k, t, x, j);
    a[j] := x;
    assert a[..] == s[j := x];
  }

  /** After `i` steps the array holds the sorted first `i` elements followed by the untouched rest. */
  lemma SortStep(k: SortKey, s: seq<Product>, i: nat, before: seq<Product>, after: seq<Product>)
    requires i < |s| && i < |before| && |after| == |before|
    requires before == SortBy(k, s[..i]) + s[i..]
    requires after[..i + 1] == Insert(k, before[..i], before[i]) && after[i + 1..] == before[i + 1..]
    ensures after == SortBy(k, s[..i + 1]) + s[i + 1..]
  {
    var sorted := SortBy(k, s[..i]);
    assert |sorted| == i by {
      SortByCorrect(k, s[..i]);
      assert |multiset(sorted)| == |multiset(s[..i])|;
    }
    assert before[..i] == sorted && before[i] == s[i];
    assert s[..i + 1][..i] == s[..i];
    assert SortBy(k, s[..i + 1]) == Insert(k, sorted, s[i]);
    assert before[i + 1..] == s[i + 1..];
    assert after == after[..i + 1] + after[i + 1..];
  }

  /** `filtered.sort(comparator)`: an in-place stable insertion sort. */
  method SortInPlace(a: array<Product>, k: SortKey)
    modifies a
    ensures a[..] == SortBy(k, old(a[..]))
  {
    ghost var s := a[..];
    var i := 0;
    assert s[..0] == [] && s[0..] == s;
    while i < a.Length
      invariant 0 <= i <= a.Length
      invariant a[..] == SortBy(k, s[..i]) + s[i..]
    {
      ghost var before := a[..];
      InsertStep(a, i, k);
      SortStep(k, s, i, before, a[..]);
      i := i + 1;
    }
    assert s[..a.Length] == s && s[a.Length..] == [];
  }

  /** The grid's list, computed the way the component does it: filter, then sort a fresh array. */
  method RunQuery(ps: seq<Product>, q: Query) returns (r: seq<Product>)
    ensures r == Results(ps, q)
  {
    if |ps| == 0 {
      return [];
    }
    var filtered := Filtered(ps, q);
    var a := new Product[|filtered|](i requires 0 <= i < |filtered| => filtered[i]);
    assert a[..] == filtered;
    SortInPlace(a, KeyOf(q.sortBy));
    r := a[..];
  }

  // -------------------------------------------------------- panel state

  /** The grid's filter state: category, brand, sort order and price range. */
  class FilterPanel {
    var selectedCategory: string
    var selectedBrand: string
    var sortBy: string
    var range: PriceRange

    constructor ()
      ensures selectedCategory == "All" && selectedBrand == "All" && sortBy == "name"
      ensures range == PriceRange("", "")
    {
      selectedCategory, selectedBrand, sortBy := "All", "All", "name";
      range := PriceRange("", "");
    }

    /** The query for the given search text. */
    function QueryFor(search: string): Query
      reads this
    {
      Query(search, selectedCategory, selectedBrand, sortBy, range)
    }

    /** `[category !== 'All', brand !== 'All', min || max].filter(Boolean).length`. */
    function ActiveFiltersCount(): (n: nat)
      reads this
      ensures n <= 3
      ensures n == 0 <==> selectedCategory == "All" && selectedBrand == "All" && range == PriceRange("", "")
    {
      (if selectedCategory != "All" then 1 else 0) +
      (if selectedBrand != "All" then 1 else 0) +
      (if range.min != "" || range.max != "" then 1 else 0)
    }

    /** `clearFilters()`. */
    method ClearFilters()
      modifies this
      ensures selectedCategory == "All" && selectedBrand == "All" && sortBy == "name"
      ensures range == PriceRange("", "") && ActiveFiltersCount() == 0
    {
      selectedCategory, selectedBrand, sortBy := "All", "All", "name";
      range := PriceRange("", "");
    }
  }
}
