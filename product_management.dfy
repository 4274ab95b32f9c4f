/** The admin product table: its search box, the row selection and the bulk actions. */
module ProductManagement {
  import opened Products
  import opened JsText
  import Seqs
  import CatalogEngine

  /** The admin search: the lower-cased term occurs in the name, the category or the brand. */
  predicate AdminMatches(p: Product, term: string) {
    var t := Lower(term);
    Contains(Lower(p.name), t) || Contains(Lower(p.category), t) ||
    (p.brand.Some? && Contains(Lower(p.brand.value), t))
  }

  function AdminTest(term: string): Product -> bool {
    (p: Product) => AdminMatches(p, term)
  }

  /** The table's `filteredProducts`. */
  function AdminFiltered(ps: seq<Product>, term: string): seq<Product> {
    Seqs.Filter(ps, AdminTest(term))
  }

  /** The table lists exactly the matching products, in catalogue order. */
  lemma AdminFilterExactly(ps: seq<Product>, term: string, x: Product)
    ensures x in AdminFiltered(ps, term) <==> x in ps && AdminMatches(x, term)
    ensures multiset(AdminFiltered(ps, term)) <= multiset(ps)
  {
  }

  /** An empty search box lists every product. */
  lemma EmptyTermKeepsAll(ps: seq<Product>)
    ensures AdminFiltered(ps, "") == ps
  {
    forall p | p in ps ensures AdminMatches(p, "") {
      ContainsEmpty(Lower(p.name));
    }
    Seqs.KeepAll(ps, AdminTest(""));
  }

  /** The term is not trimmed: a single space only finds products whose texts contain a space. */
  lemma SpaceTermNotTrimmed(p: Product)
    requires ' ' !in p.name && ' ' !in p.category && (p.brand.Some? ==> ' ' !in p.brand.value)
    ensures !AdminMatches(p, " ")
  {
    assert Lower(" ") == " ";
    if Contains(Lower(p.name), " ") { NoSpaceFound(p.name); }
    if Contains(Lower(p.category), " ") { NoSpaceFound(p.category); }
    if p.brand.Some? && Contains(Lower(p.brand.value), " ") { NoSpaceFound(p.brand.value); }
  }

  lemma NoSpaceFound(s: string)
    requires Contains(Lower(s), " ")
    ensures ' ' in s
  {
    var i := ContainsWitness(Lower(s), " ");
    assert Lower(s)[i] == ' ';
    assert s[i] == ' ';
  }

  function NotId(id: int): int -> bool {
    (x: int) => x != id
  }

  /** `handleSelectProduct`: drops a selected id, appends an unselected one. */
  function ToggledSelection(sel: seq<int>, id: int): seq<int> {
    if id in sel then Seqs.Filter(sel, NotId(id)) else sel + [id]
  }

  /** Toggling flips the membership of `id` and of nothing else. */
  lemma ToggleMembership(sel: seq<int>, id: int, x: int)
    ensures x in ToggledSelection(sel, id) <==> if x == id then id !in sel else x in sel
  {
  }

  /** Toggling twice restores the selection as a set, and exactly when the id was not selected. */
  lemma ToggleTwice(sel: seq<int>, id: int, x: int)
    ensures x in ToggledSelection(ToggledSelection(sel, id), id) <==> x in sel
    ensures id !in sel ==> ToggledSelection(ToggledSelection(sel, id), id) == sel
  {
    ToggleMembership(sel, id, x);
    ToggleMembership(ToggledSelection(sel, id), id, x);
    if id !in sel {
      Seqs.FilterAppend(sel, [id], NotId(id));
      assert [id][..0] == [];
      Seqs.KeepAll(sel, NotId(id));
    }
  }

  /** A selection without repeated ids stays so. */
  lemma ToggleNoDuplicates(sel: seq<int>, id: int)
    requires Seqs.NoDuplicates(sel)
    ensures Seqs.NoDuplicates(ToggledSelection(sel, id))
  {
    if id in sel {
      Seqs.FilterNoDuplicates(sel, NotId(id));
    }
  }

  /** `handleSelectAll`: clears when the counts agree, else selects the listed ids in order. */
  function SelectAllResult(sel: seq<int>, listed: seq<Product>): (r: seq<int>)
    ensures |r| == 0 || |r| == |listed|
    ensures |sel| == |listed| ==> r == []
    ensures |sel| != |listed| ==> r == CatalogEngine.Ids(listed)
  {
    if |sel| == |listed| then [] else CatalogEngine.Ids(listed)
  }

  /** The header checkbox. */
  predicate HeaderChecked(sel: seq<int>, listed: seq<Product>) {
    |sel| == |listed| && |listed| > 0
  }

  /** Pressing the header checkbox checks it when unchecked (on a non-empty list) and unchecks it when checked. */
  lemma SelectAllFlipsHeader(sel: seq<int>, listed: seq<Product>)
    requires |listed| > 0
    ensures HeaderChecked(SelectAllResult(sel, listed), listed) <==> !HeaderChecked(sel, listed)
  {
  }

  /** The selection state of the product table. */
  class ProductTable {
    var searchTerm: string
    var selected: seq<int>

    constructor ()
      ensures searchTerm == "" && selected == []
    {
      searchTerm, selected := "", [];
    }

    method SetSearchTerm(term: string)
      modifies this
      ensures searchTerm == term && selected == old(selected)
    {
      searchTerm := term;
    }

    /** `handleSelectProduct(id)`. */
    method SelectProduct(id: int)
      modifies this
      ensures selected == ToggledSelection(old(selected), id) && searchTerm == old(searchTerm)
    {
      selected := ToggledSelection(selected, id);
    }

    /** `handleSelectAll()` over the products the table lists. */
    method SelectAll(catalog: CatalogEngine.Catalog)
      modifies this
      ensures selected == SelectAllResult(old(selected), AdminFiltered(catalog.products, searchTerm))
      ensures searchTerm == old(searchTerm)
    {
      selected := SelectAllResult(selected, AdminFiltered(catalog.products, searchTerm));
    }

    /** `handleBulkDelete()`: deletes the selected ids and empties the selection; reports the count. */
    method BulkDelete(catalog: CatalogEngine.Catalog) returns (count: nat)
      modifies this, catalog
      ensures catalog.products == CatalogEngine.DeletedProducts(old(catalog.products), old(selected))
      ensures catalog.GateOf() == old(catalog.GateOf())
      ensures selected == [] && count == |old(selected)| && searchTerm == old(searchTerm)
    {
      catalog.DeleteMultipleProducts(selected);
      count := |selected|;
      selected := [];
    }

    /** `handleBulkStockUpdate(inStock)`: flags the selected ids and empties the selection. */
    method BulkStockUpdate(catalog: CatalogEngine.Catalog, inStock: bool) returns (count: nat)
      modifies this, catalog
      ensures catalog.products == CatalogEngine.StockUpdated(old(catalog.products), old(selected), inStock)
      ensures catalog.GateOf() == old(catalog.GateOf())
      ensures selected == [] && count == |old(selected)| && searchTerm == old(searchTerm)
    {
      catalog.BulkUpdateStock(selected, inStock);
      count := |selected|;
      selected := [];
    }

    /** `handleDelete(id)`: the selection is left as it was. */
    method Delete(catalog: CatalogEngine.Catalog, id: int)
      modifies catalog
      ensures catalog.products == CatalogEngine.DeletedProduct(old(catalog.products), id)
      ensures catalog.GateOf() == old(catalog.GateOf())
    {
      catalog.DeleteProduct(id);
    }
  }
}
