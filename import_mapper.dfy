/**
 * The spreadsheet import of the admin panel: the rows that `sheet_to_json(..., { header: 1 })`
 * returns are mapped to preview products by header name, and the preview is handed to the
 * catalogue on confirmation.
 */
module ImportMapper {
  import opened Wrappers
  import opened Products
  import opened JsText
  import Seqs
  import CatalogEngine
  import ProductManagement

  /** A spreadsheet cell; `Undef` is an empty slot of the row array. */
  datatype Cell = Str(s: string) | Num(n: real) | Bool(b: bool) | Undef

  /** JavaScript truthiness of a cell value. */
  predicate Truthy(c: Cell) {
    match c
    case Str(s) => s != ""
    case Num(n) => n != 0.0
    case Bool(b) => b
    case Undef => false
  }

  /** `a || b`. */
  function Or(a: Cell, b: Cell): (r: Cell)
    ensures Truthy(r) <==> Truthy(a) || Truthy(b)
    ensures r == a || r == b
  {
    if Truthy(a) then a else b
  }

  /** `row[i]`: a slot past the end of the row is undefined. */
  function CellAt(row: seq<Cell>, i: nat): Cell {
    if i < |row| then row[i] else Undef
  }

  /** Column `i` is the last one carrying its header. */
  predicate LastWithHeader(headers: seq<Cell>, i: nat) {
    i < |headers| && forall j :: i < j < |headers| ==> headers[j] != headers[i]
  }

  /**
   * `headers.forEach((header, i) => { product[header] = row[i] })`; an empty header slot is
   * skipped by `forEach`.
   */
  function FieldMapOf(headers: seq<Cell>, row: seq<Cell>): map<Cell, Cell> {
    if |headers| == 0 then map[]
    else
      var n := |headers| - 1;
      var m := FieldMapOf(headers[..n], row);
      if headers[n] == Undef then m else m[headers[n] := CellAt(row, n)]
  }

  /** Every header present maps to the cell under its last column. */
  lemma FieldMapMeaning(headers: seq<Cell>, row: seq<Cell>)
    ensures forall key :: key in FieldMapOf(headers, row) <==> key != Undef && key in headers
    ensures forall i :: 0 <= i < |headers| && headers[i] != Undef && LastWithHeader(headers, i) ==>
      FieldMapOf(headers, row)[headers[i]] == CellAt(row, i)
  {
    FieldMapKeys(headers, row);
    forall i | 0 <= i < |headers| && headers[i] != Undef && LastWithHeader(headers, i)
      ensures FieldMapOf(headers, row)[headers[i]] == CellAt(row, i)
    {
      FieldMapValue(headers, row, i);
    }
  }

  lemma {:induction false} FieldMapKeys(headers: seq<Cell>, row: seq<Cell>)
    ensures forall key :: key in FieldMapOf(headers, row) <==> key != Undef && key in headers
  {
    if |headers| > 0 {
      var n := |headers| - 1;
      var front := headers[..n];
      FieldMapKeys(front, row);
      assert headers == front + [headers[n]];
    }
  }

  lemma {:induction false} FieldMapValue(headers: seq<Cell>, row: seq<Cell>, i: nat)
    requires i < |headers| && headers[i] != Undef && LastWithHeader(headers, i)
    ensures headers[i] in FieldMapOf(headers, row)
    ensures FieldMapOf(headers, row)[headers[i]] == CellAt(row, i)
  {
    var n := |headers| - 1;
    var front := headers[..n];
    if i < n {
      assert LastWithHeader(front, i);
      FieldMapValue(front, row, i);
      assert headers[n] != headers[i];
    }
  }

  /** The header loop of `processFile`, as the component runs it. */
  method BuildFieldMap(headers: seq<Cell>, row: seq<Cell>) returns (m: map<Cell, Cell>)
    ensures m == FieldMapOf(headers, row)
  {
    m := map[];
    var i := 0;
    while i < |headers|
      invariant 0 <= i <= |headers|
      invariant m == FieldMapOf(headers[..i], row)
    {
      assert headers[..i + 1][..i] == headers[..i];
      if headers[i] != Undef {
        m := m[headers[i] := CellAt(row, i)];
      }
      i := i + 1;
    }
    assert headers[..|headers|] == headers;
  }

  /** `product[name]`: a header that is absent reads as undefined. */
  function Lookup(m: map<Cell, Cell>, name: string): Cell {
    if Str(name) in m then m[Str(name)] else Undef
  }

  /** `Number(cell)`; `None` is NaN. */
  function NumberOf(c: Cell): Option<real> {
    match c
    case Str(s) => NumberOfText(s)
    case Num(n) => Some(n)
    case Bool(b) => Some(if b then 1.0 else 0.0)
    case Undef => None
  }

  /** `Number(cell) || 0`. */
  function NumberOrZero(c: Cell): real {
    NumberOf(c).GetOr(0.0)
  }

  /** A preview row; the text fields hold whatever cell the `||` chains chose. */
  datatype ImportedProduct = ImportedProduct(
    name: Cell,
    category: Cell,
    brand: Cell,
    price: real,
    discountPrice: Option<real>,
    image: Cell,
    specs: Cell,
    rating: Option<real>,
    inStock: bool)

  /** The object literal that `map((row, index) => ...)` returns for one kept row. */
  function MapRow(headers: seq<Cell>, row: seq<Cell>, index: nat): ImportedProduct {
    var f := FieldMapOf(headers, row);
    var stock := Lookup(f, "In Stock");
    ImportedProduct(
      Or(Lookup(f, "Product Name"), Or(Lookup(f, "Name"), Str("Product " + NatText(index + 1)))),
      Or(Lookup(f, "Category"), Str("Uncategorized")),
      Or(Lookup(f, "Brand"), Str("")),
      NumberOrZero(Lookup(f, "Price")),
      if Truthy(Lookup(f, "Discount Price")) then NumberOf(Lookup(f, "Discount Price")) else None,
      Or(Lookup(f, "Image URL"), Or(Lookup(f, "Image"), Str("/placeholder.svg"))),
      Or(Lookup(f, "Specifications"), Or(Lookup(f, "Specs"), Str(""))),
      if Truthy(Lookup(f, "Rating")) then NumberOf(Lookup(f, "Rating")) else Some(4.5),
      stock == Str("Yes") || stock == Bool(true) || stock == Num(1.0))
  }

  /** `row.some(cell => cell !== undefined && cell !== '')`. */
  predicate NotBlank(row: seq<Cell>) {
    exists i :: 0 <= i < |row| && row[i] != Undef && row[i] != Str("")
  }

  function KeepTest(): seq<Cell> -> bool {
    (row: seq<Cell>) => NotBlank(row)
  }

  /** The data rows that survive the blank-row filter, in sheet order. */
  function KeptRows(rows: seq<seq<Cell>>): seq<seq<Cell>> {
    Seqs.Filter(rows, KeepTest())
  }

  const TooShort := "File must contain at least a header row and one data row"

  /** The mapping of `processFile`: the first row holds the headers, the rest the data. */
  function ProcessRows(sheet: seq<seq<Cell>>): Result<seq<ImportedProduct>> {
    if |sheet| < 2 then Err(TooShort)
    else
      var kept := KeptRows(sheet[1..]);
      Ok(seq(|kept|, i requires 0 <= i < |kept| => MapRow(sheet[0], kept[i], i)))
  }

  /** `processFile` as a whole: a workbook the reader rejects reports the reader's error. */
  function Processed(workbook: Result<seq<seq<Cell>>>): Result<seq<ImportedProduct>> {
    match workbook
    case Err(msg) => Err(msg)
    case Ok(sheet) => ProcessRows(sheet)
  }

  /** The error case is exactly a sheet without a data row; otherwise one product per non-blank row. */
  lemma ProcessRowsOutcome(sheet: seq<seq<Cell>>)
    ensures ProcessRows(sheet).Err? <==> |sheet| < 2
    ensures ProcessRows(sheet).Err? ==> ProcessRows(sheet).message == TooShort
    ensures ProcessRows(sheet).Ok? ==>
      |ProcessRows(sheet).value| == |KeptRows(sheet[1..])| <= |sheet| - 1
  {
  }

  /** The `i`-th product comes from the `i`-th kept row, and a nameless one is called `Product {i+1}`. */
  lemma ProcessRowsNames(sheet: seq<seq<Cell>>, i: nat)
    requires |sheet| >= 2 && i < |KeptRows(sheet[1..])|
    ensures ProcessRows(sheet).Ok? && i < |ProcessRows(sheet).value|
    ensures ProcessRows(sheet).value[i] == MapRow(sheet[0], KeptRows(sheet[1..])[i], i)
    ensures var f := FieldMapOf(sheet[0], KeptRows(sheet[1..])[i]);
      !Truthy(Lookup(f, "Product Name")) && !Truthy(Lookup(f, "Name")) ==>
        ProcessRows(sheet).value[i].name == Str("Product " + NatText(i + 1))
  {
  }

  /** Rows are kept exactly when they are not blank, and kept rows keep their order. */
  lemma KeptRowsExactly(rows: seq<seq<Cell>>, row: seq<Cell>)
    ensures row in KeptRows(rows) <==> row in rows && NotBlank(row)
    ensures (forall r :: r in rows ==> NotBlank(r)) ==> KeptRows(rows) == rows
  {
    if forall r :: r in rows ==> NotBlank(r) {
      Seqs.KeepAll(rows, KeepTest());
    }
  }

  /** A header row followed by blank rows only is not an error: it yields no products. */
  lemma BlankRowsOnly(sheet: seq<seq<Cell>>)
    requires |sheet| >= 2
    requires forall i :: 1 <= i < |sheet| ==> !NotBlank(sheet[i])
    ensures ProcessRows(sheet) == Ok([])
  {
    var data := sheet[1..];
    forall r | r in data ensures !KeepTest()(r) {
      var k :| 0 <= k < |data| && data[k] == r;
      assert r == sheet[k + 1];
    }
    Seqs.FilterNone(data, KeepTest());
    assert |ProcessRows(sheet).value| == 0;
  }

  /** When a header occurs twice, the cell under its later column is the one read. */
  lemma DuplicateHeaderLastWins(headers: seq<Cell>, row: seq<Cell>, i: nat, j: nat)
    requires i < j && LastWithHeader(headers, j) && headers[i] == headers[j] != Undef
    ensures headers[i] in FieldMapOf(headers, row) && FieldMapOf(headers, row)[headers[i]] == CellAt(row, j)
  {
    FieldMapMeaning(headers, row);
  }

  /** Name, category and image always come out non-empty; brand and specs fall back to `''`. */
  lemma MapRowFallbacks(headers: seq<Cell>, row: seq<Cell>, index: nat)
    ensures Truthy(MapRow(headers, row, index).name)
    ensures Truthy(MapRow(headers, row, index).category)
    ensures Truthy(MapRow(headers, row, index).image)
    ensures !Truthy(MapRow(headers, row, index).brand) ==> MapRow(headers, row, index).brand == Str("")
    ensures !Truthy(MapRow(headers, row, index).specs) ==> MapRow(headers, row, index).specs == Str("")
  {
    assert Truthy(Str("Product " + NatText(index + 1)));
  }

  /** A row without any recognised column gets every default, and is named by its position. */
  lemma MapRowDefaults(headers: seq<Cell>, row: seq<Cell>, index: nat)
    requires forall i :: 0 <= i < |headers| ==> headers[i] !in Aliases
    ensures MapRow(headers, row, index) == ImportedProduct(
      Str("Product " + NatText(index + 1)), Str("Uncategorized"), Str(""), 0.0, None,
      Str("/placeholder.svg"), Str(""), Some(4.5), false)
  {
    var f := FieldMapOf(headers, row);
    FieldMapMeaning(headers, row);
    forall a | a in Aliases ensures a !in f {
      assert a !in headers;
    }
  }

  /** Every header name the mapper reads. */
  const Aliases: set<Cell> := {
    Str("Product Name"), Str("Name"), Str("Category"), Str("Brand"), Str("Price"),
    Str("Discount Price"), Str("Image URL"), Str("Image"), Str("Specifications"), Str("Specs"),
    Str("Rating"), Str("In Stock")}

  /** Only `'Yes'`, `true` and `1` mark a product in stock; `'No'`, `'yes'` or a blank do not. */
  lemma InStockMarkers(headers: seq<Cell>, row: seq<Cell>, index: nat)
    requires Lookup(FieldMapOf(headers, row), "In Stock") in {Str("No"), Str("yes"), Str(""), Undef, Num(2.0)}
    ensures !MapRow(headers, row, index).inStock
  {
  }

  /** The header row of the downloadable template. */
  const TemplateHeaders: seq<Cell> := [
    Str("Product Name"), Str("Category"), Str("Brand"), Str("Price"), Str("Discount Price"),
    Str("Image URL"), Str("Specifications"), Str("Rating"), Str("In Stock")]

  /** The template's first row. */
  const TemplateRow1: seq<Cell> := [
    Str("AMD Ryzen 5 5600X"), Str("Processor"), Str("AMD"), Num(15999.0), Num(13999.0),
    Str("https://example.com/image.jpg"), Str("6 Cores, 12 Threads, 3.7GHz Base Clock"), Num(4.8), Str("Yes")]

  /** The template's second row, whose discount cell is empty. */
  const TemplateRow2: seq<Cell> := [
    Str("NVIDIA RTX 4060 Ti"), Str("Graphics Card"), Str("NVIDIA"), Num(42999.0), Str(""),
    Str("https://example.com/image2.jpg"), Str("8GB GDDR6, 2535MHz Boost Clock"), Num(4.6), Str("No")]

  /** Reading the template's first row back gives its discount, its rating, and in stock. */
  lemma TemplateRow1Imports(index: nat)
    ensures MapRow(TemplateHeaders, TemplateRow1, index) == ImportedProduct(
      Str("AMD Ryzen 5 5600X"), Str("Processor"), Str("AMD"), 15999.0, Some(13999.0),
      Str("https://example.com/image.jpg"), Str("6 Cores, 12 Threads, 3.7GHz Base Clock"), Some(4.8), true)
  {
    TemplateTextCells(TemplateRow1);
    TemplateNumberCells(TemplateRow1);
    TemplateOtherCells(TemplateRow1);
  }

  /** Reading the template's second row back gives no discount, its rating, and out of stock. */
  lemma TemplateRow2Imports(index: nat)
    ensures MapRow(TemplateHeaders, TemplateRow2, index) == ImportedProduct(
      Str("NVIDIA RTX 4060 Ti"), Str("Graphics Card"), Str("NVIDIA"), 42999.0, None,
      Str("https://example.com/image2.jpg"), Str("8GB GDDR6, 2535MHz Boost Clock"), Some(4.6), false)
  {
    TemplateTextCells(TemplateRow2);
    TemplateNumberCells(TemplateRow2);
    TemplateOtherCells(TemplateRow2);
  }

  /** Under the template headers, the name, category and brand come from their columns. */
  lemma TemplateTextCells(row: seq<Cell>)
    requires |row| == |TemplateHeaders|
    ensures Lookup(FieldMapOf(TemplateHeaders, row), "Product Name") == row[0]
    ensures Lookup(FieldMapOf(TemplateHeaders, row), "Category") == row[1]
    ensures Lookup(FieldMapOf(TemplateHeaders, row), "Brand") == row[2]
  {
    TemplateColumnsLast(0);
    LookupAt(TemplateHeaders, row, 0, "Product Name");
    TemplateColumnsLast(1);
    LookupAt(TemplateHeaders, row, 1, "Category");
    TemplateColumnsLast(2);
    LookupAt(TemplateHeaders, row, 2, "Brand");
  }

  /** Under the template headers, the price, discount and rating come from their columns. */
  lemma TemplateNumberCells(row: seq<Cell>)
    requires |row| == |TemplateHeaders|
    ensures Lookup(FieldMapOf(TemplateHeaders, row), "Price") == row[3]
    ensures Lookup(FieldMapOf(TemplateHeaders, row), "Discount Price") == row[4]
    ensures Lookup(FieldMapOf(TemplateHeaders, row), "Rating") == row[7]
  {
    TemplateColumnsLast(3);
    LookupAt(TemplateHeaders, row, 3, "Price");
    TemplateColumnsLast(4);
    LookupAt(TemplateHeaders, row, 4, "Discount Price");
    TemplateColumnsLast(7);
    LookupAt(TemplateHeaders, row, 7, "Rating");
  }

  /** Under the template headers, the image, specifications and stock come from their columns. */
  lemma TemplateOtherCells(row: seq<Cell>)
    requires |row| == |TemplateHeaders|
    ensures Lookup(FieldMapOf(TemplateHeaders, row), "Image URL") == row[5]
    ensures Lookup(FieldMapOf(TemplateHeaders, row), "Specifications") == row[6]
    ensures Lookup(FieldMapOf(TemplateHeaders, row), "In Stock") == row[8]
  {
    TemplateColumnsLast(5);
    LookupAt(TemplateHeaders, row, 5, "Image URL");
    TemplateColumnsLast(6);
    LookupAt(TemplateHeaders, row, 6, "Specifications");
    TemplateColumnsLast(8);
    LookupAt(TemplateHeaders, row, 8, "In Stock");
  }

  /** No template header repeats, so every column is the last with its header. */
  lemma TemplateColumnsLast(i: nat)
    requires i < |TemplateHeaders|
    ensures LastWithHeader(TemplateHeaders, i)
  {
    var h := TemplateHeaders;
    forall j | i < j < |h| ensures h[j] != h[i] {
      assert h[j].s != h[i].s by {
        if |h[j].s| == |h[i].s| {
          assert h[j].s[0] != h[i].s[0];
        }
      }
    }
  }

  /** Looking a header up reads the cell under its last column. */
  lemma LookupAt(headers: seq<Cell>, row: seq<Cell>, i: nat, name: string)
    requires LastWithHeader(headers, i) && headers[i] == Str(name)
    ensures Lookup(FieldMapOf(headers, row), name) == CellAt(row, i)
  {
    FieldMapValue(headers, row, i);
  }

  // ------------------------------------------------------------ handing over

  /** The text a cell turns into where a product expects a string; numbers are written as integers. */
  function CellText(c: Cell): string {
    match c
    case Str(s) => s
    case Num(n) => IntText(n.Floor)
    case Bool(b) => if b then "true" else "false"
    case Undef => "undefined"
  }

  /** A whole-number cell turns into text that `parseInt` reads back to the same number. */
  lemma CellTextWhole(n: int)
    ensures ParseInt(CellText(Num(n as real))) == Some(n)
  {
    ParseIntText(n);
  }

  /** `{ id, ...item }`. */
  function ToProduct(item: ImportedProduct, id: int): (p: Product)
    ensures p.id == id && p.price == item.price && p.discountPrice == item.discountPrice
    ensures p.rating == item.rating && p.inStock == item.inStock
    ensures p.brand == Some(CellText(item.brand))
  {
    Product(id, CellText(item.name), CellText(item.category), item.price, item.discountPrice,
      CellText(item.image), CellText(item.specs), item.inStock, Some(CellText(item.brand)), item.rating)
  }

  /** `previewData.map(item => ({ id: ..., ...item }))`, with the generated ids supplied. */
  function ToProducts(items: seq<ImportedProduct>, ids: seq<int>): (r: seq<Product>)
    requires |ids| == |items|
    ensures |r| == |items| && forall i :: 0 <= i < |items| ==> r[i] == ToProduct(items[i], ids[i])
  {
    seq(|items|, i requires 0 <= i < |items| => ToProduct(items[i], ids[i]))
  }

  /**
   * The catalogue keeps the ids the import panel generated: `Date.now() + Math.random()` is
   * positive, so `importProducts` never draws a replacement and its own supply goes unused.
   */
  lemma ImportKeepsGeneratedIds(ps: seq<Product>, items: seq<ImportedProduct>, ids: seq<int>, supply: seq<int>)
    requires |ids| == |items| && |supply| == |items|
    requires forall i :: 0 <= i < |ids| ==> ids[i] > 0
    ensures CatalogEngine.ImportedProducts(ps, ToProducts(items, ids), supply) == ps + ToProducts(items, ids)
  {
    var news := ToProducts(items, ids);
    var r := CatalogEngine.WithIds(news, supply);
    forall i | 0 <= i < |news| ensures r[i] == news[i] {
    }
  }

  // ------------------------------------------------- raw cells downstream

  /** `cell.toLowerCase()`: only a string has the method; on any other cell the call throws. */
  function LowerCell(c: Cell): (r: Result<string>)
    ensures r.Ok? <==> c.Str?
  {
    match c
    case Str(s) => Ok(Lower(s))
    case _ => Err("TypeError: toLowerCase is not a function")
  }

  /**
   * The admin table's search on a product exactly as the import hands it over, its text fields
   * still the raw cells. `||` stops at the first match, so a later field is only read when the
   * earlier ones do not match.
   */
  function AdminMatchesRaw(item: ImportedProduct, term: string): Result<bool> {
    var t := Lower(term);
    match LowerCell(item.name)
    case Err(e) => Err(e)
    case Ok(name) =>
      if Contains(name, t) then Ok(true)
      else
        match LowerCell(item.category)
        case Err(e) => Err(e)
        case Ok(category) =>
          if Contains(category, t) then Ok(true)
          else
            match LowerCell(item.brand)
            case Err(e) => Err(e)
            case Ok(brand) => Ok(Contains(brand, t))
  }

  /** A name cell that is not text makes the raw search throw, whatever the term. */
  lemma RawNameThrows(item: ImportedProduct, term: string)
    requires !item.name.Str?
    ensures AdminMatchesRaw(item, term).Err?
  {
  }

  /** Text in the name, category and brand cells makes the raw search succeed. */
  lemma RawTextSearchable(item: ImportedProduct, term: string)
    requires item.name.Str? && item.category.Str? && item.brand.Str?
    ensures AdminMatchesRaw(item, term).Ok?
  {
  }

  /**
   * A sheet whose "Product Name" column holds the number 1984 keeps that number as the preview's
   * name, and the admin search over it then throws.
   */
  lemma NumericNameBreaksAdminSearch(index: nat, term: string)
    ensures MapRow([Str("Product Name"), Str("Category")], [Num(1984.0), Str("Books")], index).name == Num(1984.0)
    ensures AdminMatchesRaw(MapRow([Str("Product Name"), Str("Category")], [Num(1984.0), Str("Books")], index), term).Err?
  {
    var headers, row := [Str("Product Name"), Str("Category")], [Num(1984.0), Str("Books")];
    LookupAt(headers, row, 0, "Product Name");
    RawNameThrows(MapRow(headers, row, index), term);
  }

  /**
   * The conversion to text agrees with the source wherever the source does not throw: when the
   * raw search succeeds, the search over the converted product gives the same answer.
   */
  lemma ConvertedSearchAgrees(item: ImportedProduct, id: int, term: string)
    requires AdminMatchesRaw(item, term).Ok?
    ensures ProductManagement.AdminMatches(ToProduct(item, id), term) == AdminMatchesRaw(item, term).value
  {
  }

  /** The import panel: the file chosen and the preview it produced. */
  class ImportPanel {
    var preview: seq<ImportedProduct>
    var hasFile: bool

    constructor ()
      ensures preview == [] && !hasFile
    {
      preview, hasFile := [], false;
    }

    /**
     * `handleFileChange` and `processFile`: a new preview on success; on failure the error is
     * reported and the previous preview stays.
     */
    method ChooseFile(workbook: Result<seq<seq<Cell>>>) returns (outcome: Result<nat>)
      modifies this
      ensures hasFile
      ensures Processed(workbook).Ok? ==> preview == Processed(workbook).value && outcome == Ok(|preview|)
      ensures Processed(workbook).Err? ==>
        preview == old(preview) && outcome == Err(Processed(workbook).message)
    {
      hasFile := true;
      match Processed(workbook)
      case Ok(ps) =>
        preview := ps;
        outcome := Ok(|ps|);
      case Err(msg) =>
        outcome := Err(msg);
    }

    /**
     * `handleImport`: nothing happens for an empty preview; otherwise the preview goes to the
     * catalogue with one generated id per row, and the panel is cleared. `supply` stands for the
     * ids `importProducts` would draw for products without one.
     */
    method HandleImport(catalog: CatalogEngine.Catalog, ids: seq<int>, supply: seq<int>)
      requires |ids| == |preview| && |supply| == |preview|
      requires forall i :: 0 <= i < |ids| ==> ids[i] > 0
      modifies this, catalog
      ensures old(preview) == [] ==>
        catalog.products == old(catalog.products) && preview == [] && hasFile == old(hasFile)
      ensures old(preview) != [] ==>
        catalog.products == old(catalog.products) + ToProducts(old(preview), ids) &&
        preview == [] && !hasFile
      ensures catalog.GateOf() == old(catalog.GateOf())
    {
      if |preview| == 0 {
        return;
      }
      var news := ToProducts(preview, ids);
      ImportKeepsGeneratedIds(catalog.products, preview, ids, supply);
      catalog.ImportProducts(news, supply);
      hasFile := false;
      preview := [];
    }
  }
}
