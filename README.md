# Tech shop storefront — a verified model of its decision logic

The storefront is a client-side shop for computer hardware. Shoppers browse a product grid that
can be searched, filtered by category, brand and price range, and sorted five ways. They collect
products in a cart drawer, which shows line totals, an 18% tax estimate and a final total. An
administrator unlocks an admin panel with a fixed password. There they maintain the catalogue:
add, edit, delete, bulk-delete, bulk stock flags and a spreadsheet import with a preview. The
dashboard also shows stock figures, categories and brands.

This project models that logic in Dafny and proves what the code promises about it:

- `Products` — the `Product` record, with JavaScript's truthiness rule for `discountPrice ||
  price` captured once as `EffectivePrice`.
- `CartEngine` — the cart provider. The list builders `Added`, `Removed` and `QuantityUpdated`
  are functions. The class `Cart` holds the `items` state, and its methods keep the invariant:
  one line per id, every quantity at least 1.
- `CatalogEngine` — the admin provider: the catalogue list builders, the shallow-merge patch,
  the admin gate, and the class `Catalog` with the three state fields its mutators update.
- `QueryEngine` — the product grid's filter and its five comparators. `SortBy` is a stable
  reference sort. `SortInPlace` sorts an array in place and is proved equal to `SortBy`.
  `FilterPanel` holds the panel's filter state.
- `ImportMapper` — the spreadsheet rows as `Cell` values. `BuildFieldMap` is the header loop.
  `MapRow` builds one row's preview record with its aliases and defaults. The `ImportPanel`
  class holds the preview and hands it to the catalogue.
- `ProductManagement` — the admin table's search, the selection toggles and the bulk actions.
- `AdminStats` — the dashboard's stock counts, inventory value, distinct categories and brands,
  and per-category counts.
- `CartView`, `ProductCard`, `IndexPage` — the cart drawer's totals and buttons, the product
  card's badge, prices, stars and button, and the page's view selection and search state.
- `JsText` and `Seqs` — the JavaScript services these rely on: `trim`, ASCII `toLowerCase`,
  `includes`, `parseInt`, the decimal part of `Number(string)`, code-point string order and
  `Array.prototype.filter`.

Numbers: ids and quantities are integers. Prices, discount prices and ratings are exact reals.
The spreadsheet import carries fractional cells such as a rating of 4.8, and `Number(cell)` can
give a fractional price, so an integer price would lose behaviour the code has. An absent
optional field and a `NaN` from `Number(...)` are both `None`: every use of those fields is a
truthiness test, under which the two behave alike.

Where the design description and the code disagree, the model follows the code. When
`processFile` fails, the code only shows an error toast and never clears `previewData`. A
previously loaded preview therefore survives a failed file. `ImportPanel.ChooseFile` states
exactly that.

## Model

| member | source | states |
|---|---|---|
| `Products.WithIdRoundTrip` | src/contexts/AdminContext.tsx:62-66 | attaching an id to form data and stripping it again are mutually inverse |
| `CartEngine.InCart` | src/contexts/CartContext.tsx:109-111 | `isInCart(id)` holds iff some line carries that id |
| `CartEngine.AddExisting` | src/contexts/CartContext.tsx:62-70 | adding a product already in the cart raises only that line by 1; length, order and other lines are unchanged |
| `CartEngine.AddNew` | src/contexts/CartContext.tsx:71 | adding a new product appends one line of quantity 1 after an unchanged prefix |
| `CartEngine.AddMakesInCart` | src/contexts/CartContext.tsx:60-74 | after `addToCart(p)`, `isInCart(p.id)` holds |
| `CartEngine.AddWellFormed` | src/contexts/CartContext.tsx:60-74 | adding keeps ids unique and quantities positive |
| `CartEngine.AddTwice` | src/contexts/CartContext.tsx:60-74 | adding the same new product twice gives one line of quantity 2 |
| `CartEngine.TotalItemsAppend` | src/contexts/CartContext.tsx:98-100 | the item count is additive over concatenation |
| `CartEngine.TotalItemsReplace` | src/contexts/CartContext.tsx:98-100 | replacing a line changes the item count by the difference in quantity |
| `CartEngine.AddTotalItems` | src/contexts/CartContext.tsx:60-74 | every add raises `getTotalItems()` by exactly 1 |
| `CartEngine.TotalItemsAtLeastLines` | src/contexts/CartContext.tsx:98-100 | with quantities of at least 1, the item count is at least the number of lines |
| `CartEngine.RemoveEffect` | src/contexts/CartContext.tsx:76-78 | after removal no line has the id, and every other id is in the cart iff it was before |
| `CartEngine.RemoveAbsent` | src/contexts/CartContext.tsx:76-78 | removing an absent id leaves the cart unchanged |
| `CartEngine.RemoveAt` | src/contexts/CartContext.tsx:76-78 | with unique ids, removal drops exactly the id's line and keeps the others in order |
| `CartEngine.RemoveWellFormed` | src/contexts/CartContext.tsx:76-78 | removal keeps the cart invariant |
| `CartEngine.RemoveSameIdsAbsurd` | src/contexts/CartContext.tsx:77 | a filtered cart with unique ids has no two lines sharing an id |
| `CartEngine.UpdateNonPositive` | src/contexts/CartContext.tsx:81-84 | `updateQuantity(id, q)` with `q <= 0` is exactly `removeFromCart(id)` |
| `CartEngine.UpdatePositive` | src/contexts/CartContext.tsx:86-90 | with `q > 0` only the quantity of the id's line is set |
| `CartEngine.UpdateAbsent` | src/contexts/CartContext.tsx:80-91 | updating an absent id leaves the cart unchanged |
| `CartEngine.UpdateWellFormed` | src/contexts/CartContext.tsx:80-91 | updating keeps the cart invariant |
| `CartEngine.TotalPriceExample` | src/contexts/CartContext.tsx:102-107 | a line {price 1000, discount 800, quantity 3} totals 2400 |
| `CartEngine.Cart.constructor` | src/contexts/CartContext.tsx:47 | a new cart is empty and well formed |
| `CartEngine.Cart.AddToCart` | src/contexts/CartContext.tsx:60-74 | the new list is the add result; the invariant holds, the product is in the cart and the count rose by 1 |
| `CartEngine.Cart.RemoveFromCart` | src/contexts/CartContext.tsx:76-78 | the new list is the filter result; the invariant holds and the id is gone |
| `CartEngine.Cart.UpdateQuantity` | src/contexts/CartContext.tsx:80-91 | the new list is the update result, by removal for `q <= 0`; the invariant holds |
| `CartEngine.Cart.ClearCart` | src/contexts/CartContext.tsx:93-96 | the cart becomes empty with an item count of 0 |
| `CatalogEngine.MergeNoChange` | src/contexts/AdminContext.tsx:73 | spreading an empty patch leaves the product unchanged |
| `CatalogEngine.MergeIdempotent` | src/contexts/AdminContext.tsx:73 | applying the same patch twice is applying it once |
| `CatalogEngine.MergeCombine` | src/contexts/AdminContext.tsx:73 | two successive patches equal one patch in which the later fields win |
| `CatalogEngine.UpdatedProducts` | src/contexts/AdminContext.tsx:71-76 | length and order are kept; matching products are merged with the patch, others are identical |
| `CatalogEngine.StockUpdated` | src/contexts/AdminContext.tsx:88-93 | length and order are kept; listed products get the flag, others are identical |
| `CatalogEngine.WithIds` | src/contexts/AdminContext.tsx:96-99 | one product per input product, in order; each keeps its non-zero id or takes its supplied one, and its data is unchanged |
| `CatalogEngine.AddProductEffect` | src/contexts/AdminContext.tsx:62-69 | the old list plus exactly one product carrying the supplied id and the form data |
| `CatalogEngine.AddProductUnique` | src/contexts/AdminContext.tsx:62-69 | an unused id keeps ids unique |
| `CatalogEngine.UpdateAbsent` | src/contexts/AdminContext.tsx:71-76 | updating an id no product has changes nothing |
| `CatalogEngine.UpdateKeepsIds` | src/contexts/AdminContext.tsx:71-76 | a patch without an id keeps the id list |
| `CatalogEngine.DeleteProductEffect` | src/contexts/AdminContext.tsx:78-81 | a product survives iff its id differs, with the same multiplicity |
| `CatalogEngine.DeleteAbsent` | src/contexts/AdminContext.tsx:78-81 | deleting an absent id leaves the list unchanged |
| `CatalogEngine.DeleteAt` | src/contexts/AdminContext.tsx:78-81 | with unique ids, deletion drops exactly one product and keeps the rest in order |
| `CatalogEngine.DeleteManyEffect` | src/contexts/AdminContext.tsx:83-86 | a product survives iff its id is not listed, with the same multiplicity |
| `CatalogEngine.DeleteManySingle` | src/contexts/AdminContext.tsx:78-86 | deleting the list `[x]` is deleting `x` |
| `CatalogEngine.DeleteManyUnique` | src/contexts/AdminContext.tsx:83-86 | bulk deletion keeps ids unique |
| `CatalogEngine.DeletedIds` | src/contexts/AdminContext.tsx:83-86 | the surviving ids are the old ids filtered by the same test |
| `CatalogEngine.StockUpdateEffect` | src/contexts/AdminContext.tsx:88-93 | only `inStock` changes, and only on listed products, which get the new flag |
| `CatalogEngine.StockUpdateKeepsIds` | src/contexts/AdminContext.tsx:88-93 | the bulk stock update keeps the id list |
| `CatalogEngine.ImportEffect` | src/contexts/AdminContext.tsx:95-101 | the old list is a prefix; each new product keeps its data and its non-zero id, or gets its supplied id |
| `CatalogEngine.ImportKeepsIds` | src/contexts/AdminContext.tsx:95-101 | products that all have non-zero ids are appended unchanged |
| `CatalogEngine.Toggled` | src/contexts/AdminContext.tsx:42-47 | the mode flips; entering admin mode clears authentication, leaving it keeps it |
| `CatalogEngine.LoggedIn` | src/contexts/AdminContext.tsx:49-55 | true iff the password is "admin123", which sets authenticated; otherwise nothing changes |
| `CatalogEngine.ToggleTwice` | src/contexts/AdminContext.tsx:42-47 | leaving admin mode and re-entering asks for the password again |
| `CatalogEngine.Catalog.constructor` | src/contexts/AdminContext.tsx:26-35 | the saved list is loaded with both flags off |
| `CatalogEngine.Catalog.ToggleAdminMode` | src/contexts/AdminContext.tsx:42-47 | the gate becomes the toggle result; the catalogue is unchanged |
| `CatalogEngine.Catalog.Login` | src/contexts/AdminContext.tsx:49-55 | the gate and the returned flag are the login result; the catalogue is unchanged |
| `CatalogEngine.Catalog.Logout` | src/contexts/AdminContext.tsx:57-60 | both flags off; the catalogue is unchanged |
| `CatalogEngine.Catalog.AddProduct` | src/contexts/AdminContext.tsx:62-69 | the catalogue becomes the appended list; the gate is unchanged |
| `CatalogEngine.Catalog.UpdateProduct` | src/contexts/AdminContext.tsx:71-76 | the catalogue becomes the patched list; the gate is unchanged |
| `CatalogEngine.Catalog.DeleteProduct` | src/contexts/AdminContext.tsx:78-81 | the catalogue becomes the filtered list; the gate is unchanged |
| `CatalogEngine.Catalog.DeleteMultipleProducts` | src/contexts/AdminContext.tsx:83-86 | the catalogue becomes the bulk-filtered list; the gate is unchanged |
| `CatalogEngine.Catalog.BulkUpdateStock` | src/contexts/AdminContext.tsx:88-93 | the catalogue becomes the flagged list; the gate is unchanged |
| `CatalogEngine.Catalog.ImportProducts` | src/contexts/AdminContext.tsx:95-101 | the catalogue becomes the old list plus the id-assigned imports; the gate is unchanged |
| `QueryEngine.AllProducts` | src/components/ProductGrid.tsx:40 | the catalogue's list when it is non-empty, otherwise the passed list or `[]`; so empty iff the catalogue is empty and no list (or an empty one) was passed |
| `QueryEngine.BeforeIrreflexive` | src/components/ProductGrid.tsx:97-112 | no product sorts strictly before itself under any key |
| `QueryEngine.BeforeTransitive` | src/components/ProductGrid.tsx:97-112 | each comparator's strict order is transitive |
| `QueryEngine.BeforeNegTransitive` | src/components/ProductGrid.tsx:97-112 | each comparator is a strict weak order: ties are transitive |
| `QueryEngine.BeforeAsymmetric` | src/components/ProductGrid.tsx:97-112 | no two products each sort before the other |
| `QueryEngine.InsertPermutes` | src/components/ProductGrid.tsx:97 | an insertion step adds exactly the inserted product |
| `QueryEngine.InsertSorted` | src/components/ProductGrid.tsx:97 | an insertion step keeps a sorted list sorted |
| `QueryEngine.SortByCorrect` | src/components/ProductGrid.tsx:97-112 | the sort returns a sorted permutation of its input |
| `QueryEngine.SortBySortedFixpoint` | src/components/ProductGrid.tsx:97-112 | a sorted list is returned unchanged |
| `QueryEngine.SortByIdempotent` | src/components/ProductGrid.tsx:97-112 | sorting a sorted result changes nothing |
| `QueryEngine.InsertTied` | src/components/ProductGrid.tsx:97 | an insertion step keeps the relative order of the products that tie with any given one |
| `QueryEngine.SortByStable` | src/components/ProductGrid.tsx:97-112 | the sort is stable: tied products keep their input order |
| `QueryEngine.SortedMeaning` | src/components/ProductGrid.tsx:98-111 | sorted means effective price up, effective price down, rating down (missing as 0), discount share down or name up |
| `QueryEngine.ResultsCorrect` | src/components/ProductGrid.tsx:53-115 | the result holds exactly the passing products as a sub-multiset of the input, sorted by the chosen key and stable |
| `QueryEngine.NoFilterPassesAll` | src/components/ProductGrid.tsx:56-94 | with no search, "All" twice and no bounds, every product passes and the result is a permutation of the input |
| `QueryEngine.BlankSearchIgnored` | src/components/ProductGrid.tsx:58 | a search that trims to nothing filters nothing |
| `QueryEngine.BrandlessExcluded` | src/components/ProductGrid.tsx:80-82 | a product without a brand fails any brand other than "All" |
| `QueryEngine.PriceBounds` | src/components/ProductGrid.tsx:85-91 | a passing product's effective price is at least a parsed minimum and at most a parsed maximum |
| `QueryEngine.PriceRangeInclusive` | src/components/ProductGrid.tsx:84-93 | a product that meets the search, category and brand tests passes iff its effective price lies in the closed range of the parsed bounds; a price equal to a bound is kept, and a blank or unparsable bound imposes nothing |
| `QueryEngine.UnparsableBoundIgnored` | src/components/ProductGrid.tsx:85-91 | bounds that `parseInt` reads as NaN filter nothing |
| `QueryEngine.DiscountRanking` | src/components/ProductGrid.tsx:105-108 | under "discount", a product at 80% of its price ranks before one at 95% |
| `QueryEngine.InsertStep` | src/components/ProductGrid.tsx:97 | one in-place insertion step turns the prefix into the reference insertion and leaves the rest of the array alone |
| `QueryEngine.SortInPlace` | src/components/ProductGrid.tsx:97-112 | the array's final contents are the reference stable sort of its initial contents |
| `QueryEngine.RunQuery` | src/components/ProductGrid.tsx:53-115 | filtering and sorting a fresh array yields the specified result |
| `QueryEngine.FilterPanel.constructor` | src/components/ProductGrid.tsx:19-22 | the panel starts at "All", "All", name order and an empty range |
| `QueryEngine.FilterPanel.ActiveFiltersCount` | src/components/ProductGrid.tsx:124-128 | the count is at most 3, and 0 iff category, brand and range are all at their defaults |
| `QueryEngine.FilterPanel.ClearFilters` | src/components/ProductGrid.tsx:117-122 | the four fields return to their defaults and the count becomes 0 |
| `ImportMapper.Or` | src/components/admin/ImportProducts.tsx:106-112 | the `or` of two cells is one of them, and truthy iff either is |
| `ImportMapper.FieldMapMeaning` | src/components/admin/ImportProducts.tsx:100-103 | the field map's keys are the present headers, each mapped to the cell under its last column |
| `ImportMapper.BuildFieldMap` | src/components/admin/ImportProducts.tsx:100-103 | the header loop builds exactly the field map |
| `ImportMapper.ProcessRowsOutcome` | src/components/admin/ImportProducts.tsx:90-99 | an error iff fewer than two rows, with the fixed message; otherwise one product per kept data row |
| `ImportMapper.ProcessRowsNames` | src/components/admin/ImportProducts.tsx:97-106 | product `i` comes from kept row `i`; nameless, it is named `Product {i+1}` by its kept-row index |
| `ImportMapper.KeptRowsExactly` | src/components/admin/ImportProducts.tsx:98 | a row is kept iff it has a cell that is neither undefined nor empty; all-kept rows stay as they are |
| `ImportMapper.BlankRowsOnly` | src/components/admin/ImportProducts.tsx:90-98 | a header followed only by blank rows gives no products and no error |
| `ImportMapper.DuplicateHeaderLastWins` | src/components/admin/ImportProducts.tsx:101-103 | a repeated header reads the cell under its later column |
| `ImportMapper.MapRowFallbacks` | src/components/admin/ImportProducts.tsx:106-112 | name, category and image are never falsy; a falsy brand or specs is exactly "" |
| `ImportMapper.MapRowDefaults` | src/components/admin/ImportProducts.tsx:105-115 | a row with no recognised column gets every default (price 0, rating 4.5, not in stock, no discount) |
| `ImportMapper.InStockMarkers` | src/components/admin/ImportProducts.tsx:114 | "No", "yes", "", a missing cell or 2 do not mark a product in stock |
| `ImportMapper.TemplateRow1Imports` | src/components/admin/ImportProducts.tsx:38-48 | the template's first row reads back with discount 13999, rating 4.8 and in stock |
| `ImportMapper.TemplateRow2Imports` | src/components/admin/ImportProducts.tsx:49-59 | the template's second row reads back with no discount, rating 4.6 and out of stock |
| `ImportMapper.LookupAt` | src/components/admin/ImportProducts.tsx:101-103 | looking up a header reads the cell under its last column |
| `ImportMapper.CellTextWhole` | src/components/admin/ImportProducts.tsx:105-111 | corrected behaviour (see Findings): a whole-number cell that lands in a text field becomes text that `parseInt` reads back to the same number |
| `ImportMapper.ToProduct` | src/components/admin/ImportProducts.tsx:137-140 | the product has the given id and the preview's numbers and stock flag; its text fields are the cells converted to text, the corrected behaviour (see Findings) |
| `ImportMapper.ToProducts` | src/components/admin/ImportProducts.tsx:137-140 | one product per preview row, in order, each with its own id |
| `ImportMapper.ImportKeepsGeneratedIds` | src/components/admin/ImportProducts.tsx:137-142 | with the panel's positive ids, `importProducts` draws no replacement and appends the converted preview unchanged |
| `ImportMapper.LowerCell` | src/components/admin/ProductManagement.tsx:47-49 | `toLowerCase` succeeds exactly on a text cell; a number, boolean or missing cell throws |
| `ImportMapper.RawNameThrows` | src/components/admin/ProductManagement.tsx:46-50 | the admin search over a raw imported product whose name is not text throws for every term |
| `ImportMapper.RawTextSearchable` | src/components/admin/ProductManagement.tsx:46-50 | with text name, category and brand cells the raw search never throws |
| `ImportMapper.NumericNameBreaksAdminSearch` | src/components/admin/ImportProducts.tsx:99-111 | as written: a "Product Name" cell holding 1984 stays the number 1984, and the admin search over that product throws |
| `ImportMapper.ConvertedSearchAgrees` | src/components/admin/ProductManagement.tsx:46-50 | corrected: whenever the source's search succeeds on the raw cells, the search over the converted product gives the same answer |
| `ImportMapper.ImportPanel.constructor` | src/components/admin/ImportProducts.tsx:32-33 | the panel starts with no file and an empty preview |
| `ImportMapper.ImportPanel.ChooseFile` | src/components/admin/ImportProducts.tsx:73-132 | success replaces the preview and reports its size; an error is reported and the previous preview stays |
| `ImportMapper.ImportPanel.HandleImport` | src/components/admin/ImportProducts.tsx:134-152 | an empty preview does nothing; otherwise the preview is appended in order with its positive generated ids and the panel is cleared |
| `ProductManagement.AdminFilterExactly` | src/components/admin/ProductManagement.tsx:46-50 | a product is listed iff the lower-cased term is in its name, category or brand |
| `ProductManagement.EmptyTermKeepsAll` | src/components/admin/ProductManagement.tsx:46-50 | an empty search lists every product |
| `ProductManagement.SpaceTermNotTrimmed` | src/components/admin/ProductManagement.tsx:46-50 | the term is not trimmed: one space finds only texts that contain a space |
| `ProductManagement.ToggleMembership` | src/components/admin/ProductManagement.tsx:52-58 | a toggle flips whether the id is selected and nothing else |
| `ProductManagement.ToggleTwice` | src/components/admin/ProductManagement.tsx:52-58 | toggling twice restores the selection set, and the exact list when the id was absent |
| `ProductManagement.ToggleNoDuplicates` | src/components/admin/ProductManagement.tsx:52-58 | a duplicate-free selection stays duplicate-free |
| `ProductManagement.SelectAllResult` | src/components/admin/ProductManagement.tsx:60-66 | equal counts clear the selection; unequal counts select the listed ids in order |
| `ProductManagement.SelectAllFlipsHeader` | src/components/admin/ProductManagement.tsx:60-66 | on a non-empty list, select-all checks the header checkbox iff it was unchecked |
| `ProductManagement.ProductTable.constructor` | src/components/admin/ProductManagement.tsx:41-42 | the table starts with no search and no selection |
| `ProductManagement.ProductTable.SetSearchTerm` | src/components/admin/ProductManagement.tsx:41 | the term is stored and the selection kept |
| `ProductManagement.ProductTable.SelectProduct` | src/components/admin/ProductManagement.tsx:52-58 | the selection becomes its toggle |
| `ProductManagement.ProductTable.SelectAll` | src/components/admin/ProductManagement.tsx:60-66 | the selection becomes the select-all result over the listed products |
| `ProductManagement.ProductTable.BulkDelete` | src/components/admin/ProductManagement.tsx:68-75 | the selected ids are deleted from the catalogue, the selection is emptied and its size reported |
| `ProductManagement.ProductTable.BulkStockUpdate` | src/components/admin/ProductManagement.tsx:77-84 | the selected ids get the stock flag, the selection is emptied and its size reported |
| `ProductManagement.ProductTable.Delete` | src/components/admin/ProductManagement.tsx:86-92 | the product is deleted from the catalogue; the gate is unchanged |
| `AdminStats.StockCountsPartition` | src/components/admin/AdminStats.tsx:21-24 | in-stock plus out-of-stock equals the product count |
| `AdminStats.TotalValueAppend` | src/components/admin/AdminStats.tsx:25 | the inventory value adds up over any split of the list |
| `AdminStats.TotalValueIgnoresStock` | src/components/admin/AdminStats.tsx:25 | one unit per product: stock flags do not change the value |
| `AdminStats.Dedup` | src/components/admin/AdminStats.tsx:28-29 | the distinct list has no duplicates and the same elements |
| `AdminStats.DedupPrefix` | src/components/admin/AdminStats.tsx:28-29 | first-appearance order: a prefix's distinct values come first, in order |
| `AdminStats.BrandList` | src/components/admin/AdminStats.tsx:29 | exactly the brands that are present and non-empty |
| `AdminStats.CategoriesExactly` | src/components/admin/AdminStats.tsx:28 | `categories` is duplicate-free and holds exactly the products' categories |
| `AdminStats.BrandsExactly` | src/components/admin/AdminStats.tsx:29 | `brands` is duplicate-free, exactly the non-empty brands, and never "" |
| `AdminStats.CountsSumSnoc` | src/components/admin/AdminStats.tsx:111-113 | one more product raises the listed counts by how often its category is listed |
| `AdminStats.NoCategoryNoCount` | src/components/admin/AdminStats.tsx:112 | a category no product has counts 0 |
| `AdminStats.CategoryCountsTotal` | src/components/admin/AdminStats.tsx:111-113 | the per-category counts sum to the product count |
| `AdminStats.TopBrands` | src/components/admin/AdminStats.tsx:130 | at most 8 brands, the first ones in order; all of them when there are at most 8 |
| `AdminStats.ListedCountsPositive` | src/components/admin/AdminStats.tsx:111-131 | every listed category and brand has a positive count |
| `CartView.FinalTotalScales` | src/components/Cart.tsx:50-53 | the final total is 1.18 times the subtotal, and no less than a non-negative subtotal |
| `CartView.LineTotals` | src/components/Cart.tsx:160 | one line total per line: effective price times quantity |
| `CartView.LineTotalsSum` | src/components/Cart.tsx:160 | the displayed line totals sum to `getTotalPrice()` |
| `CartView.StruckLineTotal` | src/components/Cart.tsx:162-165 | a struck total is shown iff the discount price is truthy |
| `CartView.StruckAboveLineTotal` | src/components/Cart.tsx:160-165 | a real discount's struck total is at least the charged total |
| `CartView.ItemsBadge` | src/components/Cart.tsx:64-68 | the badge shows iff the item count is positive, reading "1 item" for one |
| `CartView.MinusOnOneRemoves` | src/components/Cart.tsx:129 | minus on a line of quantity 1 removes just that line and lowers the count by 1 |
| `CartView.MinusAboveOne` | src/components/Cart.tsx:129 | minus above 1 lowers just that line by 1 |
| `CartView.PlusAddsOne` | src/components/Cart.tsx:140 | plus raises just that line by 1 |
| `CartView.PressMinus` | src/components/Cart.tsx:129 | the cart becomes `updateQuantity(id, quantity - 1)` and stays well formed |
| `CartView.PressPlus` | src/components/Cart.tsx:140 | the line gains exactly one unit and the rest of the cart is unchanged |
| `CartView.PressRemove` | src/components/Cart.tsx:32-39 | the line is dropped and the others keep their order |
| `CartView.PressClear` | src/components/Cart.tsx:41-48 | the cart is empty, with no badge and a final total of 0 |
| `ProductCard.JsRound` | src/components/ProductCard.tsx:37 | `Math.round` gives the integer within half a unit, halves rounded up |
| `ProductCard.BadgeThreshold` | src/components/ProductCard.tsx:36-43 | for a positive price, the badge shows iff the discount price is truthy and at most 99.5% of the price |
| `ProductCard.NoBadgeForMarkup` | src/components/ProductCard.tsx:36-43 | a discount price above the price shows no badge |
| `ProductCard.StruckPrice` | src/components/ProductCard.tsx:131-136 | a struck base price appears iff the discount is truthy, and the shown price is then the discount price |
| `ProductCard.FilledAmongClamp` | src/components/ProductCard.tsx:109-116 | among `n` stars, `floor(rating)` are filled, clamped to 0 and `n` |
| `ProductCard.FilledStarsClamp` | src/components/ProductCard.tsx:109-116 | the filled stars number `min(5, floor(rating))`, and none for a rating below 1 |
| `ProductCard.ButtonLabel` | src/components/ProductCard.tsx:143-157 | "Out of Stock" iff the button is disabled, else "In Cart" iff in the cart, else "Add to Cart" |
| `ProductCard.HandleAddToCart` | src/components/ProductCard.tsx:19-26 | the product is added to the cart, after which an in-stock card reads "In Cart" |
| `IndexPage.SelectView` | src/pages/Index.tsx:33-44 | login iff admin and not authenticated, dashboard iff admin and authenticated, shop otherwise |
| `IndexPage.EnterAdminShowsLogin` | src/pages/Index.tsx:34 | right after entering admin mode the login view is shown |
| `IndexPage.LoginOpensDashboard` | src/pages/Index.tsx:34-41 | from the login view, the right password opens the dashboard and a wrong one stays |
| `IndexPage.LeaveAdminShowsShop` | src/pages/Index.tsx:33-44 | leaving admin mode by toggle or logout shows the shop |
| `IndexPage.DisplayProducts` | src/pages/Index.tsx:44 | the catalogue when non-empty, else the built-in list |
| `IndexPage.GridListsDisplayProducts` | src/pages/Index.tsx:44-56 | the grid lists what the page chose |
| `IndexPage.Page.constructor` | src/pages/Index.tsx:13-14 | an empty query and a closed cart |
| `IndexPage.Page.HandleSearch` | src/pages/Index.tsx:17-19 | the stored query is trimmed; the hero shows iff the input was all whitespace; the search is active iff the query is non-empty |
| `IndexPage.Page.HandleClearSearch` | src/pages/Index.tsx:29-31 | the query becomes "" and the hero shows |
| `IndexPage.Page.SetCartOpen` | src/pages/Index.tsx:21-27 | the drawer flag is set and the query kept |
| `JsText.TrimIdempotent` | src/pages/Index.tsx:18 | trimming a trimmed string changes nothing |
| `JsText.ParseIntText` | src/components/ProductGrid.tsx:86-90 | `parseInt` reads an integer's decimal text back to that integer |
| `JsText.NumberOfNatText` | src/components/admin/ImportProducts.tsx:109 | `Number` reads a whole number's decimal text back to that number |
| `JsText.TextLessTransitive` | src/components/ProductGrid.tsx:110 | the name order is transitive |
| `JsText.TextLessTotal` | src/components/ProductGrid.tsx:110 | any two distinct names are ordered one way or the other |

## Left out

- Persistence: the cart's and the catalogue's `localStorage` load and save are I/O. The cart
  starts empty, and the catalogue starts from a saved list passed to its constructor.
- `CartEngine.Cart.AddToCart`, `RemoveFromCart`, `UpdateQuantity` and `ClearCart` require the
  cart invariant. A cart restored from storage is assumed well formed; the storage code is not
  part of this model.
- Spreadsheet reading and writing belong to the XLSX library. Its `sheet_to_json(..., { header: 1 })`
  output is the input `seq<seq<Cell>>`, and a workbook it rejects is an `Err`. Writing the
  template file is reduced to the template's rows as constants.
- Ids drawn from `Date.now()` and `Math.random()` are parameters: a single id for `addProduct`,
  and one supplied id per product for the import paths. The import panel's `Date.now() +
  Math.random()` is fractional in JavaScript; ids here are integers. The import panel's ids are
  required to be positive, as `Date.now() + Math.random()` is.
- Timing and events: the 300 ms search debounce and the `window` custom event that carries the
  header's search into the grid are left out. The grid reads the query directly.
- Locale services: `localeCompare` is code-point order, and `toLowerCase` maps only ASCII
  letters. `Intl.NumberFormat` price formatting is dropped.
- Number parsing: `parseInt` is complete (whitespace, sign, `0x` prefix, digit prefix; no other
  radixes). `Number(string)` covers whitespace, blank text as 0, a sign, digits and a fraction.
  Exponents, `Infinity`, and `0x`/`0o`/`0b` prefixes are not modelled.
- Arithmetic is on exact reals. IEEE-754 rounding of prices, percentages and the tax is not
  reproduced.
- `Products.DiscountOf`: a zero price with a truthy discount divides by zero in JavaScript,
  giving ±Infinity. The model gives 0, so "discount" sorting and the badge differ from the code
  only for that zero-price case.
- `ImportMapper.CellText`: the source keeps a number or boolean cell as it is in the name,
  category, brand, image and specifications fields: `sheet_to_json` returns raw values and neither
  the `||` chains nor the `{ id, ...item }` spread convert them. Such a value makes `toLowerCase`
  throw in the admin search and in the grid's search, and `localeCompare` throw in the grid's
  name sort. The model converts these cells to text instead, a number by its integer part (see
  Findings); only the admin search's throwing path is modelled as written.
- Toasts, dialogs, and the add and edit product forms are left out: their submit handlers only
  call the catalogue operations modelled here. The header, hero, login form, sidebar and
  dashboard chrome are left out too; they hold no logic of their own.
- The built-in product list (`src/data/products.ts`) is constant data. It is a parameter of
  `IndexPage.DisplayProducts`.

## Findings

| source | as written | input that shows it | evidently intended | confidence | as-written member | corrected member |
|---|---|---|---|---|---|---|
| src/components/admin/ImportProducts.tsx:105-111 | text fields take whatever cell the fallback chain chose, so a number or boolean cell stays a number or boolean in the product | a sheet whose "Product Name" cell is the number 1984: `product.name.toLowerCase()` at src/components/admin/ProductManagement.tsx:47 throws a TypeError on every render of the admin table | imported text fields hold text, searchable like any other product | not executed | `ImportMapper.NumericNameBreaksAdminSearch` | `ImportMapper.ConvertedSearchAgrees` |
