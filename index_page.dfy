/** The storefront page: which view it shows, which products it lists, and its search state. */
module IndexPage {
  import Wrappers
  import opened Products
  import opened JsText
  import CatalogEngine
  import QueryEngine

  datatype View = LoginView | DashboardView | CustomerView

  /** The page's early returns: the login form, the dashboard, or the shop. */
  function SelectView(g: CatalogEngine.Gate): (v: View)
    ensures v == LoginView <==> g.adminMode && !g.authenticated
    ensures v == DashboardView <==> g.adminMode && g.authenticated
    ensures v == CustomerView <==> !g.adminMode
  {
    if g.adminMode && !g.authenticated then LoginView
    else if g.adminMode && g.authenticated then DashboardView
    else CustomerView
  }

  /** Entering admin mode always asks for the password first. */
  lemma EnterAdminShowsLogin(g: CatalogEngine.Gate)
    requires !g.adminMode
    ensures SelectView(CatalogEngine.Toggled(g)) == LoginView
  {
  }

  /** From the login form, the right password opens the dashboard and a wrong one stays put. */
  lemma LoginOpensDashboard(g: CatalogEngine.Gate, pw: string)
    requires SelectView(g) == LoginView
    ensures SelectView(CatalogEngine.LoggedIn(g, pw).0) == if pw == CatalogEngine.AdminPassword then DashboardView else LoginView
  {
  }

  /** Leaving admin mode, by the toggle or by logging out, returns to the shop. */
  lemma LeaveAdminShowsShop(g: CatalogEngine.Gate)
    requires g.adminMode
    ensures SelectView(CatalogEngine.Toggled(g)) == CustomerView
    ensures SelectView(CatalogEngine.LoggedOut(g)) == CustomerView
  {
  }

  /** `displayProducts`: the catalogue when it has products, the built-in list otherwise. */
  function DisplayProducts(admin: seq<Product>, builtIn: seq<Product>): (r: seq<Product>)
    ensures r == admin || r == builtIn
    ensures |admin| > 0 ==> r == admin
    ensures |admin| == 0 ==> r == builtIn
  {
    if |admin| > 0 then admin else builtIn
  }

  /** The grid, handed the page's list and the catalogue, lists the page's choice. */
  lemma GridListsDisplayProducts(admin: seq<Product>, builtIn: seq<Product>)
    ensures QueryEngine.AllProducts(admin, Wrappers.Some(DisplayProducts(admin, builtIn))) == DisplayProducts(admin, builtIn)
  {
  }

  /** The hero banner: shown only while the search is blank. */
  predicate HeroShown(searchQuery: string) {
    Trim(searchQuery) == ""
  }

  /** The page's own state: the stored search query and whether the cart drawer is open. */
  class Page {
    var searchQuery: string
    var cartOpen: bool

    /** The stored query is always trimmed. */
    ghost predicate Valid()
      reads this
    {
      Trim(searchQuery) == searchQuery
    }

    constructor ()
      ensures Valid() && searchQuery == "" && !cartOpen
    {
      searchQuery, cartOpen := "", false;
    }

    /** `handleSearch(query)`: stores the trimmed query. */
    method HandleSearch(query: string)
      modifies this
      ensures Valid() && searchQuery == Trim(query) && cartOpen == old(cartOpen)
      ensures HeroShown(searchQuery) <==> forall k :: 0 <= k < |query| ==> IsSpace(query[k])
      ensures QueryEngine.SearchActive(searchQuery) <==> searchQuery != ""
    {
      TrimIdempotent(query);
      TrimBlank(query);
      searchQuery := Trim(query);
    }

    /** `handleClearSearch()`. */
    method HandleClearSearch()
      modifies this
      ensures Valid() && searchQuery == "" && HeroShown(searchQuery) && cartOpen == old(cartOpen)
    {
      searchQuery := "";
    }

    method SetCartOpen(open: bool)
      requires Valid()
      modifies this
      ensures Valid() && cartOpen == open && searchQuery == old(searchQuery)
    {
      cartOpen := open;
    }
  }
}
