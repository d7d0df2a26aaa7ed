/** The public catalogue page (src/pages/ProductCatalog.tsx): the fetched
    rows mapped to products with one display image, a name search and a
    category filter recomputed whenever one of them changes, 9 products per
    page, and an add-to-cart button that always adds one unit. */
module Catalog {
  import opened Maybe
  import Text
  import opened ListOps
  import opened ProductRows
  import CartStore

  datatype CatalogProduct = CatalogProduct(
    id: string, name: string, price: int, description: string, category: string, imageUrl: string)

  /** The category button that applies no category filter. */
  const AllCategories: string := "Tous"
  const ProductsPerPage: nat := 9

  /** The mapping of a fetched row: its fields plus `image_url`. */
  function ToCatalog(p: Row): (r: CatalogProduct)
    ensures r.id == p.id && r.name == p.name && r.price == p.price
    ensures r.description == p.description && r.category == p.category
    ensures r.imageUrl == "" || r.imageUrl == p.thumbnailUrl || (p.imageUrls.Some? && r.imageUrl in p.imageUrls.value)
  {
    ImageUrlIsStored(p);
    CatalogProduct(p.id, p.name, p.price, p.description, p.category, ImageUrlOf(p))
  }

  function NameMatches(query: string): CatalogProduct -> bool {
    (p: CatalogProduct) => Text.Includes(Text.Lower(p.name), Text.Lower(query))
  }

  function InCategory(category: string): CatalogProduct -> bool {
    (p: CatalogProduct) => p.category == category
  }

  /** The search step: only applied to a non-empty query. */
  function Search(products: seq<CatalogProduct>, query: string): seq<CatalogProduct> {
    if query != "" then Filter(products, NameMatches(query)) else products
  }

  /** The category step: only applied when the category is not "Tous". */
  function ByCategory(products: seq<CatalogProduct>, category: string): seq<CatalogProduct> {
    if category != AllCategories then Filter(products, InCategory(category)) else products
  }

  /** The list the filter effect computes. */
  function Visible(products: seq<CatalogProduct>, query: string, category: string): (r: seq<CatalogProduct>)
    ensures |r| <= |products|
    ensures forall i :: 0 <= i < |r| ==> r[i] in products && (category == AllCategories || r[i].category == category)
  {
    ByCategory(Search(products, query), category)
  }

  /** Whether a product is kept: the name contains the query ignoring case
      (any product when the query is empty), and it has the category (any
      category for "Tous"). */
  function Shown(query: string, category: string): CatalogProduct -> bool {
    (p: CatalogProduct) => (query == "" || NameMatches(query)(p)) && (category == AllCategories || InCategory(category)(p))
  }

  /** The two filter steps keep exactly the products `Shown` accepts, in
      their original order. */
  lemma VisibleIsFilter(products: seq<CatalogProduct>, query: string, category: string)
    ensures Visible(products, query, category) == Filter(products, Shown(query, category))
  {
    var shown := Shown(query, category);
    if query != "" && category != AllCategories {
      FilterTwice(products, NameMatches(query), InCategory(category), shown);
    } else if query != "" {
      FilterTwice(products, NameMatches(query), _ => true, shown);
      FilterKeepsAll(Filter(products, NameMatches(query)), _ => true);
    } else if category != AllCategories {
      FilterTwice(products, _ => true, InCategory(category), shown);
      FilterKeepsAll(products, _ => true);
    } else {
      FilterKeepsAll(products, shown);
    }
  }

  /** What `Shown` tests, written out. */
  predicate Matches(p: CatalogProduct, query: string, category: string) {
    && (query == "" || Text.Includes(Text.Lower(p.name), Text.Lower(query)))
    && (category == AllCategories || p.category == category)
  }

  /** The visible list holds exactly the matching products. */
  lemma VisibleMembers(products: seq<CatalogProduct>, query: string, category: string)
    ensures var r := Visible(products, query, category);
      && (forall i :: 0 <= i < |r| ==> r[i] in products && Matches(r[i], query, category))
      && (forall i :: 0 <= i < |products| && Matches(products[i], query, category) ==> products[i] in r)
  {
    VisibleIsFilter(products, query, category);
    var shown := Shown(query, category);
    assert forall p :: shown(p) == Matches(p, query, category);
  }

  /** The visible list is an order-preserving subsequence of all products,
      and all of them for an empty query and "Tous". */
  lemma VisibleOrder(products: seq<CatalogProduct>, query: string, category: string)
    ensures Subsequence(Visible(products, query, category), products)
    ensures query == "" && category == AllCategories ==> Visible(products, query, category) == products
  {
    VisibleIsFilter(products, query, category);
    FilterIsSubsequence(products, Shown(query, category));
  }

  /** The search ignores case: a query and its lowercase form keep the same
      products. */
  lemma SearchIgnoresQueryCase(products: seq<CatalogProduct>, query: string, category: string)
    ensures Visible(products, Text.Lower(query), category) == Visible(products, query, category)
  {
    Text.LowerIdempotent(query);
    assert (Text.Lower(query) == "") == (query == "");
    assert NameMatches(Text.Lower(query)) == NameMatches(query);
  }

  // ---------------------------------------------------------------------
  // Pagination

  /** `filteredProducts.slice((page - 1) * 9, page * 9)`. */
  function Page(list: seq<CatalogProduct>, page: int): (r: seq<CatalogProduct>)
    ensures |r| <= |list|
    ensures page >= 1 ==> |r| <= ProductsPerPage
    ensures forall i :: 0 <= i < |r| ==> r[i] in list
  {
    if page >= 1 then
      SliceWindow(list, page * ProductsPerPage - ProductsPerPage, page * ProductsPerPage);
      Slice(list, page * ProductsPerPage - ProductsPerPage, page * ProductsPerPage)
    else
      Slice(list, page * ProductsPerPage - ProductsPerPage, page * ProductsPerPage)
  }

  /** `Math.ceil(n / 9)`. */
  function TotalPages(n: nat): (r: nat)
    ensures r * ProductsPerPage >= n
    ensures r > 0 ==> (r - 1) * ProductsPerPage < n
    ensures n == 0 <==> r == 0
  {
    (n + ProductsPerPage - 1) / ProductsPerPage
  }

  /** Page `p` (from 1) is the window [(p-1)*9, p*9) of the list, clamped to
      its end, and holds at most 9 products. */
  lemma PageWindow(list: seq<CatalogProduct>, p: int)
    requires p >= 1
    ensures var lo := (p - 1) * ProductsPerPage;
      var hi := if p * ProductsPerPage < |list| then p * ProductsPerPage else |list|;
      && |Page(list, p)| <= ProductsPerPage
      && (lo <= |list| ==> Page(list, p) == list[lo..hi])
      && (lo >= |list| ==> Page(list, p) == [])
  {
    SliceWindow(list, (p - 1) * ProductsPerPage, p * ProductsPerPage);
  }

  /** Pages 1..k laid end to end. */
  function Pages(list: seq<CatalogProduct>, k: nat): seq<CatalogProduct> {
    if k == 0 then [] else Pages(list, k - 1) + Page(list, k)
  }

  lemma {:induction false} PagesPrefix(list: seq<CatalogProduct>, k: nat)
    ensures var n := if k * ProductsPerPage < |list| then k * ProductsPerPage else |list|;
      Pages(list, k) == list[..n]
  {
    if k > 0 {
      PagesPrefix(list, k - 1);
      PageWindow(list, k);
      var m := (k - 1) * ProductsPerPage;
      if m < |list| {
        var n := if k * ProductsPerPage < |list| then k * ProductsPerPage else |list|;
        assert list[..m] + list[m..n] == list[..n];
      }
    }
  }

  /** Pages 1..totalPages reproduce the filtered list, each product once and
      in order. */
  lemma PagesCoverList(list: seq<CatalogProduct>)
    ensures Pages(list, TotalPages(|list|)) == list
  {
    PagesPrefix(list, TotalPages(|list|));
  }

  /** A page past the last one is empty. */
  lemma PageBeyondLast(list: seq<CatalogProduct>, p: int)
    requires p > TotalPages(|list|)
    ensures Page(list, p) == []
  {
    PageWindow(list, p);
  }

  // ---------------------------------------------------------------------
  // The page state

  class CatalogPage {
    var products: seq<CatalogProduct>
    var filteredProducts: seq<CatalogProduct>
    var selectedCategory: string
    var searchQuery: string
    var currentPage: int

    /** The filter effect has run on the current inputs and the page number
        is one of the page buttons' values. */
    ghost predicate Valid()
      reads this
    {
      filteredProducts == Visible(products, searchQuery, selectedCategory) && currentPage >= 1
    }

    constructor ()
      ensures products == [] && filteredProducts == []
      ensures selectedCategory == AllCategories && searchQuery == "" && currentPage == 1
      ensures Valid()
    {
      products, filteredProducts := [], [];
      selectedCategory, searchQuery := AllCategories, "";
      currentPage := 1;
    }

    /** The effect on [searchQuery, selectedCategory, products]. */
    method ApplyFilters()
      modifies this
      ensures filteredProducts == Visible(products, searchQuery, selectedCategory)
      ensures currentPage == 1 && Valid()
      ensures products == old(products) && searchQuery == old(searchQuery)
      ensures selectedCategory == old(selectedCategory)
    {
      var result := products;
      if searchQuery != "" {
        result := Filter(result, NameMatches(searchQuery));
      }
      if selectedCategory != AllCategories {
        result := Filter(result, InCategory(selectedCategory));
      }
      filteredProducts := result;
      currentPage := 1;
    }

    /** The fetch on mount: the rows when it succeeds (`None` on error, which
        changes nothing); the new list re-runs the filter effect. */
    method LoadProducts(data: Option<seq<Row>>)
      modifies this
      ensures data.Some? ==> products == Map(data.value, ToCatalog) && currentPage == 1
      ensures data.None? ==>
                products == old(products) && filteredProducts == old(filteredProducts) && currentPage == old(currentPage)
      ensures filteredProducts == Visible(products, searchQuery, selectedCategory) || data.None?
      ensures searchQuery == old(searchQuery) && selectedCategory == old(selectedCategory)
      ensures old(Valid()) ==> Valid()
    {
      if data.Some? {
        products := Map(data.value, ToCatalog);
        ApplyFilters();
      }
    }

    /** The search input. React re-runs the effect only when the value
        actually changes. */
    method SetSearchQuery(q: string)
      modifies this
      ensures searchQuery == q && products == old(products) && selectedCategory == old(selectedCategory)
      ensures q != old(searchQuery) ==> currentPage == 1 && filteredProducts == Visible(products, q, selectedCategory)
      ensures q == old(searchQuery) ==> currentPage == old(currentPage) && filteredProducts == old(filteredProducts)
      ensures old(Valid()) ==> Valid()
    {
      if q != searchQuery {
        searchQuery := q;
        ApplyFilters();
      }
    }

    /** A category button; clicking the selected one changes nothing. */
    method SetCategory(c: string)
      modifies this
      ensures selectedCategory == c && products == old(products) && searchQuery == old(searchQuery)
      ensures c != old(selectedCategory) ==> currentPage == 1 && filteredProducts == Visible(products, searchQuery, c)
      ensures c == old(selectedCategory) ==> currentPage == old(currentPage) && filteredProducts == old(filteredProducts)
      ensures old(Valid()) ==> Valid()
    {
      if c != selectedCategory {
        selectedCategory := c;
        ApplyFilters();
      }
    }

    /** `paginate`, called by the page buttons 1..totalPages. */
    method Paginate(pageNumber: int)
      modifies this
      ensures currentPage == pageNumber
      ensures products == old(products) && filteredProducts == old(filteredProducts)
      ensures searchQuery == old(searchQuery) && selectedCategory == old(selectedCategory)
      ensures old(Valid()) && pageNumber >= 1 ==> Valid()
    {
      currentPage := pageNumber;
    }

    /** The products rendered: at most 9, all of them visible ones. */
    function CurrentProducts(): (r: seq<CatalogProduct>)
      reads this
      ensures currentPage >= 1 ==> |r| <= ProductsPerPage
      ensures forall i :: 0 <= i < |r| ==> r[i] in filteredProducts
    {
      if currentPage >= 1 then
        PageWindow(filteredProducts, currentPage);
        Page(filteredProducts, currentPage)
      else Page(filteredProducts, currentPage)
    }
  }

  /** `handleAddToCart`: always one unit, the display image as thumbnail. */
  method AddFromCatalog(cart: CartStore.Cart, p: CatalogProduct)
    modifies cart
    ensures cart.items == CartStore.AddLine(old(cart.items), CartStore.CartItem(p.id, p.name, p.price, 1, p.imageUrl))
    ensures cart.isOpen == old(cart.isOpen)
    ensures CartStore.UniqueIds(old(cart.items)) ==>
      && CartStore.UniqueIds(cart.items)
      && CartStore.ItemCount(cart.items) == CartStore.ItemCount(old(cart.items)) + 1
      && CartStore.QuantityOf(cart.items, p.id) == CartStore.QuantityOf(old(cart.items), p.id) + 1
  {
    var item := CartStore.CartItem(p.id, p.name, p.price, 1, p.imageUrl);
    if CartStore.UniqueIds(cart.items) {
      CartStore.UniqueLinesWith(cart.items, p.id);
      CartStore.AddCounts(cart.items, item);
    }
    cart.AddToCart(item);
  }
}
