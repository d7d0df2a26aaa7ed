/** The admin product list (src/pages/adminstrator/pages/Products.tsx): a
    case-insensitive search over name, description and category, and the
    selection and dialog state of the add, edit and delete actions. */
module AdminProducts {
  import opened Maybe
  import Text
  import opened ListOps
  import opened ProductRows

  /** The term, lowercased, occurs in the lowercased name, description or
      category. A missing description or category never matches. */
  predicate MatchesTerm(p: Row, term: string) {
    var t := Text.Lower(term);
    Text.Includes(Text.Lower(p.name), t) || Text.Includes(Text.Lower(p.description), t)
      || Text.Includes(Text.Lower(p.category), t)
  }

  function Matcher(term: string): Row -> bool {
    (p: Row) => MatchesTerm(p, term)
  }

  /** The search effect at lines 37-46. */
  function SearchProducts(products: seq<Row>, term: string): (r: seq<Row>)
    ensures |r| <= |products|
    ensures forall i :: 0 <= i < |r| ==> r[i] in products && (term != "" ==> MatchesTerm(r[i], term))
    ensures term == "" ==> r == products
  {
    if term != "" then Filter(products, Matcher(term)) else products
  }

  /** An empty term keeps the list as it is; a non-empty one keeps exactly the
      matching products; either way the result is an order-preserving
      subsequence of the products. */
  lemma SearchSpec(products: seq<Row>, term: string)
    ensures var r := SearchProducts(products, term);
      && (term == "" ==> r == products)
      && (term != "" ==>
            && (forall i :: 0 <= i < |r| ==> r[i] in products && MatchesTerm(r[i], term))
            && (forall i :: 0 <= i < |products| && MatchesTerm(products[i], term) ==> products[i] in r))
      && Subsequence(r, products)
  {
    if term != "" {
      FilterIsSubsequence(products, Matcher(term));
    } else {
      FilterKeepsAll(products, (p: Row) => true);
      FilterIsSubsequence(products, (p: Row) => true);
    }
  }

  /** A product whose name contains the term as typed is found whatever the
      case of the term. */
  lemma SearchFindsName(products: seq<Row>, term: string, i: nat)
    requires i < |products|
    requires Text.Includes(Text.Lower(products[i].name), Text.Lower(term))
    ensures products[i] in SearchProducts(products, term)
    ensures products[i] in SearchProducts(products, Text.Lower(term))
  {
    Text.LowerIdempotent(term);
    assert MatchesTerm(products[i], Text.Lower(term));
  }

  class ProductsPage {
    var products: seq<Row>
    var filteredProducts: seq<Row>
    var searchTerm: string
    var isFormOpen: bool
    var isDeleteDialogOpen: bool
    var selectedProduct: Option<Row>

    ghost predicate Valid()
      reads this
    {
      filteredProducts == SearchProducts(products, searchTerm)
    }

    constructor ()
      ensures products == [] && filteredProducts == [] && searchTerm == ""
      ensures !isFormOpen && !isDeleteDialogOpen && selectedProduct == None && Valid()
    {
      products, filteredProducts, searchTerm := [], [], "";
      isFormOpen, isDeleteDialogOpen, selectedProduct := false, false, None;
    }

    /** `fetchProducts`: the rows on success (`None` on error, which only
        shows a toast). A new list re-runs the search effect. */
    method FetchProducts(data: Option<seq<Row>>)
      modifies this
      ensures data.Some? ==> products == data.value && filteredProducts == SearchProducts(data.value, searchTerm)
      ensures data.None? ==> products == old(products) && filteredProducts == old(filteredProducts)
      ensures searchTerm == old(searchTerm) && selectedProduct == old(selectedProduct)
      ensures isFormOpen == old(isFormOpen) && isDeleteDialogOpen == old(isDeleteDialogOpen)
      ensures old(Valid()) ==> Valid()
    {
      if data.Some? {
        products := data.value;
        filteredProducts := SearchProducts(products, searchTerm);
      }
    }

    /** The search input, followed by the search effect. */
    method SetSearchTerm(term: string)
      modifies this
      ensures searchTerm == term && products == old(products)
      ensures term != old(searchTerm) ==> filteredProducts == SearchProducts(products, term)
      ensures term == old(searchTerm) ==> filteredProducts == old(filteredProducts)
      ensures selectedProduct == old(selectedProduct)
      ensures isFormOpen == old(isFormOpen) && isDeleteDialogOpen == old(isDeleteDialogOpen)
      ensures old(Valid()) ==> Valid()
    {
      if term != searchTerm {
        searchTerm := term;
        filteredProducts := SearchProducts(products, term);
      }
    }

    method OpenEditDialog(p: Row)
      modifies this
      ensures selectedProduct == Some(p) && isFormOpen
      ensures isDeleteDialogOpen == old(isDeleteDialogOpen)
      ensures products == old(products) && filteredProducts == old(filteredProducts) && searchTerm == old(searchTerm)
    {
      selectedProduct := Some(p);
      isFormOpen := true;
    }

    method OpenAddDialog()
      modifies this
      ensures selectedProduct == None && isFormOpen
      ensures isDeleteDialogOpen == old(isDeleteDialogOpen)
      ensures products == old(products) && filteredProducts == old(filteredProducts) && searchTerm == old(searchTerm)
    {
      selectedProduct := None;
      isFormOpen := true;
    }

    method OpenDeleteDialog(p: Row)
      modifies this
      ensures selectedProduct == Some(p) && isDeleteDialogOpen
      ensures isFormOpen == old(isFormOpen)
      ensures products == old(products) && filteredProducts == old(filteredProducts) && searchTerm == old(searchTerm)
    {
      selectedProduct := Some(p);
      isDeleteDialogOpen := true;
    }

    /** `handleDeleteProduct`. `deleteOk` is the outcome of the delete call,
        `refetched` that of the reload that follows a successful delete. The
        id sent to the delete call is returned. */
    method HandleDeleteProduct(deleteOk: bool, refetched: Option<seq<Row>>) returns (deletedId: Option<string>)
      modifies this
      ensures old(selectedProduct).None? ==> deletedId == None && unchanged(this)
      ensures old(selectedProduct).Some? ==> deletedId == Some(old(selectedProduct).value.id)
      ensures old(selectedProduct).Some? && !deleteOk ==>
                selectedProduct == old(selectedProduct) && isDeleteDialogOpen == old(isDeleteDialogOpen)
                && products == old(products) && filteredProducts == old(filteredProducts)
      ensures old(selectedProduct).Some? && deleteOk ==>
                selectedProduct == None && !isDeleteDialogOpen
                && (refetched.Some? ==> products == refetched.value)
                && (refetched.None? ==> products == old(products))
      ensures isFormOpen == old(isFormOpen) && searchTerm == old(searchTerm)
      ensures old(Valid()) ==> Valid()
    {
      if selectedProduct.None? {
        return None;
      }
      deletedId := Some(selectedProduct.value.id);
      if deleteOk {
        FetchProducts(refetched);
        isDeleteDialogOpen := false;
        selectedProduct := None;
      }
    }
  }
}
