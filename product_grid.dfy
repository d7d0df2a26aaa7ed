/** The home page grid (src/components/ProductGrid.tsx): fetched rows mapped
    to cards, a category filter, and an add-to-cart button that adds one
    unit. The scroll animation state is not modelled. */
module ProductGrid {
  import opened ListOps
  import opened ProductRows
  import CartStore

  datatype GridProduct = GridProduct(
    id: string, name: string, price: int, category: string, imageUrl: string,
    isNew: bool, isBestSeller: bool)

  const AllCategories: string := "Tous"
  /** The category given to a row without one. */
  const Uncategorised: string := "Autres"
  /** The filter buttons. */
  const Categories: seq<string> := ["Tous", "Maquillage", "Parfum", "Soin", "Cheveux", "Accessoires"]

  /** The `data.map` step. */
  function ToGrid(p: Row): (r: GridProduct)
    ensures r.id == p.id && r.name == p.name && r.price == p.price
    ensures r.category != ""
    ensures p.category != "" ==> r.category == p.category
    ensures r.imageUrl == "" || r.imageUrl == p.thumbnailUrl || (p.imageUrls.Some? && r.imageUrl in p.imageUrls.value)
    ensures !r.isNew && !r.isBestSeller
  {
    ImageUrlIsStored(p);
    GridProduct(p.id, p.name, p.price, if p.category != "" then p.category else Uncategorised,
                ImageUrlOf(p), false, false)
  }

  function MapRows(data: seq<Row>): (r: seq<GridProduct>)
    ensures |r| == |data|
    ensures forall i :: 0 <= i < |data| ==> r[i] == ToGrid(data[i])
  {
    Map(data, ToGrid)
  }

  /** The mapping keeps the rows in order, gives every card a category, and
      never sets the two flags. */
  lemma MapRowsSpec(data: seq<Row>)
    ensures var cards := MapRows(data);
      && |cards| == |data|
      && forall i :: 0 <= i < |data| ==>
           && cards[i].id == data[i].id && cards[i].name == data[i].name && cards[i].price == data[i].price
           && cards[i].category != ""
           && (data[i].category == "" ==> cards[i].category == Uncategorised)
           && (data[i].category != "" ==> cards[i].category == data[i].category)
           && cards[i].imageUrl == ImageUrlOf(data[i])
           && !cards[i].isNew && !cards[i].isBestSeller
  {
  }

  function InCategory(category: string): GridProduct -> bool {
    (p: GridProduct) => p.category == category
  }

  /** The filter effect at lines 93-101. */
  function FilterByCategory(products: seq<GridProduct>, category: string): seq<GridProduct> {
    if category == AllCategories then products else Filter(products, InCategory(category))
  }

  /** "Tous" shows every product in order; any other category exactly the
      products with that category, in order. */
  lemma FilterSpec(products: seq<GridProduct>, category: string)
    ensures var r := FilterByCategory(products, category);
      && (category == AllCategories ==> r == products)
      && (category != AllCategories ==>
            && (forall i :: 0 <= i < |r| ==> r[i] in products && r[i].category == category)
            && (forall i :: 0 <= i < |products| && products[i].category == category ==> products[i] in r))
      && Subsequence(r, products)
  {
    if category != AllCategories {
      FilterIsSubsequence(products, InCategory(category));
    } else {
      FilterKeepsAll(products, (p: GridProduct) => true);
      FilterIsSubsequence(products, (p: GridProduct) => true);
    }
  }

  /** A row without a category is shown under "Tous" and under no other
      filter button. */
  lemma UncategorisedOnlyUnderAll(data: seq<Row>, i: nat, category: string)
    requires i < |data| && data[i].category == ""
    requires category in Categories && category != AllCategories
    ensures ToGrid(data[i]) in FilterByCategory(MapRows(data), AllCategories)
    ensures ToGrid(data[i]) !in FilterByCategory(MapRows(data), category)
  {
    assert MapRows(data)[i] == ToGrid(data[i]);
  }

  /** `handleAddToCart`: one unit, the card image as thumbnail. */
  method AddFromGrid(cart: CartStore.Cart, p: GridProduct)
    modifies cart
    ensures cart.items == CartStore.AddLine(old(cart.items), CartStore.CartItem(p.id, p.name, p.price, 1, p.imageUrl))
    ensures cart.isOpen == old(cart.isOpen)
    ensures CartStore.UniqueIds(old(cart.items)) ==>
      && CartStore.UniqueIds(cart.items)
      && CartStore.ItemCount(cart.items) == CartStore.ItemCount(old(cart.items)) + 1
      && CartStore.QuantityOf(cart.items, p.id) == CartStore.QuantityOf(old(cart.items), p.id) + 1
  {
    var item := CartStore.CartItem(p.id, p.name, p.price, 1, p.imageUrl);
    if CartStore.UniqueIds(cart.items) {
      CartStore.UniqueLinesWith(cart.items, p.id);
      CartStore.AddCounts(cart.items, item);
    }
    cart.AddToCart(item);
  }
}
