/** The product page (src/pages/ProductDetail.tsx): the fetched row is
    normalised (benefits parsed, a default image list), a quantity stepper
    that never goes below 1 feeds the add-to-cart button, and the stock and
    discount guards decide what is shown. */
module ProductDetail {
  import opened Maybe
  import opened ProductRows
  import CartStore

  /** The `benefits` column as it arrives: nothing (null, undefined or
      another falsy value), a string to parse, an array, or some other value. */
  datatype RawBenefits = NoBenefits | BenefitsText(text: string) | BenefitsArray(items: seq<Json>) | OtherBenefits

  /** A value `JSON.parse` can return. A number is kept as the text
      JavaScript prints for it. Of an object only one thing matters to the
      page: whether its `length` member compares greater than 0. */
  datatype Json =
    | JString(s: string)
    | JNumber(text: string)
    | JBool(b: bool)
    | JNull
    | JArray(items: seq<Json>)
    | JObject(lengthPositive: bool)

  /** `JSON.parse` is left abstract: `None` is the exception it throws. */
  type Parser = string -> Option<Json>

  /** The row with the columns only this page reads. `originalPrice` and
      `inStock` are `None` when undefined or null. */
  datatype DetailRow = DetailRow(row: Row, originalPrice: Option<int>, inStock: Option<bool>, benefits: RawBenefits)

  /** The product kept in state. */
  datatype DetailProduct = DetailProduct(
    id: string, name: string, price: int, thumbnailUrl: string,
    imageUrls: seq<string>, originalPrice: Option<int>, inStock: Option<bool>, benefits: seq<string>)

  /** The benefits value exactly as lines 70-82 compute it: a parsed string
      keeps whatever `JSON.parse` returned. */
  function BenefitsAsWritten(raw: RawBenefits, parse: Parser): (r: Json)
    ensures r.JArray? || (raw.BenefitsText? && raw.text != "" && parse(raw.text) == Some(r))
    ensures raw.BenefitsArray? ==> r == JArray(raw.items)
  {
    match raw
      case NoBenefits => JArray([])
      case BenefitsText(t) =>
        if t == "" then JArray([])
        else (match parse(t) case Some(v) => v case None => JArray([]))
      case BenefitsArray(items) => JArray(items)
      case OtherBenefits => JArray([])
  }

  /** React accepts the value as a child: an object is refused, also when
      it sits anywhere inside an array. */
  predicate Renderable(v: Json)
    decreases v
  {
    match v
      case JObject(_) => false
      case JArray(items) => forall i :: 0 <= i < |items| ==> Renderable(items[i])
      case _ => true
  }

  predicate AllRenderable(items: seq<Json>) {
    forall i :: 0 <= i < |items| ==> Renderable(items[i])
  }

  /** The text React shows for a child: a string or a number as itself, a
      boolean or null as nothing, an array as its items one after another. */
  function Shown(v: Json): string
    decreases v
  {
    match v
      case JString(s) => s
      case JNumber(t) => t
      case JArray(items) => ShownAll(items)
      case _ => ""
  }

  function ShownAll(items: seq<Json>): string
    decreases items
  {
    if items == [] then "" else Shown(items[0]) + ShownAll(items[1..])
  }

  /** The guard `benefits && benefits.length > 0` at line 271 passes: a
      number or a boolean has no `length`, and null is falsy. */
  predicate ListShown(v: Json) {
    match v
      case JString(s) => |s| > 0
      case JArray(items) => |items| > 0
      case JObject(lengthPositive) => lengthPositive
      case _ => false
  }

  /** The render at lines 271-277 throws: the guard passes and then either
      `benefits.map` is not a function (a string, or an object, since a
      parsed object holds no function) or some item cannot be a child. */
  predicate RenderThrows(v: Json) {
    ListShown(v) && (!v.JArray? || !AllRenderable(v.items))
  }

  /** What the list at lines 271-277 shows for a value whose render does
      not throw: one entry per item of an array, and nothing otherwise. */
  function Rendered(v: Json): (r: seq<string>)
    ensures !ListShown(v) ==> r == []
    ensures v.JArray? ==> |r| == |v.items|
  {
    if v.JArray? then seq(|v.items|, i requires 0 <= i < |v.items| => Shown(v.items[i])) else []
  }

  /** A benefits string holding a JSON string (`"\"Hydrate\""`, which
      `JSON.parse` turns into `"Hydrate"`) gets through as a string. */
  lemma BenefitsAsWrittenCanThrow()
    ensures RenderThrows(BenefitsAsWritten(BenefitsText("\"Hydrate\""), (t: string) => Some(JString("Hydrate"))))
  {
  }

  /** `"{\"length\":1}"` parses to an object that passes the length test and
      has no `map`. */
  lemma ObjectWithLengthThrows()
    ensures RenderThrows(BenefitsAsWritten(BenefitsText("{\"length\":1}"), (t: string) => Some(JObject(true))))
  {
  }

  /** `"[{\"a\":1}]"` parses to an array whose item is an object, which
      React refuses as a child. */
  lemma ArrayWithObjectThrows()
    ensures RenderThrows(BenefitsAsWritten(BenefitsText("[{\"a\":1}]"), (t: string) => Some(JArray([JObject(false)]))))
  {
    assert !Renderable(JArray([JObject(false)]).items[0]);
  }

  /** An array kept by the corrected normalisation: the text of each item
      when React can show every item, and nothing otherwise. */
  function Texts(items: seq<Json>): (r: seq<string>)
    ensures AllRenderable(items) ==> |r| == |items| && forall i :: 0 <= i < |items| ==> r[i] == Shown(items[i])
    ensures !AllRenderable(items) ==> r == []
    ensures (forall i :: 0 <= i < |items| ==> items[i].JString?) ==>
              |r| == |items| && forall i :: 0 <= i < |items| ==> r[i] == items[i].s
  {
    if AllRenderable(items) then seq(|items|, i requires 0 <= i < |items| => Shown(items[i])) else []
  }

  /** The intended normalisation: an array is kept when React can show it,
      a string is parsed and kept only when it parses to such an array, and
      everything else (absent, another type, unparseable) becomes []. */
  function Benefits(raw: RawBenefits, parse: Parser): (r: seq<string>)
    ensures raw.BenefitsArray? ==> r == Texts(raw.items)
    ensures raw.BenefitsText? && raw.text != "" && parse(raw.text).Some? && parse(raw.text).value.JArray? ==>
              r == Texts(parse(raw.text).value.items)
    ensures raw.NoBenefits? || raw.OtherBenefits? ==> r == []
    ensures raw.BenefitsText? && (raw.text == "" || parse(raw.text).None?) ==> r == []
    ensures raw.BenefitsText? && raw.text != "" && parse(raw.text).Some? && !parse(raw.text).value.JArray? ==> r == []
  {
    match raw
      case BenefitsArray(items) => Texts(items)
      case BenefitsText(t) =>
        if t == "" then []
        else (match parse(t) case Some(JArray(items)) => Texts(items) case _ => [])
      case _ => []
  }

  /** The corrected list is what the code's page shows whenever the code's
      render does not throw, and it is empty where that render throws. The
      render throws exactly for a non-empty string that parses to a value
      whose render throws, or for a stored array holding an item React
      cannot show. */
  lemma BenefitsCorrected(raw: RawBenefits, parse: Parser)
    ensures !RenderThrows(BenefitsAsWritten(raw, parse)) ==> Benefits(raw, parse) == Rendered(BenefitsAsWritten(raw, parse))
    ensures RenderThrows(BenefitsAsWritten(raw, parse)) ==> Benefits(raw, parse) == []
    ensures RenderThrows(BenefitsAsWritten(raw, parse)) <==>
              (raw.BenefitsText? && raw.text != "" && parse(raw.text).Some? && RenderThrows(parse(raw.text).value))
              || (raw.BenefitsArray? && !AllRenderable(raw.items))
  {
  }

  /** The parsed values whose render throws are these three: a non-empty
      string, an object whose `length` is positive, and a non-empty array
      holding an item React cannot show. A number, a boolean and null never
      throw, and neither does an empty string or array. */
  lemma RenderThrowsCases(v: Json)
    ensures RenderThrows(v) <==>
              (v.JString? && |v.s| > 0) || v == JObject(true)
              || (v.JArray? && exists i :: 0 <= i < |v.items| && !Renderable(v.items[i]))
    ensures v.JNumber? || v.JBool? || v.JNull? || v == JString("") || v == JArray([]) ==> !RenderThrows(v)
  {
  }

  /** `data.image_urls || [data.thumbnail_url]`: a null list becomes the
      thumbnail alone; an empty list is kept. */
  function ImageUrls(row: Row): (r: seq<string>)
    ensures row.imageUrls.None? ==> r == [row.thumbnailUrl]
    ensures row.imageUrls.Some? ==> r == row.imageUrls.value
  {
    match row.imageUrls case Some(urls) => urls case None => [row.thumbnailUrl]
  }

  /** The product stored by the fetch effect (lines 84-88), with the
      corrected benefits. */
  function Normalise(d: DetailRow, parse: Parser): (r: DetailProduct)
    ensures r.id == d.row.id && r.name == d.row.name && r.price == d.row.price && r.thumbnailUrl == d.row.thumbnailUrl
    ensures r.originalPrice == d.originalPrice && r.inStock == d.inStock
    ensures d.row.imageUrls.None? ==> r.imageUrls == [d.row.thumbnailUrl]
    ensures d.row.imageUrls.Some? ==> r.imageUrls == d.row.imageUrls.value
    ensures !RenderThrows(BenefitsAsWritten(d.benefits, parse)) ==>
              r.benefits == Rendered(BenefitsAsWritten(d.benefits, parse))
  {
    BenefitsCorrected(d.benefits, parse);
    DetailProduct(d.row.id, d.row.name, d.row.price, d.row.thumbnailUrl,
                  ImageUrls(d.row), d.originalPrice, d.inStock, Benefits(d.benefits, parse))
  }

  /** The gallery always has an image to show when the row has a thumbnail
      and no image list. */
  lemma NormaliseGallery(d: DetailRow, parse: Parser)
    requires d.row.imageUrls.None?
    ensures |Normalise(d, parse).imageUrls| == 1 && Normalise(d, parse).imageUrls[0] == d.row.thumbnailUrl
  {
  }

  /** `disabled={product.in_stock === false}`. */
  predicate AddDisabled(p: DetailProduct) {
    p.inStock == Some(false)
  }

  /** `product.in_stock !== false`: the "En stock" line. */
  predicate ShownInStock(p: DetailProduct) {
    p.inStock != Some(false)
  }

  /** The button is disabled exactly when the product is shown out of stock;
      a product with no stock column counts as in stock. */
  lemma DisabledIffOutOfStock(p: DetailProduct)
    ensures AddDisabled(p) <==> !ShownInStock(p)
    ensures p.inStock.None? ==> !AddDisabled(p)
  {
  }

  /** `product.original_price && product.original_price > product.price`:
      0 is falsy, so it also asks for a non-zero original price. */
  function ShowsOriginalPrice(p: DetailProduct): (r: bool)
    ensures r ==> p.originalPrice.Some? && p.originalPrice.value > p.price
  {
    match p.originalPrice
      case None => false
      case Some(o) => o != 0 && o > p.price
  }

  /** For a non-negative price the struck-through price shows exactly when
      there is a higher original price. */
  lemma OriginalPriceShownIffHigher(p: DetailProduct)
    requires p.price >= 0
    ensures ShowsOriginalPrice(p) <==> p.originalPrice.Some? && p.originalPrice.value > p.price
  {
  }

  /** The page state: the loaded product (`None` while absent) and the
      stepper's quantity. */
  class DetailPage {
    var product: Option<DetailProduct>
    var quantity: int

    ghost predicate Valid()
      reads this
    {
      quantity >= 1
    }

    constructor ()
      ensures product == None && quantity == 1 && Valid()
    {
      product := None;
      quantity := 1;
    }

    /** The fetch effect: on success the normalised row is stored; on error
        (`None`) the page navigates away and the state is untouched. The
        stored benefits are the corrected list, which is what the code's page
        shows whenever its render does not throw. */
    method LoadProduct(data: Option<DetailRow>, parse: Parser)
      modifies this
      ensures data.Some? ==> product == Some(Normalise(data.value, parse))
      ensures data.Some? && !RenderThrows(BenefitsAsWritten(data.value.benefits, parse)) ==>
                product.value.benefits == Rendered(BenefitsAsWritten(data.value.benefits, parse))
      ensures data.None? ==> product == old(product)
      ensures quantity == old(quantity)
    {
      if data.Some? {
        product := Some(Normalise(data.value, parse));
      }
    }

    /** The "-" button: `Math.max(1, q - 1)`. */
    method Decrement()
      modifies this
      ensures quantity == if old(quantity) - 1 > 1 then old(quantity) - 1 else 1
      ensures quantity >= 1 && product == old(product)
      ensures old(quantity) > 1 ==> quantity == old(quantity) - 1
    {
      if quantity - 1 > 1 {
        quantity := quantity - 1;
      } else {
        quantity := 1;
      }
    }

    /** The "+" button. */
    method Increment()
      modifies this
      ensures quantity == old(quantity) + 1 && product == old(product)
      ensures old(Valid()) ==> Valid()
    {
      quantity := quantity + 1;
    }

    /** `handleAddToCart`: nothing without a product, otherwise the product
        with the selected quantity and its thumbnail. */
    method HandleAddToCart(cart: CartStore.Cart)
      modifies cart
      ensures product.None? ==> cart.items == old(cart.items)
      ensures product.Some? ==> cart.items == CartStore.AddLine(old(cart.items),
        CartStore.CartItem(product.value.id, product.value.name, product.value.price, quantity, product.value.thumbnailUrl))
      ensures cart.isOpen == old(cart.isOpen)
      ensures CartStore.PositiveQuantities(old(cart.items)) && Valid() ==> CartStore.PositiveQuantities(cart.items)
      ensures CartStore.UniqueIds(old(cart.items)) ==> CartStore.UniqueIds(cart.items)
    {
      if product.None? {
        return;
      }
      var p := product.value;
      cart.AddToCart(CartStore.CartItem(p.id, p.name, p.price, quantity, p.thumbnailUrl));
    }
  }

  /** Pressing "-" then "+" from any quantity above 1 comes back to it, and
      from 1 goes to 2. */
  method StepDownUp(page: DetailPage)
    requires page.Valid()
    modifies page
    ensures old(page.quantity) > 1 ==> page.quantity == old(page.quantity)
    ensures old(page.quantity) == 1 ==> page.quantity == 2
  {
    page.Decrement();
    page.Increment();
  }
}
