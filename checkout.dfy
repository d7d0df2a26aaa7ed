/** Checkout pricing and submission (src/pages/Checkout.tsx): the region
    tables, the shipping lookup effect, the order total and the submit
    handler that hands a snapshot of the cart to the order store. */
module Checkout {
  import opened Maybe
  import Text
  import CartStore

  /** The wilayas offered by the region dropdown, in display order; one
      display per source line. */
  const Wilayas: seq<string> :=
    ["Adrar", "Chlef", "Laghouat", "Oum El Bouaghi", "Batna", "Béjaïa", "Biskra"] +
    ["Béchar", "Blida", "Bouira", "Tamanrasset", "Tébessa", "Tlemcen", "Tiaret"] +
    ["Tizi Ouzou", "Alger", "Djelfa", "Jijel", "Sétif", "Saïda", "Skikda"] +
    ["Sidi Bel Abbès", "Annaba", "Guelma", "Constantine", "Médéa", "Mostaganem"] +
    ["M'Sila", "Mascara", "Ouargla", "Oran", "El Bayadh", "Illizi"] +
    ["Bordj Bou Arreridj", "Boumerdès", "El Tarf", "Tindouf", "Tissemsilt"] +
    ["El Oued", "Khenchela", "Souk Ahras", "Tipaza", "Mila", "Aïn Defla"] +
    ["Naâma", "Aïn Témouchent", "Ghardaïa", "Relizane", "Timimoun"] +
    ["Bordj Badji Mokhtar", "Ouled Djellal", "Béni Abbès", "In Salah"] +
    ["In Guezzam", "Touggourt", "Djanet", "El M'Ghair", "El Meniaa"]

  /* The wilaya-to-group object literal lists its keys group by group, so it
     is kept here as the four key lists in literal order; the object's key
     order (`Object.keys`) is their concatenation. */
  const Group1: seq<string> :=
    ["Alger", "Blida", "Boumerdès", "Tipaza", "Médéa", "Tizi Ouzou", "Bouira", "Béjaïa"]
  const Group2: seq<string> :=
    ["Chlef", "Oum El Bouaghi", "Batna", "Jijel", "Sétif", "Skikda"] +
    ["Sidi Bel Abbès", "Annaba", "Guelma", "Constantine", "Mostaganem"] +
    ["M'Sila", "Mascara", "Oran", "Bordj Bou Arreridj", "El Tarf", "Tissemsilt"] +
    ["Khenchela", "Souk Ahras", "Mila", "Aïn Defla", "Aïn Témouchent", "Relizane", "Tiaret"]
  const Group3: seq<string> :=
    ["Laghouat", "Biskra", "Béchar", "Tébessa", "Tlemcen", "Djelfa"] +
    ["Saïda", "El Bayadh", "El Oued", "Naâma"]
  const Group4: seq<string> :=
    ["Adrar", "Tamanrasset", "Ouargla", "Illizi", "Tindouf"] +
    ["Ghardaïa", "Timimoun", "Bordj Badji Mokhtar", "Ouled Djellal"] +
    ["Béni Abbès", "In Salah", "In Guezzam", "Touggourt", "Djanet"] +
    ["El M'Ghair", "El Meniaa"]

  /** `Object.keys(wilayaToGroup)`. */
  const GroupKeys: seq<string> := Group1 + Group2 + Group3 + Group4

  /** `wilayaToGroup[w]`: the group of a key, nothing for any other string. */
  function GroupOf(w: string): (r: Option<int>)
    ensures r.Some? <==> w in GroupKeys
    ensures r.Some? ==> 1 <= r.value <= 4
  {
    if w in Group1 then Some(1)
    else if w in Group2 then Some(2)
    else if w in Group3 then Some(3)
    else if w in Group4 then Some(4)
    else None
  }

  datatype Livraison = Domicile | Bureau

  /** `shippingPrices[type][group] || 0`: the tariff cell, 0 for a group the
      table has no cell for. */
  function Tariff(t: Livraison, group: int): (r: int)
    ensures 1 <= group <= 4 ==> r >= 350
    ensures !(1 <= group <= 4) ==> r == 0
  {
    match t
    case Bureau => if group == 1 then 350 else if group == 2 then 450 else if group == 3 then 450 else if group == 4 then 750 else 0
    case Domicile => if group == 1 then 600 else if group == 2 then 600 else if group == 3 then 800 else if group == 4 then 1200 else 0
  }

  /** `keys.find(key => key.toLowerCase() === w.toLowerCase())`: the first key,
      in key order, equal to `w` up to case. */
  function FindIgnoringCase(keys: seq<string>, w: string): (r: Option<string>)
    ensures r.Some? ==> r.value in keys && Text.Lower(r.value) == Text.Lower(w)
    ensures r.None? <==> forall k :: k in keys ==> Text.Lower(k) != Text.Lower(w)
  {
    if keys == [] then None
    else if Text.Lower(keys[0]) == Text.Lower(w) then Some(keys[0])
    else FindIgnoringCase(keys[1..], w)
  }

  /** The shipping effect (the value it stores in `shippingCost`). */
  function ShippingCost(selected: string, t: Livraison): (r: int)
    ensures selected == "" ==> r == 0
    ensures selected in GroupKeys ==> GroupOf(selected).Some? && r == Tariff(t, GroupOf(selected).value)
    ensures r == 0 || r >= 350
  {
    if selected == "" then 0
    else match GroupOf(selected)
      case Some(g) => Tariff(t, g)
      case None =>
        match FindIgnoringCase(GroupKeys, selected)
        case Some(k) => (match GroupOf(k) case Some(g) => Tariff(t, g) case None => 0)
        case None => 0
  }

  // ---------------------------------------------------------------------
  // The tables

  /** Every wilaya of the dropdown has a group. */
  lemma DropdownCovered()
    ensures forall w :: w in Wilayas ==> w in GroupKeys
  {
  }

  /** For a mapped wilaya the cost is the tariff cell of its group. */
  lemma MappedCost(w: string, t: Livraison)
    requires w in GroupKeys
    ensures GroupOf(w).Some? && ShippingCost(w, t) == Tariff(t, GroupOf(w).value)
    ensures ShippingCost(w, t) >= 350
  {
    assert w != "" by { assert "" !in GroupKeys; }
  }

  /** Shipping is at least 350 DA for every wilaya selectable from the list. */
  lemma DropdownShippingAtLeast350(w: string, t: Livraison)
    requires w in Wilayas
    ensures ShippingCost(w, t) >= 350
  {
    DropdownCovered();
    MappedCost(w, t);
  }

  lemma OranDomicile()
    ensures ShippingCost("Oran", Domicile) == 600
  {
    assert "Oran" !in Group1;
    assert "Oran" in Group2;
  }

  lemma AdrarBureau()
    ensures ShippingCost("Adrar", Bureau) == 750
  {
    assert "Adrar" !in Group1 && "Adrar" !in Group2 && "Adrar" !in Group3;
    assert "Adrar" in Group4;
  }

  lemma AlgerDomicile()
    ensures ShippingCost("Alger", Domicile) == 600
  {
    assert "Alger" in Group1;
  }

  /** No selection costs nothing; a name that is not a key is looked up up to
      case, and costs nothing when no key matches. */
  lemma UnmappedCost(w: string, t: Livraison)
    ensures w == "" ==> ShippingCost(w, t) == 0
    ensures w != "" && w !in GroupKeys ==>
      match FindIgnoringCase(GroupKeys, w)
      case Some(k) => ShippingCost(w, t) == Tariff(t, GroupOf(k).value) && ShippingCost(w, t) >= 350
      case None => ShippingCost(w, t) == 0
  {
  }

  /** Whatever is selected, the cost is either 0 or one of the tariff cells. */
  lemma CostIsACell(w: string, t: Livraison)
    ensures ShippingCost(w, t) == 0 || exists g :: 1 <= g <= 4 && ShippingCost(w, t) == Tariff(t, g)
  {
    if ShippingCost(w, t) != 0 {
      if GroupOf(w).Some? {
        assert ShippingCost(w, t) == Tariff(t, GroupOf(w).value);
      } else {
        var k := FindIgnoringCase(GroupKeys, w).value;
        assert ShippingCost(w, t) == Tariff(t, GroupOf(k).value);
      }
    }
  }

  // ---------------------------------------------------------------------
  // Submission

  /** The record inserted into the `orders` table. `orderItems` copies the
      five fields of every cart line, so it equals the list of lines. */
  datatype OrderRecord = OrderRecord(
    fullName: string, phoneNumber: string, wilaya: string, shippingType: Livraison,
    shippingCost: int, orderTotal: int, orderItems: seq<CartStore.CartItem>, status: string)

  /** What the submit handler did. */
  datatype SubmitOutcome =
    | NoWilaya                        // refused before any record is built
    | InsertFailed(order: OrderRecord) // the store reported an error; cart kept
    | Placed(order: OrderRecord)       // the insert succeeded; cart cleared

  /** What the page shows: an empty cart gets a notice and no order form. */
  datatype Screen = EmptyCartNotice | OrderForm

  function ScreenFor(items: seq<CartStore.CartItem>): (r: Screen)
    ensures r == OrderForm <==> |items| > 0
  {
    if |items| == 0 then EmptyCartNotice else OrderForm
  }

  /** The checkout page's state. `shippingCost` is kept by the effect that
      reruns the lookup whenever the selection changes. */
  class CheckoutPage {
    const cart: CartStore.Cart
    var fullName: string
    var phone: string
    var selectedWilaya: string
    var livraisonType: Livraison
    var shippingCost: int

    /** The effect has run: the stored cost is the lookup of the current selection. */
    ghost predicate Valid()
      reads this
    {
      shippingCost == ShippingCost(selectedWilaya, livraisonType)
    }

    constructor (cart: CartStore.Cart)
      ensures this.cart == cart && Valid()
      ensures fullName == "" && phone == "" && selectedWilaya == "" && livraisonType == Domicile
      ensures shippingCost == 0
    {
      this.cart := cart;
      fullName, phone := "", "";
      selectedWilaya := "";
      livraisonType := Domicile;
      shippingCost := 0;
    }

    /** The lookup effect (lines 66-88). */
    method RecomputeShipping()
      modifies this
      ensures Valid()
      ensures selectedWilaya == old(selectedWilaya) && livraisonType == old(livraisonType)
      ensures fullName == old(fullName) && phone == old(phone)
    {
      if selectedWilaya != "" {
        var group := GroupOf(selectedWilaya);
        if group.Some? {
          shippingCost := Tariff(livraisonType, group.value);
        } else {
          var closest := FindIgnoringCase(GroupKeys, selectedWilaya);
          if closest.Some? {
            var g := GroupOf(closest.value);
            shippingCost := Tariff(livraisonType, g.value);
          } else {
            shippingCost := 0;
          }
        }
      } else {
        shippingCost := 0;
      }
    }

    method SelectWilaya(w: string)
      modifies this
      ensures selectedWilaya == w && livraisonType == old(livraisonType) && Valid()
      ensures fullName == old(fullName) && phone == old(phone)
    {
      selectedWilaya := w;
      RecomputeShipping();
    }

    method SetLivraisonType(t: Livraison)
      modifies this
      ensures livraisonType == t && selectedWilaya == old(selectedWilaya) && Valid()
      ensures fullName == old(fullName) && phone == old(phone)
    {
      livraisonType := t;
      RecomputeShipping();
    }

    /** `total = subtotal + shippingCost`. */
    function OrderTotal(): (r: int)
      reads this, cart
      ensures r == CartStore.Total(cart.items) + shippingCost
      ensures Valid() ==> r == CartStore.Total(cart.items) + ShippingCost(selectedWilaya, livraisonType)
    {
      cart.GetCartTotal() + shippingCost
    }

    /** handleOrderSubmit: refuse without a wilaya; otherwise build the record
        from the current state and insert it; `insertSucceeded` is the order
        store's answer. Only a successful insert clears the cart. */
    method HandleOrderSubmit(insertSucceeded: bool) returns (outcome: SubmitOutcome)
      modifies cart
      ensures selectedWilaya == "" <==> outcome == NoWilaya
      ensures outcome != NoWilaya ==>
        var o := outcome.order;
        && o.fullName == fullName && o.phoneNumber == phone
        && o.wilaya == selectedWilaya && o.shippingType == livraisonType
        && o.shippingCost == shippingCost
        && (Valid() ==> o.shippingCost == ShippingCost(selectedWilaya, livraisonType))
        && o.orderTotal == CartStore.Total(old(cart.items)) + o.shippingCost
        && o.orderItems == old(cart.items)
        && o.status == "en attente"
      ensures outcome.Placed? <==> selectedWilaya != "" && insertSucceeded
      ensures cart.items == (if outcome.Placed? then [] else old(cart.items))
      ensures cart.isOpen == old(cart.isOpen)
    {
      if selectedWilaya == "" {
        return NoWilaya;
      }
      var total := OrderTotal();
      var order := OrderRecord(fullName, phone, selectedWilaya, livraisonType,
                               shippingCost, total, SnapshotItems(cart.items), "en attente");
      if insertSucceeded {
        cart.ClearCart();
        outcome := Placed(order);
      } else {
        outcome := InsertFailed(order);
      }
    }
  }

  /** `items.map(item => ({id, name, price, quantity, thumbnail_url}))`. */
  function SnapshotItems(items: seq<CartStore.CartItem>): (r: seq<CartStore.CartItem>)
    ensures r == items
  {
    if items == [] then []
    else
      var i := items[0];
      [CartStore.CartItem(i.id, i.name, i.price, i.quantity, i.thumbnailUrl)] + SnapshotItems(items[1..])
  }

  /** The worked example: 2 units at 1000 DA shipped to Oran at home cost 2600 DA. */
  lemma OranExample(x: CartStore.CartItem)
    requires x.price == 1000 && x.quantity == 2
    ensures CartStore.Total([x]) + ShippingCost("Oran", Domicile) == 2600
  {
    OranDomicile();
    assert [x][1..] == [];
  }
}
