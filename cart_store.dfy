/** The shopping-cart store of src/store/cartStore.ts: an ordered list of line
    items keyed by product id, plus the visibility flag of the cart panel.
    Every operation of the store replaces `items` by a new list built with
    find/map/filter/spread; those list transformations are the functions
    below, and the class `Cart` is the store itself. */
module CartStore {

  /** One cart line (the `CartItem` interface). Prices and quantities are
      whole dinars / units. */
  datatype CartItem = CartItem(id: string, name: string, price: int, quantity: int, thumbnailUrl: string)

  /** Some line carries `id` (what `items.find(i => i.id === id)` tests). */
  predicate HasId(items: seq<CartItem>, id: string) {
    exists i :: 0 <= i < |items| && items[i].id == id
  }

  /** The store's key invariant: at most one line per product id. */
  ghost predicate UniqueIds(items: seq<CartItem>) {
    forall i, j :: 0 <= i < j < |items| ==> items[i].id != items[j].id
  }

  /** Every stored line has quantity at least 1. */
  ghost predicate PositiveQuantities(items: seq<CartItem>) {
    forall i :: 0 <= i < |items| ==> items[i].quantity >= 1
  }

  /** The `map` of addToCart: every line with `id` has its quantity raised by
      `delta`, every other line is kept as it is. */
  function Increment(items: seq<CartItem>, id: string, delta: int): (r: seq<CartItem>)
    ensures |r| == |items|
    ensures forall i :: 0 <= i < |items| ==>
      r[i] == if items[i].id == id then items[i].(quantity := items[i].quantity + delta) else items[i]
  {
    if items == [] then []
    else
      var head := if items[0].id == id then items[0].(quantity := items[0].quantity + delta) else items[0];
      [head] + Increment(items[1..], id, delta)
  }

  /** The `map` of updateQuantity: every line with `id` gets quantity `q`. */
  function SetQuantityOf(items: seq<CartItem>, id: string, q: int): (r: seq<CartItem>)
    ensures |r| == |items|
    ensures forall i :: 0 <= i < |items| ==>
      r[i] == if items[i].id == id then items[i].(quantity := q) else items[i]
  {
    if items == [] then []
    else
      var head := if items[0].id == id then items[0].(quantity := q) else items[0];
      [head] + SetQuantityOf(items[1..], id, q)
  }

  /** The `filter` of removeFromCart: the lines whose id is not `id`, in order. */
  function RemoveLine(items: seq<CartItem>, id: string): (r: seq<CartItem>)
    ensures |r| <= |items|
    ensures !HasId(r, id)
  {
    if items == [] then []
    else if items[0].id == id then RemoveLine(items[1..], id)
    else [items[0]] + RemoveLine(items[1..], id)
  }

  /** The lines kept by removeFromCart are exactly those of other ids. */
  lemma {:induction false} RemoveMembers(items: seq<CartItem>, id: string)
    ensures forall x :: x in RemoveLine(items, id) <==> x in items && x.id != id
  {
    if items != [] {
      RemoveMembers(items[1..], id);
      assert forall x :: x in items <==> x == items[0] || x in items[1..];
    }
  }

  /** addToCart: merge into the existing line, or append a new one. */
  function AddLine(items: seq<CartItem>, item: CartItem): (r: seq<CartItem>)
    ensures HasId(r, item.id)
    ensures |r| == if HasId(items, item.id) then |items| else |items| + 1
    ensures forall i :: 0 <= i < |items| ==> r[i].id == items[i].id
  {
    if HasId(items, item.id) then Increment(items, item.id, item.quantity)
    else
      assert (items + [item])[|items|] == item;
      items + [item]
  }

  /** updateQuantity: a quantity of 0 or less removes the line. */
  function UpdateLine(items: seq<CartItem>, id: string, q: int): (r: seq<CartItem>)
    ensures q <= 0 ==> !HasId(r, id) && |r| <= |items|
    ensures q > 0 ==> |r| == |items| && forall i :: 0 <= i < |items| ==>
      r[i].id == items[i].id && (items[i].id == id ==> r[i].quantity == q)
  {
    if q <= 0 then RemoveLine(items, id) else SetQuantityOf(items, id, q)
  }

  /** getCartTotal: the fold of price x quantity. */
  function Total(items: seq<CartItem>): int {
    if items == [] then 0 else items[0].price * items[0].quantity + Total(items[1..])
  }

  /** getCartItemCount: the fold of quantities. */
  function ItemCount(items: seq<CartItem>): int {
    if items == [] then 0 else items[0].quantity + ItemCount(items[1..])
  }

  /** The total number of units stored under `id` (the line's quantity when ids are unique). */
  function QuantityOf(items: seq<CartItem>, id: string): int {
    if items == [] then 0 else (if items[0].id == id then items[0].quantity else 0) + QuantityOf(items[1..], id)
  }

  /** How many lines carry `id`. */
  function LinesWith(items: seq<CartItem>, id: string): nat {
    if items == [] then 0 else (if items[0].id == id then 1 else 0) + LinesWith(items[1..], id)
  }

  // ---------------------------------------------------------------------
  // Properties of the list transformations

  lemma {:induction false} TotalAppend(a: seq<CartItem>, b: seq<CartItem>)
    ensures Total(a + b) == Total(a) + Total(b)
    ensures ItemCount(a + b) == ItemCount(a) + ItemCount(b)
    ensures forall id :: QuantityOf(a + b, id) == QuantityOf(a, id) + QuantityOf(b, id)
    ensures forall id :: LinesWith(a + b, id) == LinesWith(a, id) + LinesWith(b, id)
  {
    if a != [] {
      assert (a + b)[1..] == a[1..] + b;
      TotalAppend(a[1..], b);
    } else {
      assert a + b == b;
    }
  }

  lemma {:induction false} LinesWithZero(items: seq<CartItem>, id: string)
    ensures LinesWith(items, id) == 0 <==> !HasId(items, id)
    ensures LinesWith(items, id) == 0 ==> QuantityOf(items, id) == 0
  {
    if items != [] {
      LinesWithZero(items[1..], id);
      if HasId(items[1..], id) {
        var i :| 0 <= i < |items[1..]| && items[1..][i].id == id;
        assert items[i + 1].id == id;
      }
      if HasId(items, id) && items[0].id != id {
        var i :| 0 <= i < |items| && items[i].id == id;
        assert items[1..][i - 1].id == id;
      }
    }
  }

  /** Adding an id already present: same number of lines, each keeps its id,
      name, price and thumbnail (the first stored values), and only the lines
      with that id gain exactly `item.quantity` units. */
  lemma AddExisting(items: seq<CartItem>, item: CartItem)
    requires HasId(items, item.id)
    ensures var r := AddLine(items, item);
      && |r| == |items|
      && (forall i :: 0 <= i < |items| ==>
            r[i].id == items[i].id && r[i].name == items[i].name &&
            r[i].price == items[i].price && r[i].thumbnailUrl == items[i].thumbnailUrl)
      && (forall i :: 0 <= i < |items| && items[i].id == item.id ==>
            r[i].quantity == items[i].quantity + item.quantity)
      && (forall i :: 0 <= i < |items| && items[i].id != item.id ==> r[i] == items[i])
  {
  }

  /** Adding a new id appends the item as the last line, earlier lines untouched. */
  lemma AddNew(items: seq<CartItem>, item: CartItem)
    requires !HasId(items, item.id)
    ensures var r := AddLine(items, item);
      |r| == |items| + 1 && r[..|items|] == items && r[|items|] == item
  {
  }

  /** addToCart keeps ids unique, and keeps quantities positive when the
      caller adds at least one unit. */
  lemma AddKeepsInvariants(items: seq<CartItem>, item: CartItem)
    ensures UniqueIds(items) ==> UniqueIds(AddLine(items, item))
    ensures PositiveQuantities(items) && item.quantity >= 1 ==> PositiveQuantities(AddLine(items, item))
  {
    var r := AddLine(items, item);
    if UniqueIds(items) && !HasId(items, item.id) {
      forall i, j | 0 <= i < j < |r| ensures r[i].id != r[j].id {
        if j == |items| {
          assert r[i] == items[i];
        } else {
          assert r[i] == items[i] && r[j] == items[j];
        }
      }
    }
  }

  /** Adding changes the unit count by exactly the added quantity, one line
      holds the id afterwards, and that line's quantity grows by the added
      quantity. */
  lemma {:induction false} AddCounts(items: seq<CartItem>, item: CartItem)
    requires LinesWith(items, item.id) <= 1
    ensures ItemCount(AddLine(items, item)) == ItemCount(items) + item.quantity
    ensures QuantityOf(AddLine(items, item), item.id) == QuantityOf(items, item.id) + item.quantity
    ensures LinesWith(AddLine(items, item), item.id) == 1
    ensures forall id :: id != item.id ==> QuantityOf(AddLine(items, item), id) == QuantityOf(items, id)
  {
    LinesWithZero(items, item.id);
    if HasId(items, item.id) {
      IncrementCounts(items, item.id, item.quantity);
    } else {
      TotalAppend(items, [item]);
      assert [item][1..] == [];
      assert QuantityOf([item], item.id) == item.quantity && LinesWith([item], item.id) == 1;
      forall other | other != item.id
        ensures QuantityOf(items + [item], other) == QuantityOf(items, other)
      {
        assert QuantityOf([item], other) == 0;
      }
    }
  }

  lemma {:induction false} IncrementCounts(items: seq<CartItem>, id: string, delta: int)
    requires LinesWith(items, id) == 1
    ensures ItemCount(Increment(items, id, delta)) == ItemCount(items) + delta
    ensures QuantityOf(Increment(items, id, delta), id) == QuantityOf(items, id) + delta
    ensures LinesWith(Increment(items, id, delta), id) == 1
    ensures forall other :: other != id ==> QuantityOf(Increment(items, id, delta), other) == QuantityOf(items, other)
  {
    var r := Increment(items, id, delta);
    assert r[1..] == Increment(items[1..], id, delta);
    if items[0].id == id {
      IncrementNone(items[1..], id, delta);
    } else {
      IncrementCounts(items[1..], id, delta);
    }
  }

  lemma {:induction false} IncrementNone(items: seq<CartItem>, id: string, delta: int)
    requires LinesWith(items, id) == 0
    ensures Increment(items, id, delta) == items
  {
    if items != [] {
      IncrementNone(items[1..], id, delta);
      assert Increment(items, id, delta) == [items[0]] + items[1..];
    }
  }

  /** The whole-cart total after an add, when ids are unique: a merged add is
      charged at the price first stored for that id, a new line at its own price. */
  lemma {:induction false} AddTotal(items: seq<CartItem>, item: CartItem, k: nat)
    requires UniqueIds(items)
    requires k < |items| && items[k].id == item.id
    ensures Total(AddLine(items, item)) == Total(items) + items[k].price * item.quantity
  {
    assert HasId(items, item.id);
    IncrementTotal(items, item.id, item.quantity, k);
  }

  lemma {:induction false} IncrementTotal(items: seq<CartItem>, id: string, delta: int, k: nat)
    requires UniqueIds(items)
    requires k < |items| && items[k].id == id
    ensures Total(Increment(items, id, delta)) == Total(items) + items[k].price * delta
  {
    var r := Increment(items, id, delta);
    assert r[1..] == Increment(items[1..], id, delta);
    if k == 0 {
      assert LinesWith(items[1..], id) == 0 by {
        LinesWithZero(items[1..], id);
      }
      IncrementNone(items[1..], id, delta);
    } else {
      IncrementTotal(items[1..], id, delta, k - 1);
    }
  }

  lemma AddNewTotal(items: seq<CartItem>, item: CartItem)
    requires !HasId(items, item.id)
    ensures Total(AddLine(items, item)) == Total(items) + item.price * item.quantity
  {
    TotalAppend(items, [item]);
    assert [item][1..] == [];
  }

  /** The cumulative effect of a series of adds, applied left to right. */
  function AddAll(items: seq<CartItem>, adds: seq<CartItem>): seq<CartItem>
    decreases |adds|
  {
    if adds == [] then items else AddAll(AddLine(items, adds[0]), adds[1..])
  }

  function SumQuantities(adds: seq<CartItem>): int {
    if adds == [] then 0 else adds[0].quantity + SumQuantities(adds[1..])
  }

  /** Repeated adds of one id leave exactly one line for it, whose quantity is
      what was there before plus the sum of the added quantities. */
  lemma {:induction false} RepeatedAdds(items: seq<CartItem>, adds: seq<CartItem>, id: string)
    requires LinesWith(items, id) <= 1
    requires adds != []
    requires forall k :: 0 <= k < |adds| ==> adds[k].id == id
    ensures LinesWith(AddAll(items, adds), id) == 1
    ensures QuantityOf(AddAll(items, adds), id) == QuantityOf(items, id) + SumQuantities(adds)
    decreases |adds|
  {
    AddCounts(items, adds[0]);
    var next := AddLine(items, adds[0]);
    if |adds| > 1 {
      RepeatedAdds(next, adds[1..], id);
    }
  }

  /** With unique ids, removing the line at `k` deletes exactly that line. */
  lemma {:induction false} RemovePresent(items: seq<CartItem>, k: nat)
    requires UniqueIds(items)
    requires k < |items|
    ensures RemoveLine(items, items[k].id) == items[..k] + items[k + 1..]
  {
    var id := items[k].id;
    var tail := items[1..];
    TailUnique(items);
    if k == 0 {
      assert forall i :: 0 <= i < |tail| ==> tail[i].id != id by {
        forall i | 0 <= i < |tail| ensures tail[i].id != id {
          assert tail[i] == items[i + 1];
        }
      }
      RemoveAbsent(tail, id);
      assert items[..0] + items[1..] == tail;
    } else {
      assert items[0].id != id;
      assert tail[k - 1] == items[k];
      RemovePresent(tail, k - 1);
      calc {
        RemoveLine(items, id);
        [items[0]] + RemoveLine(tail, id);
        [items[0]] + (tail[..k - 1] + tail[k..]);
        { assert tail[..k - 1] == items[1..k] && tail[k..] == items[k + 1..]; }
        [items[0]] + (items[1..k] + items[k + 1..]);
        { assert [items[0]] + items[1..k] == items[..k]; }
        items[..k] + items[k + 1..];
      }
    }
  }

  /** Removing an absent id is a no-op. */
  lemma {:induction false} RemoveAbsent(items: seq<CartItem>, id: string)
    requires forall i :: 0 <= i < |items| ==> items[i].id != id
    ensures RemoveLine(items, id) == items
  {
    if items != [] {
      RemoveAbsent(items[1..], id);
      assert [items[0]] + items[1..] == items;
    }
  }

  lemma TailUnique(items: seq<CartItem>)
    requires UniqueIds(items) && items != []
    ensures UniqueIds(items[1..])
    ensures forall x :: x in items[1..] ==> x.id != items[0].id
  {
    var tail := items[1..];
    forall i, j | 0 <= i < j < |tail| ensures tail[i].id != tail[j].id {
      assert tail[i] == items[i + 1] && tail[j] == items[j + 1];
    }
  }

  /** removeFromCart keeps ids unique: what remains is a subsequence. */
  lemma {:induction false} RemoveKeepsUnique(items: seq<CartItem>, id: string)
    requires UniqueIds(items)
    ensures UniqueIds(RemoveLine(items, id))
  {
    if items != [] {
      TailUnique(items);
      RemoveKeepsUnique(items[1..], id);
      if items[0].id != id {
        var rest := RemoveLine(items[1..], id);
        RemoveMembers(items[1..], id);
        var r := [items[0]] + rest;
        forall i, j | 0 <= i < j < |r| ensures r[i].id != r[j].id {
          assert r[j] == rest[j - 1] && r[j] in items[1..];
          if i > 0 { assert r[i] == rest[i - 1]; }
        }
      }
    }
  }

  /** removeFromCart keeps quantities positive. */
  lemma RemoveKeepsPositive(items: seq<CartItem>, id: string)
    requires PositiveQuantities(items)
    ensures PositiveQuantities(RemoveLine(items, id))
  {
    var r := RemoveLine(items, id);
    RemoveMembers(items, id);
    forall i | 0 <= i < |r| ensures r[i].quantity >= 1 {
      assert r[i] in items;
    }
  }

  /** updateQuantity with a value of 0 or less is removeFromCart. */
  lemma UpdateNonPositiveIsRemove(items: seq<CartItem>, id: string, q: int)
    requires q <= 0
    ensures UpdateLine(items, id, q) == RemoveLine(items, id)
  {
  }

  /** updateQuantity with a positive value sets that line's quantity outright,
      leaves every other line and field as it was, and is a no-op for an
      absent id; ids stay unique and quantities positive. */
  lemma UpdatePositive(items: seq<CartItem>, id: string, q: int)
    requires q > 0
    ensures var r := UpdateLine(items, id, q);
      && |r| == |items|
      && (forall i :: 0 <= i < |items| && items[i].id == id ==> r[i] == items[i].(quantity := q))
      && (forall i :: 0 <= i < |items| && items[i].id != id ==> r[i] == items[i])
      && (!HasId(items, id) ==> r == items)
      && (UniqueIds(items) ==> UniqueIds(r))
      && (PositiveQuantities(items) ==> PositiveQuantities(r))
  {
    var r := UpdateLine(items, id, q);
    if !HasId(items, id) {
      assert forall i :: 0 <= i < |items| ==> r[i] == items[i];
    }
    if UniqueIds(items) {
      assert forall i :: 0 <= i < |items| ==> r[i].id == items[i].id;
    }
  }

  /** The cart panel's "-" button calls updateQuantity(id, quantity - 1): on a
      line holding one unit it removes the line. */
  lemma {:induction false} DecrementLastUnitRemoves(items: seq<CartItem>, k: nat)
    requires UniqueIds(items)
    requires k < |items| && items[k].quantity == 1
    ensures UpdateLine(items, items[k].id, items[k].quantity - 1) == items[..k] + items[k + 1..]
  {
    RemovePresent(items, k);
  }

  /** Both folds are 0 on the empty cart and the unit count of a cart whose
      lines all hold at least one unit is at least its number of lines. */
  lemma {:induction false} FoldsBasics(items: seq<CartItem>)
    ensures Total([]) == 0 && ItemCount([]) == 0
    ensures PositiveQuantities(items) ==> ItemCount(items) >= |items|
  {
    if items != [] {
      FoldsBasics(items[1..]);
    }
  }

  /** With no negative prices or quantities neither fold is negative. */
  lemma {:induction false} FoldsNonNegative(items: seq<CartItem>)
    requires forall i :: 0 <= i < |items| ==> items[i].price >= 0 && items[i].quantity >= 0
    ensures Total(items) >= 0 && ItemCount(items) >= 0
  {
    if items != [] {
      FoldsNonNegative(items[1..]);
    }
  }

  /** The worked example: 2 units of A and 3 units of B count as 5. */
  lemma CountExample(a: CartItem, b: CartItem)
    requires a.id != b.id && a.quantity == 2 && b.quantity == 3
    ensures ItemCount(AddAll([], [a, b])) == 5
  {
    assert AddLine([], a) == [a];
    assert !HasId([a], b.id);
    assert AddLine([a], b) == [a, b];
    assert [a, b][1..] == [b];
    assert AddAll([a, b], []) == [a, b];
    assert AddAll([a], [b]) == [a, b];
    assert AddAll([], [a, b]) == [a, b];
    assert [a, b][1..] == [b] && [b][1..] == [];
    assert ItemCount([b]) == 3;
  }

  /** With unique ids an id is on at most one line. */
  lemma {:induction false} UniqueLinesWith(items: seq<CartItem>, id: string)
    requires UniqueIds(items)
    ensures LinesWith(items, id) <= 1
  {
    if items != [] {
      TailUnique(items);
      UniqueLinesWith(items[1..], id);
      if items[0].id == id {
        LinesWithZero(items[1..], id);
      }
    }
  }

  /** The store. `items` and `isOpen` are the two pieces of state replaced by
      the store's `set` calls. */
  class Cart {
    var items: seq<CartItem>
    var isOpen: bool

    constructor ()
      ensures items == [] && !isOpen
    {
      items := [];
      isOpen := false;
    }

    method AddToCart(item: CartItem)
      modifies this
      ensures items == AddLine(old(items), item) && isOpen == old(isOpen)
      ensures UniqueIds(old(items)) ==> UniqueIds(items)
      ensures PositiveQuantities(old(items)) && item.quantity >= 1 ==> PositiveQuantities(items)
    {
      AddKeepsInvariants(items, item);
      items := AddLine(items, item);
    }

    method RemoveFromCart(id: string)
      modifies this
      ensures items == RemoveLine(old(items), id) && isOpen == old(isOpen)
      ensures UniqueIds(old(items)) ==> UniqueIds(items)
      ensures PositiveQuantities(old(items)) ==> PositiveQuantities(items)
    {
      if UniqueIds(items) { RemoveKeepsUnique(items, id); }
      if PositiveQuantities(items) { RemoveKeepsPositive(items, id); }
      items := RemoveLine(items, id);
    }

    method UpdateQuantity(id: string, quantity: int)
      modifies this
      ensures items == UpdateLine(old(items), id, quantity) && isOpen == old(isOpen)
      ensures UniqueIds(old(items)) ==> UniqueIds(items)
      ensures PositiveQuantities(old(items)) ==> PositiveQuantities(items)
    {
      if quantity <= 0 {
        if UniqueIds(items) { RemoveKeepsUnique(items, id); }
        if PositiveQuantities(items) { RemoveKeepsPositive(items, id); }
      } else {
        UpdatePositive(items, id, quantity);
      }
      items := UpdateLine(items, id, quantity);
    }

    method ToggleCart()
      modifies this
      ensures isOpen == !old(isOpen) && items == old(items)
    {
      isOpen := !isOpen;
    }

    method ClearCart()
      modifies this
      ensures items == [] && isOpen == old(isOpen)
    {
      items := [];
    }

    function GetCartTotal(): (r: int)
      reads this
      ensures items == [] ==> r == 0
    {
      Total(items)
    }

    function GetCartItemCount(): (r: int)
      reads this
      ensures items == [] ==> r == 0
      ensures PositiveQuantities(items) ==> r >= |items|
    {
      FoldsBasics(items);
      ItemCount(items)
    }
  }

  /** Two toggles restore the panel state and never touch the items. */
  method ToggleTwice(c: Cart)
    modifies c
    ensures c.isOpen == old(c.isOpen) && c.items == old(c.items)
  {
    c.ToggleCart();
    c.ToggleCart();
  }
}
