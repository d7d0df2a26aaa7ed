/** The admin order list (src/pages/adminstrator/pages/Orders.tsx): the
    three order statuses, the optimistic status change that is rolled back
    when the update fails, and the amount shown per ordered line. */
module Orders {
  import opened Maybe
  import opened ListOps
  import CartStore

  datatype Status = EnAttente | Livree | Annulee

  /** The value stored in the `status` column. */
  function StatusValue(s: Status): string {
    match s
      case EnAttente => "en attente"
      case Livree => "livrée"
      case Annulee => "annulée"
  }

  /** The label of the status option. */
  function StatusLabel(s: Status): string {
    match s
      case EnAttente => "En attente"
      case Livree => "Livrée"
      case Annulee => "Annulée"
  }

  /** The options of the status selector, in the order of `statusConfig`. */
  const StatusOptions: seq<Status> := [EnAttente, Livree, Annulee]

  /** The selector's `e.target.value` read back as a status. */
  function ParseStatus(value: string): (r: Option<Status>)
    ensures r.Some? ==> StatusValue(r.value) == value
  {
    if value == "en attente" then Some(EnAttente)
    else if value == "livrée" then Some(Livree)
    else if value == "annulée" then Some(Annulee)
    else None
  }

  /** The selector offers each of the three statuses once, and the value of
      every option reads back as its own status. */
  lemma StatusOptionsComplete()
    ensures |StatusOptions| == 3
    ensures forall s :: s in StatusOptions
    ensures forall i, j :: 0 <= i < j < |StatusOptions| ==> StatusOptions[i] != StatusOptions[j]
    ensures forall s :: ParseStatus(StatusValue(s)) == Some(s)
    ensures forall s, t :: StatusValue(s) == StatusValue(t) ==> s == t
  {
    forall s ensures s in StatusOptions && ParseStatus(StatusValue(s)) == Some(s) {
      match s
        case EnAttente => assert StatusOptions[0] == s;
        case Livree => assert StatusOptions[1] == s && StatusValue(s) != "en attente";
        case Annulee => assert StatusOptions[2] == s && StatusValue(s) != "en attente" && StatusValue(s) != "livrée";
    }
  }

  /** An order row. `order_items` are the cart lines copied at checkout. */
  datatype Order = Order(
    id: int, fullName: string, phoneNumber: string, wilaya: string, shippingType: string,
    shippingCost: int, orderTotal: int, orderItems: seq<CartStore.CartItem>, status: Status)

  /** `o.id === orderId ? { ...o, status: newStatus } : o`. */
  function WithStatusIf(orderId: int, newStatus: Status): Order -> Order {
    (o: Order) => if o.id == orderId then o.(status := newStatus) else o
  }

  /** The optimistic list: the order with the id takes the new status, every
      other order and every other field stays, in the same order. */
  function SetStatus(orders: seq<Order>, orderId: int, newStatus: Status): (r: seq<Order>)
    ensures |r| == |orders|
    ensures forall i :: 0 <= i < |orders| && orders[i].id == orderId ==> r[i] == orders[i].(status := newStatus)
    ensures forall i :: 0 <= i < |orders| && orders[i].id != orderId ==> r[i] == orders[i]
  {
    Map(orders, WithStatusIf(orderId, newStatus))
  }

  /** A second change of the same order overrides the first. */
  lemma SetStatusTwice(orders: seq<Order>, orderId: int, a: Status, b: Status)
    ensures SetStatus(SetStatus(orders, orderId, a), orderId, b) == SetStatus(orders, orderId, b)
  {
  }

  /** Choosing the status an order already has changes nothing. */
  lemma SetSameStatus(orders: seq<Order>, k: nat)
    requires k < |orders|
    requires forall i :: 0 <= i < |orders| && orders[i].id == orders[k].id ==> i == k
    ensures SetStatus(orders, orders[k].id, orders[k].status) == orders
  {
  }

  /** The amount shown for an ordered line. */
  function LineAmount(item: CartStore.CartItem): int {
    item.quantity * item.price
  }

  function SumAmounts(items: seq<CartStore.CartItem>): int {
    if items == [] then 0 else LineAmount(items[0]) + SumAmounts(items[1..])
  }

  /** The line amounts add up to the cart total of the copied lines, so for
      an order placed at checkout they add up to total minus shipping. */
  lemma {:induction false} LineAmountsAddUp(items: seq<CartStore.CartItem>)
    ensures SumAmounts(items) == CartStore.Total(items)
  {
    if items != [] {
      LineAmountsAddUp(items[1..]);
    }
  }

  class OrdersPage {
    var orders: seq<Order>

    constructor ()
      ensures orders == []
    {
      orders := [];
    }

    /** The fetch on mount; on error (`None`) only a toast is shown. */
    method FetchOrders(data: Option<seq<Order>>)
      modifies this
      ensures data.Some? ==> orders == data.value
      ensures data.None? ==> orders == old(orders)
    {
      if data.Some? {
        orders := data.value;
      }
    }

    /** `handleStatusChange`. `updateOk` is the outcome of the update call;
        `optimistic` is the list shown while it is pending. */
    method HandleStatusChange(orderId: int, newStatus: Status, updateOk: bool) returns (optimistic: seq<Order>)
      modifies this
      ensures optimistic == SetStatus(old(orders), orderId, newStatus)
      ensures updateOk ==> orders == optimistic
      ensures !updateOk ==> orders == old(orders)
    {
      var originalOrders := orders;
      orders := SetStatus(orders, orderId, newStatus);
      optimistic := orders;
      if !updateOk {
        orders := originalOrders;
      }
    }
  }
}
