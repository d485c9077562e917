/**
 * The order-tracking page (`pages/TrackOrder.tsx`): a case-insensitive lookup of an order id in
 * the store's orders, the error messages of a failed search, and the progress step shown for
 * the order found.
 */
module TrackOrder {
  import opened Wrappers
  import opened Lists
  import opened Text
  import opened Types
  import opened StoreContext

  const BlankQueryError := "Please enter a valid Order ID"
  const NotFoundError := "Order not found. Please check your Order ID."

  /** `orders.find(o => o.id.toLowerCase() === query.toLowerCase())`, as the position of the
      first order whose id equals the query ignoring case. The query is not trimmed. */
  function FindOrder(orders: seq<Order>, query: string): (r: Option<nat>)
    ensures r.Some? ==> r.value < |orders| && EqualsIgnoreCase(orders[r.value].id, query)
    ensures r.Some? ==> forall j :: 0 <= j < r.value ==> !EqualsIgnoreCase(orders[j].id, query)
    ensures r.None? ==> forall i :: 0 <= i < |orders| ==> !EqualsIgnoreCase(orders[i].id, query)
  {
    if orders == [] then None
    else if EqualsIgnoreCase(orders[0].id, query) then Some(0)
    else match FindOrder(orders[1..], query)
      case None => None
      case Some(k) => Some(k + 1)
  }

  /** The case of the query does not matter: upper- or lower-casing it finds the same order. */
  lemma SearchIgnoresCase(orders: seq<Order>, query: string)
    ensures FindOrder(orders, Upper(query)) == FindOrder(orders, query)
    ensures FindOrder(orders, Lower(query)) == FindOrder(orders, query)
  {
    EqualsIgnoreCaseOfCaseChange(query);
    SameLowerSameOrder(orders, Upper(query), query);
    SameLowerSameOrder(orders, Lower(query), query);
  }

  /** Two queries that lower-case alike find the same order. */
  lemma {:induction false} SameLowerSameOrder(orders: seq<Order>, a: string, b: string)
    requires Lower(a) == Lower(b)
    ensures FindOrder(orders, a) == FindOrder(orders, b)
  {
    if orders != [] {
      SameLowerSameOrder(orders[1..], a, b);
    }
  }

  /** An order just appended is found by its own id; it is the one shown unless an older order
      has the same id up to case. */
  lemma AppendedOrderIsFound(orders: seq<Order>, order: Order)
    ensures FindOrder(orders + [order], order.id).Some?
    ensures (forall i :: 0 <= i < |orders| ==> !EqualsIgnoreCase(orders[i].id, order.id)) ==>
      FindOrder(orders + [order], order.id) == Some(|orders|)
  {
    var all := orders + [order];
    assert all[|orders|] == order;
  }

  /** A status change does not move the order the search finds, and the order found then
      carries the new status. */
  lemma SearchAfterStatusUpdate(orders: seq<Order>, id: string, status: Status, query: string)
    requires FindOrder(orders, query).Some?
    ensures FindOrder(SetStatus(orders, id, status), query) == FindOrder(orders, query)
    ensures var k := FindOrder(orders, query).value;
      orders[k].id == id ==> SetStatus(orders, id, status)[k].status == status
  {
    var updated := SetStatus(orders, id, status);
    assert forall i :: 0 <= i < |orders| ==> updated[i].id == orders[i].id;
    var k := FindOrder(orders, query).value;
    var k' := FindOrder(updated, query);
    assert k'.Some? by {
      assert EqualsIgnoreCase(updated[k].id, query);
    }
    assert !(k'.value < k);
    assert !(k < k'.value);
  }

  /** The progress steps the page draws. */
  const Steps: seq<Status> := [Processing, Shipped, Delivered]

  /** `currentStepIndex`: the position of the order's status in the steps, -1 when it is not
      one of them, and 0 when no order is shown. */
  function CurrentStepIndex(shown: Option<Order>): (r: int)
    ensures -1 <= r < |Steps|
    ensures r >= 0 && shown.Some? ==> Steps[r] == shown.value.status
    ensures shown.None? ==> r == 0
  {
    if shown.Some? then IndexOf(Steps, shown.value.status) else 0
  }

  /** `isCancelled`. */
  predicate IsCancelled(shown: Option<Order>) {
    shown.Some? && shown.value.status == Cancelled
  }

  /** The step index of each status, and a cancelled order is exactly one with no step. */
  lemma StepOfStatus(shown: Option<Order>)
    ensures shown.Some? && shown.value.status == Processing ==> CurrentStepIndex(shown) == 0
    ensures shown.Some? && shown.value.status == Shipped ==> CurrentStepIndex(shown) == 1
    ensures shown.Some? && shown.value.status == Delivered ==> CurrentStepIndex(shown) == 2
    ensures CurrentStepIndex(shown) == -1 <==> IsCancelled(shown)
  {
    assert Steps[0] == Processing && Steps[1] == Shipped && Steps[2] == Delivered;
  }

  /** The page's state: the text typed, the order shown and the error shown. `initialId` is the
      `id` query parameter the page was opened with, or empty. */
  class TrackPage {
    const initialId: string
    var orderId: string
    var shown: Option<Order>
    var error: string

    /** First render: the input holds `initialId`; when that is non-empty the search runs at
        once. */
    constructor (initialId: string, orders: seq<Order>)
      ensures this.initialId == initialId && orderId == initialId
      ensures initialId == "" ==> shown.None? && error == ""
      ensures initialId != "" ==> SearchOutcome(orders, None)
    {
      this.initialId := initialId;
      orderId := initialId;
      shown := None;
      error := "";
      new;
      if initialId != "" {
        HandleSearch(orders);
      }
    }

    /** The state after a search over `orders` that started with `before` on screen. */
    ghost predicate SearchOutcome(orders: seq<Order>, before: Option<Order>)
      reads this
    {
      if IsBlank(orderId) then error == BlankQueryError && shown == before
      else match FindOrder(orders, orderId)
        case Some(k) => shown == Some(orders[k]) && error == ""
        case None => shown.None? && error == NotFoundError
    }

    /** The input's `onChange`. */
    method TypeOrderId(text: string)
      modifies this`orderId
      ensures orderId == text
    {
      orderId := text;
    }

    /** `handleSearch`: a blank input only shows an error and keeps the order on screen; otherwise
        the order found is shown, or the not-found error. */
    method HandleSearch(orders: seq<Order>)
      modifies this`shown, this`error
      ensures SearchOutcome(orders, old(shown))
    {
      error := "";
      if IsBlank(orderId) {
        error := BlankQueryError;
        return;
      }
      var found := FindOrder(orders, orderId);
      if found.Some? {
        shown := Some(orders[found.value]);
      } else {
        shown := None;
        error := NotFoundError;
      }
    }

    /** The effect that repeats the search whenever the store's orders change, when the page was
        opened with an id. */
    method OrdersChanged(orders: seq<Order>)
      modifies this`shown, this`error
      ensures initialId != "" ==> SearchOutcome(orders, old(shown))
      ensures initialId == "" ==> shown == old(shown) && error == old(error)
    {
      if initialId != "" {
        HandleSearch(orders);
      }
    }
  }
}
