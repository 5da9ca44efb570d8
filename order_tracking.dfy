/**
 * The customer order store with tracking: look-ups, status updates that regenerate the
 * tracking history, simulated progress, and creation of new orders. The store is a
 * sequence of `Order` records, newest first.
 */
module OrderTracking {
  import opened Wrappers
  import opened Seqs
  import opened Strings
  import opened Business
  import opened OrderSimulator

  /** An order whose tracking history is exactly the one its status determines. */
  predicate Consistent(o: Order)
  {
    o.trackingEvents == TrackingEvents(o)
  }

  /** `b` is `a` with at most the status, the update time and the history replaced. */
  predicate SameRecord(a: Order, b: Order)
  {
    b == a.(status := b.status, updatedAt := b.updatedAt, trackingEvents := b.trackingEvents)
  }

  /** The first order with the given id, as `getOrderById` returns it. */
  function OrderById(orders: seq<Order>, orderId: string): (r: Option<Order>)
    ensures r.None? <==> forall i :: 0 <= i < |orders| ==> orders[i].id != orderId
    ensures r.Some? ==> exists i :: 0 <= i < |orders| && orders[i] == r.value && r.value.id == orderId &&
                                 (forall j :: 0 <= j < i ==> orders[j].id != orderId)
  {
    Find(orders, (o: Order) => o.id == orderId)
  }

  /** The first order with the given tracking number, as `getOrderByTracking` returns it. */
  function OrderByTracking(orders: seq<Order>, trackingNumber: string): (r: Option<Order>)
    ensures r.None? <==> forall i :: 0 <= i < |orders| ==> orders[i].trackingNumber != trackingNumber
    ensures r.Some? ==> exists i :: 0 <= i < |orders| && orders[i] == r.value &&
                                 r.value.trackingNumber == trackingNumber &&
                                 (forall j :: 0 <= j < i ==> orders[j].trackingNumber != trackingNumber)
  {
    Find(orders, (o: Order) => o.trackingNumber == trackingNumber)
  }

  /** One order after `updateOrderStatus`: new status and time, history regenerated. */
  function Restatus(order: Order, newStatus: OrderStatus, now: int): (u: Order)
    ensures u.status == newStatus && u.updatedAt == now
    ensures SameRecord(order, u)
    ensures Consistent(u)
  {
    var updated := order.(status := newStatus, updatedAt := now);
    updated.(trackingEvents := TrackingEvents(updated))
  }

  /**
   * The store after `updateOrderStatus(orderId, newStatus)`: every order carrying the id is
   * restatused, every other order is left as it was, and the order of the store is kept.
   */
  function WithStatus(orders: seq<Order>, orderId: string, newStatus: OrderStatus, now: int): (r: seq<Order>)
    ensures |r| == |orders|
    ensures forall i :: 0 <= i < |orders| ==> r[i].id == orders[i].id
    ensures forall i :: 0 <= i < |orders| && orders[i].id != orderId ==> r[i] == orders[i]
    ensures forall i :: 0 <= i < |orders| && orders[i].id == orderId ==>
              r[i].status == newStatus && r[i].updatedAt == now && SameRecord(orders[i], r[i]) && Consistent(r[i])
  {
    seq(|orders|, i requires 0 <= i < |orders| =>
      if orders[i].id == orderId then Restatus(orders[i], newStatus, now) else orders[i])
  }

  /** Updating an id that is not in the store changes nothing. */
  lemma UnknownIdUnchanged(orders: seq<Order>, orderId: string, newStatus: OrderStatus, now: int)
    requires OrderById(orders, orderId).None?
    ensures WithStatus(orders, orderId, newStatus, now) == orders
  {
  }

  /** A store whose histories all agree with their statuses stays that way under updates. */
  lemma WithStatusKeepsConsistent(orders: seq<Order>, orderId: string, newStatus: OrderStatus, now: int)
    requires forall i :: 0 <= i < |orders| ==> Consistent(orders[i])
    ensures forall i :: 0 <= i < |orders| ==> Consistent(WithStatus(orders, orderId, newStatus, now)[i])
  {
  }

  /** After an update, looking the id up again finds the new status. */
  lemma UpdateThenLookup(orders: seq<Order>, orderId: string, newStatus: OrderStatus, now: int)
    requires OrderById(orders, orderId).Some?
    ensures OrderById(WithStatus(orders, orderId, newStatus, now), orderId).Some?
    ensures OrderById(WithStatus(orders, orderId, newStatus, now), orderId).value.status == newStatus
  {
    var r := WithStatus(orders, orderId, newStatus, now);
    var i :| 0 <= i < |orders| && orders[i] == OrderById(orders, orderId).value &&
             OrderById(orders, orderId).value.id == orderId;
    assert r[i].id == orderId;
    var found := OrderById(r, orderId);
    assert found.Some?;
    var k :| 0 <= k < |r| && r[k] == found.value && found.value.id == orderId;
    assert orders[k].id == orderId;
  }

  /**
   * Progressing an order that is not yet completed keeps its whole history and puts
   * exactly one new event, for the next status, in front of it.
   */
  lemma {:induction false} ProgressPrependsOneEvent(order: Order, now: int)
    requires order.status != Completed
    ensures var u := Restatus(order, SimulateOrderProgress(order), now);
            |TrackingEvents(u)| == |TrackingEvents(order)| + 1 &&
            TrackingEvents(u)[0].status == SimulateOrderProgress(order) &&
            TrackingEvents(u)[1..] == TrackingEvents(order)
  {
    var u := Restatus(order, SimulateOrderProgress(order), now);
    assert u.id == order.id && u.createdAt == order.createdAt;
    HistoryOfNextStatus(order.id, order.status, order.createdAt);
  }

  /** The store after `progressOrder(orderId)`: the first order with the id decides the next status. */
  function Progressed(orders: seq<Order>, orderId: string, now: int): (r: seq<Order>)
    ensures OrderById(orders, orderId).None? ==> r == orders
    ensures OrderById(orders, orderId).Some? && OrderById(orders, orderId).value.status == Completed ==> r == orders
    ensures OrderById(orders, orderId).Some? && OrderById(orders, orderId).value.status != Completed ==>
              r == WithStatus(orders, orderId, SimulateOrderProgress(OrderById(orders, orderId).value), now)
  {
    match OrderById(orders, orderId)
    case None => orders
    case Some(order) =>
      var nextStatus := SimulateOrderProgress(order);
      if nextStatus != order.status then WithStatus(orders, orderId, nextStatus, now) else orders
  }

  /** With unique ids, progress moves the order one step along the flow and adds one event. */
  lemma ProgressAdvancesOneStep(orders: seq<Order>, orderId: string, now: int, i: nat)
    requires i < |orders| && orders[i].id == orderId && orders[i].status != Completed
    requires forall j :: 0 <= j < |orders| && orders[j].id == orderId ==> j == i
    ensures IndexOf(Progressed(orders, orderId, now)[i].status) == IndexOf(orders[i].status) + 1
    ensures Consistent(orders[i]) ==>
              |Progressed(orders, orderId, now)[i].trackingEvents| == |orders[i].trackingEvents| + 1
  {
    var found := OrderById(orders, orderId);
    var k :| 0 <= k < |orders| && orders[k] == found.value && found.value.id == orderId;
    assert k == i;
    ProgressPrependsOneEvent(orders[i], now);
  }

  /** What the caller supplies to `createOrder`: an order without id, tracking number, history or times. */
  datatype OrderDraft = OrderDraft(
    productId: string,
    customerId: string,
    customerEmail: string,
    status: OrderStatus,
    shippingAddress: ShippingAddress,
    costBreakdown: CostBreakdown,
    revenueBreakdown: RevenueBreakdown,
    estimatedDelivery: int)

  /** The id `ORD-<now>-<suffix>`; the suffix stands for the upper-cased random base-36 digits. */
  function NewOrderId(now: nat, randomSuffix: string): (id: string)
    ensures id == "ORD-" + NatToString(now) + "-" + randomSuffix
    ensures "ORD-" <= id
  {
    "ORD-" + NatToString(now) + "-" + randomSuffix
  }

  /**
   * The id determines both the clock reading and the suffix: the digits end at the first
   * `-` after the prefix. So two orders created at different times, or with different
   * suffixes, get different ids.
   */
  lemma NewOrderIdInjective(n1: nat, n2: nat, s1: string, s2: string)
    requires NewOrderId(n1, s1) == NewOrderId(n2, s2)
    ensures n1 == n2 && s1 == s2
  {
    var a := NatToString(n1);
    var b := NatToString(n2);
    var id := "ORD-" + a + "-" + s1;
    assert id == "ORD-" + b + "-" + s2;
    assert id[4..] == a + "-" + s1 && id[4..] == b + "-" + s2;
    DigitsEndAtDash(a, s1, b, s2);
    assert a == id[4..4 + |a|] == b;
    ParseNatToString(n1);
    ParseNatToString(n2);
    assert s1 == id[5 + |a|..] == s2;
  }

  /** Two digit runs that are each followed by a `-` in the same string have the same length. */
  lemma DigitsEndAtDash(a: string, s1: string, b: string, s2: string)
    requires forall i :: 0 <= i < |a| ==> IsDigit(a[i])
    requires forall i :: 0 <= i < |b| ==> IsDigit(b[i])
    requires a + "-" + s1 == b + "-" + s2
    ensures |a| == |b|
  {
    var t := a + "-" + s1;
    assert !IsDigit(t[|a|]) && !IsDigit(t[|b|]);
    assert forall k :: 0 <= k < |a| ==> IsDigit(t[k]);
    assert forall k :: 0 <= k < |b| ==> IsDigit(t[k]);
  }

  /** The tracking number `TR` followed by the clock's digits from the fourth on. */
  function NewTrackingNumber(now: nat): (tn: string)
    ensures |tn| >= 2 && tn[..2] == "TR"
    ensures tn[2..] == Substring(NatToString(now), 3)
    ensures |tn| == 2 + (if |NatToString(now)| >= 3 then |NatToString(now)| - 3 else 0)
    ensures forall i :: 2 <= i < |tn| ==> IsDigit(tn[i])
  {
    "TR" + Substring(NatToString(now), 3)
  }

  /** For any clock reading with thirteen digits the tracking number is `TR` plus ten digits. */
  lemma TrackingNumberOfThirteenDigitClock(now: nat)
    requires Pow10(12) <= now < Pow10(13)
    ensures |NewTrackingNumber(now)| == 12
    ensures NewTrackingNumber(now) == "TR" + SliceLast(NatToString(now), 10)
  {
    NatToStringLength(now, 13);
    SubstringThreeOfThirteen(NatToString(now));
  }

  /** The store: `loadOrders` fills it, the other operations rewrite it. */
  class OrderTracker {
    var orders: seq<Order>

    /** The store as loaded from persisted storage (parsing is outside the model). */
    constructor(stored: seq<Order>)
      ensures orders == stored
    {
      orders := stored;
    }

    function GetOrderByTracking(trackingNumber: string): (r: Option<Order>)
      reads this
      ensures r.Some? ==> r.value in orders && r.value.trackingNumber == trackingNumber
      ensures r.None? <==> forall i :: 0 <= i < |orders| ==> orders[i].trackingNumber != trackingNumber
    {
      OrderByTracking(orders, trackingNumber)
    }

    function GetOrderById(orderId: string): (r: Option<Order>)
      reads this
      ensures r.Some? ==> r.value in orders && r.value.id == orderId
      ensures r.None? <==> forall i :: 0 <= i < |orders| ==> orders[i].id != orderId
    {
      OrderById(orders, orderId)
    }

    method UpdateOrderStatus(orderId: string, newStatus: OrderStatus, now: int)
      modifies this
      ensures orders == WithStatus(old(orders), orderId, newStatus, now)
    {
      orders := WithStatus(orders, orderId, newStatus, now);
    }

    method ProgressOrder(orderId: string, now: int)
      modifies this
      ensures orders == Progressed(old(orders), orderId, now)
    {
      var order := OrderById(orders, orderId);
      if order.None? {
        return;
      }
      var nextStatus := SimulateOrderProgress(order.value);
      if nextStatus != order.value.status {
        UpdateOrderStatus(orderId, nextStatus, now);
      }
    }

    /**
     * `createOrder`: both clock readings are the same `now`; the new order is consistent,
     * carries the draft's data, and goes in front of the store.
     */
    method CreateOrder(orderData: OrderDraft, now: nat, randomSuffix: string) returns (newOrder: Order)
      modifies this
      ensures newOrder.id == NewOrderId(now, randomSuffix)
      ensures newOrder.trackingNumber == NewTrackingNumber(now)
      ensures newOrder.createdAt == now && newOrder.updatedAt == now
      ensures newOrder.productId == orderData.productId && newOrder.customerId == orderData.customerId
      ensures newOrder.customerEmail == orderData.customerEmail && newOrder.status == orderData.status
      ensures newOrder.shippingAddress == orderData.shippingAddress
      ensures newOrder.costBreakdown == orderData.costBreakdown
      ensures newOrder.revenueBreakdown == orderData.revenueBreakdown
      ensures newOrder.estimatedDelivery == orderData.estimatedDelivery
      ensures Consistent(newOrder)
      ensures orders == [newOrder] + old(orders)
    {
      newOrder := Order(NewOrderId(now, randomSuffix), orderData.productId, orderData.customerId,
                        orderData.customerEmail, orderData.status, NewTrackingNumber(now), [],
                        orderData.shippingAddress, orderData.costBreakdown, orderData.revenueBreakdown,
                        now, now, orderData.estimatedDelivery);
      var events := GenerateTrackingEvents(newOrder);
      newOrder := newOrder.(trackingEvents := events);
      orders := [newOrder] + orders;
    }
  }
}
