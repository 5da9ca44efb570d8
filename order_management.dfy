/**
 * The simple order store: orders of cart items with a five-value status, a rounded total,
 * and an optional tracking number. Newest orders come first.
 */
module OrderManagement {
  import opened Wrappers
  import opened Seqs
  import opened Strings
  import Business
  import OrderSimulator
  import OrderTracking

  datatype OrderItem = OrderItem(
    productId: string,
    productTitle: string,
    productImage: string,
    price: real,
    quantity: int,
    variant: Option<string>,
    store: Business.Store)

  datatype Status = Pending | Processing | Shipped | InTransit | Delivered

  datatype Order = Order(
    id: string,
    items: seq<OrderItem>,
    customerEmail: string,
    shippingAddress: Business.ShippingAddress,
    status: Status,
    totalAmount: real,
    currency: string,
    createdAt: int,
    estimatedDelivery: int,
    trackingNumber: Option<string>)

  const ServiceFeeRate: real := 0.12
  const FlatShipping: real := 25.0

  function LineAmount(item: OrderItem): real { item.price * item.quantity as real }

  /** `items.reduce((sum, item) => sum + item.price * item.quantity, 0)`. */
  function ItemsSubtotal(items: seq<OrderItem>): real
  {
    SumReal(items, LineAmount)
  }

  /** Appending an item adds its line amount; the empty order is 0. */
  lemma SubtotalSnoc(items: seq<OrderItem>, item: OrderItem)
    ensures ItemsSubtotal([]) == 0.0
    ensures ItemsSubtotal(items + [item]) == ItemsSubtotal(items) + item.price * item.quantity as real
  {
    assert (items + [item])[..|items + [item]| - 1] == items;
  }

  /** An amount in whole cents. */
  predicate WholeCents(x: real)
  {
    (x * 100.0).Floor as real == x * 100.0
  }

  /** Rounding half up to a whole number of cents, for a non-negative amount. */
  function RoundHalfUpCents(x: real): (r: real)
    requires x >= 0.0
    ensures r >= 0.0
    ensures x - 0.005 < r <= x + 0.005
    ensures WholeCents(r)
  {
    var cents := (x * 100.0 + 0.5).Floor;
    assert cents as real <= x * 100.0 + 0.5 < cents as real + 1.0;
    var r := cents as real / 100.0;
    assert r * 100.0 == cents as real;
    r
  }

  /**
   * `parseFloat(x.toFixed(2))` on exact reals: the nearest amount in whole cents, ties
   * away from zero (the sign is set aside first, as `toFixed` does).
   */
  function RoundTo2(x: real): (r: real)
    ensures x - 0.005 <= r <= x + 0.005
    ensures x >= 0.0 ==> x - 0.005 < r
    ensures x < 0.0 ==> r < x + 0.005
    ensures WholeCents(r)
    ensures x >= 0.0 ==> r >= 0.0
  {
    if x < 0.0 then
      var m := RoundHalfUpCents(-x);
      assert (-m) * 100.0 == -(m * 100.0);
      assert (m * 100.0).Floor as real == m * 100.0;
      assert ((-m) * 100.0).Floor == -((m * 100.0).Floor);
      -m
    else RoundHalfUpCents(x)
  }

  /** An amount already in whole cents is left as it is, so rounding twice is rounding once. */
  lemma RoundTo2OfCents(x: real)
    requires WholeCents(x)
    ensures RoundTo2(x) == x
  {
    var y := if x < 0.0 then -x else x;
    var c := (x * 100.0).Floor;
    assert x * 100.0 == c as real;
    assert y * 100.0 == (if x < 0.0 then -c else c) as real;
    assert (y * 100.0 + 0.5).Floor == (if x < 0.0 then -c else c);
  }

  lemma RoundTo2Idempotent(x: real)
    ensures RoundTo2(RoundTo2(x)) == RoundTo2(x)
  {
    RoundTo2OfCents(RoundTo2(x));
  }

  /** The total charged: subtotal, 12% service fee on it, and 25 USD flat shipping, in cents. */
  function OrderTotal(items: seq<OrderItem>): (total: real)
    ensures total == RoundTo2(ItemsSubtotal(items) * 1.12 + 25.0)
    ensures WholeCents(total)
    ensures var exact := ItemsSubtotal(items) * 1.12 + 25.0;
            exact - 0.005 <= total <= exact + 0.005
  {
    var totalAmount := ItemsSubtotal(items);
    var serviceFee := totalAmount * ServiceFeeRate;
    var finalTotal := totalAmount + serviceFee + FlatShipping;
    RoundTo2(finalTotal)
  }

  /** An empty order costs exactly the flat shipping. */
  lemma EmptyOrderTotal()
    ensures OrderTotal([]) == 25.0
  {
    RoundTo2OfCents(25.0);
  }

  /** The delivery estimate: 15 plus a random whole number below 15, so 15 to 29 days. */
  function DeliveryDays(rand: real): (days: int)
    requires 0.0 <= rand < 1.0
    ensures 15 <= days <= 29
  {
    (rand * 15.0).Floor + 15
  }

  /** The tracking number `TR` followed by the last ten characters of the clock. */
  function TrackingNumberFor(now: nat): (tn: string)
    ensures |tn| >= 2 && tn[..2] == "TR" && |tn| == 2 + (if |NatToString(now)| <= 10 then |NatToString(now)| else 10)
    ensures tn[2..] == SliceLast(NatToString(now), 10)
  {
    "TR" + SliceLast(NatToString(now), 10)
  }

  /** For a thirteen-digit clock both stores format the tracking number the same way. */
  lemma TrackingNumbersAgree(now: nat)
    requires Pow10(12) <= now < Pow10(13)
    ensures TrackingNumberFor(now) == OrderTracking.NewTrackingNumber(now)
  {
    OrderTracking.TrackingNumberOfThirteenDigitClock(now);
  }

  /**
   * The order `createOrder` builds, with both clock readings equal to `now`, the random
   * draw `rand` in [0, 1) and `randomSuffix` standing for the six upper-cased base-36 digits.
   */
  function NewOrder(items: seq<OrderItem>, customerEmail: string, shippingAddress: Business.ShippingAddress,
                    now: nat, rand: real, randomSuffix: string): (o: Order)
    requires 0.0 <= rand < 1.0
    ensures o.id == "ORD-" + NatToString(now) + "-" + randomSuffix
    ensures o.items == items && o.customerEmail == customerEmail && o.shippingAddress == shippingAddress
    ensures o.status == Pending && o.currency == "USD"
    ensures o.totalAmount == OrderTotal(items)
    ensures o.createdAt == now
    ensures now + 15 * OrderSimulator.DayMs <= o.estimatedDelivery <= now + 29 * OrderSimulator.DayMs
    ensures o.trackingNumber == Some(TrackingNumberFor(now))
  {
    var days := DeliveryDays(rand);
    assert OrderSimulator.DayMs == 86400000;
    Order("ORD-" + NatToString(now) + "-" + randomSuffix, items, customerEmail, shippingAddress,
          Pending, OrderTotal(items), "USD", now, now + days * OrderSimulator.DayMs,
          Some(TrackingNumberFor(now)))
  }

  /** `getOrder`: the first order with the id, if any. */
  function OrderWithId(orders: seq<Order>, orderId: string): (r: Option<Order>)
    ensures r.None? <==> forall i :: 0 <= i < |orders| ==> orders[i].id != orderId
    ensures r.Some? ==> exists i :: 0 <= i < |orders| && orders[i] == r.value && r.value.id == orderId &&
                                 (forall j :: 0 <= j < i ==> orders[j].id != orderId)
  {
    Find(orders, (o: Order) => o.id == orderId)
  }

  /**
   * `updateOrderStatus`: every order with the id gets the new status, any status at all
   * (there is no forward-only rule); nothing else changes.
   */
  function WithStatus(orders: seq<Order>, orderId: string, status: Status): (r: seq<Order>)
    ensures |r| == |orders|
    ensures forall i :: 0 <= i < |orders| && orders[i].id != orderId ==> r[i] == orders[i]
    ensures forall i :: 0 <= i < |orders| && orders[i].id == orderId ==> r[i] == orders[i].(status := status)
  {
    seq(|orders|, i requires 0 <= i < |orders| =>
      if orders[i].id == orderId then orders[i].(status := status) else orders[i])
  }

  /** Setting a status twice is setting it once, and a later status overrides an earlier one. */
  lemma WithStatusOverrides(orders: seq<Order>, orderId: string, s: Status, t: Status)
    ensures WithStatus(WithStatus(orders, orderId, s), orderId, t) == WithStatus(orders, orderId, t)
  {
  }

  /** `deleteOrder`: the orders without the id, in their stored order. */
  function WithoutOrder(orders: seq<Order>, orderId: string): (r: seq<Order>)
    ensures forall o :: o in r <==> o in orders && o.id != orderId
    ensures forall o :: multiset(r)[o] == if o.id != orderId then multiset(orders)[o] else 0
    ensures IsSubsequence(r, orders)
    ensures OrderWithId(r, orderId).None?
  {
    Filter(orders, (o: Order) => o.id != orderId)
  }

  /** Deleting an id that is not stored changes nothing. */
  lemma {:induction false} DeleteUnknownIsIdentity(orders: seq<Order>, orderId: string)
    requires OrderWithId(orders, orderId).None?
    ensures WithoutOrder(orders, orderId) == orders
  {
    if orders != [] {
      assert OrderWithId(orders[1..], orderId).None? by {
        forall i | 0 <= i < |orders[1..]| ensures orders[1..][i].id != orderId {
          assert orders[1..][i] == orders[i + 1];
        }
      }
      DeleteUnknownIsIdentity(orders[1..], orderId);
    }
  }

  class OrderBook {
    var orders: seq<Order>

    constructor(stored: seq<Order>)
      ensures orders == stored
    {
      orders := stored;
    }

    function GetOrder(orderId: string): (r: Option<Order>)
      reads this
      ensures r.Some? ==> r.value in orders && r.value.id == orderId
      ensures r.None? <==> forall i :: 0 <= i < |orders| ==> orders[i].id != orderId
    {
      OrderWithId(orders, orderId)
    }

    method CreateOrder(items: seq<OrderItem>, customerEmail: string, shippingAddress: Business.ShippingAddress,
                       now: nat, rand: real, randomSuffix: string) returns (order: Order)
      requires 0.0 <= rand < 1.0
      modifies this
      ensures order == NewOrder(items, customerEmail, shippingAddress, now, rand, randomSuffix)
      ensures orders == [order] + old(orders)
    {
      order := NewOrder(items, customerEmail, shippingAddress, now, rand, randomSuffix);
      orders := [order] + orders;
    }

    method UpdateOrderStatus(orderId: string, status: Status)
      modifies this
      ensures orders == WithStatus(old(orders), orderId, status)
    {
      orders := WithStatus(orders, orderId, status);
    }

    method DeleteOrder(orderId: string)
      modifies this
      ensures orders == WithoutOrder(old(orders), orderId)
    {
      orders := WithoutOrder(orders, orderId);
    }

    method ClearAllOrders()
      modifies this
      ensures orders == []
    {
      orders := [];
    }
  }
}
