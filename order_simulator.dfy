/**
 * The order lifecycle engine: the canonical status flow, the descriptor of each status,
 * the derivation of an order's tracking history, the one-step progression and the
 * delivery estimate.
 */
module OrderSimulator {
  import opened Business
  import opened Seqs

  /** Milliseconds in a day. */
  const DayMs: int := 24 * 60 * 60 * 1000

  /** The canonical order of the fourteen statuses. */
  const StatusFlow: seq<OrderStatus> := [
    Created, PendingPayment, PaymentConfirmed, Purchasing, Purchased,
    TransitBrazil, ArrivedLocker, BrazilCustoms, ShippingVenezuela,
    InTransit, ArrivedVenezuela, InDelivery, Delivered, Completed]

  /** Position of the last status, `completed`. */
  const LastIndex: nat := 13

  /** `statusFlow.indexOf(status)`: the position of `s` in the canonical flow. */
  function IndexOf(s: OrderStatus): (i: nat)
    ensures i < |StatusFlow| && StatusFlow[i] == s
  {
    match s
    case Created => 0
    case PendingPayment => 1
    case PaymentConfirmed => 2
    case Purchasing => 3
    case Purchased => 4
    case TransitBrazil => 5
    case ArrivedLocker => 6
    case BrazilCustoms => 7
    case ShippingVenezuela => 8
    case InTransit => 9
    case ArrivedVenezuela => 10
    case InDelivery => 11
    case Delivered => 12
    case Completed => 13
  }

  /** The flow lists every status once: position and status determine each other. */
  lemma FlowIsBijective()
    ensures |StatusFlow| == LastIndex + 1
    ensures forall i :: 0 <= i < |StatusFlow| ==> IndexOf(StatusFlow[i]) == i
    ensures forall s: OrderStatus :: s in StatusFlow
  {
    forall s: OrderStatus ensures s in StatusFlow {
      assert StatusFlow[IndexOf(s)] == s;
    }
  }

  /** The human-readable side of a status. */
  datatype StatusInfo = StatusInfo(title: string, description: string, location: string)

  /** The descriptor `ORDER_STATUS_MAP` holds for each status. */
  function Describe(s: OrderStatus): StatusInfo
  {
    match s
    case Created => CreatedInfo
    case PendingPayment => PendingPaymentInfo
    case PaymentConfirmed => PaymentConfirmedInfo
    case Purchasing => PurchasingInfo
    case Purchased => PurchasedInfo
    case TransitBrazil => TransitBrazilInfo
    case ArrivedLocker => ArrivedLockerInfo
    case BrazilCustoms => BrazilCustomsInfo
    case ShippingVenezuela => ShippingVenezuelaInfo
    case InTransit => InTransitInfo
    case ArrivedVenezuela => ArrivedVenezuelaInfo
    case InDelivery => InDeliveryInfo
    case Delivered => DeliveredInfo
    case Completed => CompletedInfo
  }

  // The fourteen descriptors, one constant each.
  const CreatedInfo: StatusInfo := StatusInfo("Orden Creada", "Tu orden ha sido registrada en el sistema", "Sistema")
  const PendingPaymentInfo: StatusInfo := StatusInfo("Pendiente de Pago", "Esperando confirmación del pago", "Sistema")
  const PaymentConfirmedInfo: StatusInfo := StatusInfo("Pago Confirmado", "El pago ha sido procesado exitosamente", "Sistema")
  const PurchasingInfo: StatusInfo := StatusInfo("En Proceso de Compra", "Estamos comprando el producto en la tienda", "Tienda en línea")
  const PurchasedInfo: StatusInfo := StatusInfo("Compra Realizada", "El producto ha sido comprado exitosamente", "Tienda en línea")
  const TransitBrazilInfo: StatusInfo := StatusInfo("En Tránsito a Brasil", "El paquete está en camino a nuestro centro en Brasil", "En tránsito internacional")
  const ArrivedLockerInfo: StatusInfo := StatusInfo("Llegada a Casillero", "El paquete ha llegado a nuestro casillero en Brasil", "São Paulo, Brasil")
  const BrazilCustomsInfo: StatusInfo := StatusInfo("En Aduana Brasileña", "Procesamiento aduanal en Brasil", "Aduana São Paulo, Brasil")
  const ShippingVenezuelaInfo: StatusInfo := StatusInfo("Envío a Venezuela", "El paquete está siendo preparado para envío a Venezuela", "São Paulo, Brasil")
  const InTransitInfo: StatusInfo := StatusInfo("En Tránsito a Venezuela", "El paquete está en camino a Venezuela", "En tránsito internacional")
  const ArrivedVenezuelaInfo: StatusInfo := StatusInfo("Llegada a Venezuela", "El paquete ha llegado a Venezuela", "Caracas, Venezuela")
  const InDeliveryInfo: StatusInfo := StatusInfo("En Reparto", "El paquete está siendo entregado a tu dirección", "En reparto local")
  const DeliveredInfo: StatusInfo := StatusInfo("Entregado", "El paquete ha sido entregado exitosamente", "Dirección de destino")
  const CompletedInfo: StatusInfo := StatusInfo("Completado", "La orden ha sido completada", "Sistema")

  /** `ORDER_STATUS_MAP`, keyed by every status of the flow. */
  const OrderStatusMap: map<OrderStatus, StatusInfo> := map s | s in StatusFlow :: Describe(s)

  /** `ORDER_STATUS_MAP` has a descriptor for every one of the fourteen statuses, the one `Describe` gives. */
  lemma StatusMapIsTotal()
    ensures forall s: OrderStatus :: s in OrderStatusMap && OrderStatusMap[s] == Describe(s)
  {
    FlowIsBijective();
  }

  /**
   * The event the generator builds for flow position `i` of the order with the given id and
   * creation time: the `<id>_<status>` id, the status's descriptor, and a time `2 * i` days
   * after creation.
   */
  function EventFor(orderId: string, createdAt: int, i: nat): (e: TrackingEvent)
    requires i < |StatusFlow|
    ensures e.status == StatusFlow[i]
    ensures e.timestamp == createdAt + i * 2 * DayMs
  {
    var status := StatusFlow[i];
    var info := Describe(status);
    TrackingEvent(
      orderId + "_" + StatusName(status), status, info.title, info.description, info.location,
      createdAt + i * 2 * DayMs)
  }

  /** Each event is named `<order id>_<status>` and carries the texts `ORDER_STATUS_MAP` holds for its status. */
  lemma EventTextsFromMap(orderId: string, createdAt: int, i: nat)
    requires i < |StatusFlow|
    ensures var e := EventFor(orderId, createdAt, i);
            e.id == orderId + "_" + StatusName(e.status) &&
            e.status in OrderStatusMap &&
            e.title == OrderStatusMap[e.status].title &&
            e.description == OrderStatusMap[e.status].description &&
            e.location == OrderStatusMap[e.status].location
  {
    StatusMapIsTotal();
  }

  /**
   * The history of an order with the given id, status and creation time, most recent first:
   * one event for every status of the flow up to and including the current one. Being a
   * function of those three values, it never depends on the clock.
   */
  function History(orderId: string, status: OrderStatus, createdAt: int): (events: seq<TrackingEvent>)
    ensures |events| == IndexOf(status) + 1
    ensures forall k :: 0 <= k < |events| ==> events[k] == EventFor(orderId, createdAt, IndexOf(status) - k)
  {
    var n := IndexOf(status);
    seq(n + 1, k requires 0 <= k <= n => EventFor(orderId, createdAt, n - k))
  }

  /** The history of `order`, as `generateTrackingEvents(order)` derives it. */
  function TrackingEvents(order: Order): seq<TrackingEvent>
  {
    History(order.id, order.status, order.createdAt)
  }

  /** The history starts at the current status and ends at `created`. */
  lemma HistoryEnds(order: Order)
    ensures TrackingEvents(order)[0].status == order.status
    ensures TrackingEvents(order)[|TrackingEvents(order)| - 1].status == Created
  {
  }

  /** The history one status further on is the old history with one event, for the new status, in front. */
  lemma HistoryOfNextStatus(orderId: string, status: OrderStatus, createdAt: int)
    requires IndexOf(status) < LastIndex
    ensures var next := StatusFlow[IndexOf(status) + 1];
            |History(orderId, next, createdAt)| == |History(orderId, status, createdAt)| + 1 &&
            History(orderId, next, createdAt)[0].status == next &&
            History(orderId, next, createdAt)[1..] == History(orderId, status, createdAt)
  {
    var n := IndexOf(status);
    var next := StatusFlow[n + 1];
    FlowIsBijective();
    assert IndexOf(next) == n + 1;
    var before := History(orderId, status, createdAt);
    var after := History(orderId, next, createdAt);
    forall k | 0 <= k < |before|
      ensures after[1..][k] == before[k]
    {
      assert after[k + 1] == EventFor(orderId, createdAt, n - k);
    }
  }

  /** Timestamps strictly decrease along the history, 2 days per step. */
  lemma TimestampsDecrease(order: Order, k: nat, m: nat)
    requires k < m < |TrackingEvents(order)|
    ensures TrackingEvents(order)[k].timestamp - TrackingEvents(order)[m].timestamp == (m - k) * 2 * DayMs
    ensures TrackingEvents(order)[k].timestamp > TrackingEvents(order)[m].timestamp
  {
    var n := IndexOf(order.status);
    assert DayMs == 86400000;
    assert TrackingEvents(order)[k].timestamp == order.createdAt + (n - k) * 172800000;
    assert TrackingEvents(order)[m].timestamp == order.createdAt + (n - m) * 172800000;
  }

  /** The ids of the events of one history are pairwise distinct. */
  lemma TrackingEventIdsDistinct(order: Order, k: nat, m: nat)
    requires k < m < |TrackingEvents(order)|
    ensures TrackingEvents(order)[k].id != TrackingEvents(order)[m].id
  {
    var n := IndexOf(order.status);
    var a, b := StatusFlow[n - k], StatusFlow[n - m];
    FlowIsBijective();
    StatusNamesDistinct(a, b);
    PrefixCancels(order.id + "_", StatusName(a), StatusName(b));
    assert TrackingEvents(order)[k] == EventFor(order.id, order.createdAt, n - k);
    assert TrackingEvents(order)[m] == EventFor(order.id, order.createdAt, n - m);
  }

  /** Texts with a common prefix differ when what follows the prefix differs. */
  lemma PrefixCancels(p: string, x: string, y: string)
    requires x != y
    ensures p + x != p + y
  {
    assert (p + x)[|p|..] == x && (p + y)[|p|..] == y;
  }

  /** Different statuses have different names. */
  lemma StatusNamesDistinct(a: OrderStatus, b: OrderStatus)
    requires a != b
    ensures StatusName(a) != StatusName(b)
  {
  }

  /**
   * `generateTrackingEvents`: pushes one event per flow position from `created` up to the
   * current status, then reverses the list.
   */
  method GenerateTrackingEvents(order: Order) returns (events: seq<TrackingEvent>)
    ensures events == TrackingEvents(order)
  {
    var currentStatusIndex := IndexOf(order.status);
    var pushed: seq<TrackingEvent> := [];
    for i := 0 to currentStatusIndex + 1
      invariant |pushed| == i
      invariant forall j :: 0 <= j < i ==> pushed[j] == EventFor(order.id, order.createdAt, j)
    {
      var status := StatusFlow[i];
      var statusInfo := Describe(status);
      var daysFromCreation := i * 2;
      var timestamp := order.createdAt + daysFromCreation * DayMs;
      var event := TrackingEvent(order.id + "_" + StatusName(status), status,
                                 statusInfo.title, statusInfo.description, statusInfo.location, timestamp);
      assert event == EventFor(order.id, order.createdAt, i);
      pushed := pushed + [event];
    }
    events := Reverse(pushed);
  }

  /**
   * `simulateOrderProgress`: the status one step further along the flow; `completed` is
   * returned unchanged, and it is the only status that is.
   */
  function SimulateOrderProgress(order: Order): (next: OrderStatus)
    ensures IndexOf(next) == if IndexOf(order.status) < LastIndex then IndexOf(order.status) + 1 else LastIndex
    ensures next == order.status <==> order.status == Completed
  {
    var currentIndex := IndexOf(order.status);
    if currentIndex < |StatusFlow| - 1 then StatusFlow[currentIndex + 1] else order.status
  }

  /** The order after `n` simulated progress steps. */
  function Advance(order: Order, n: nat): Order
    decreases n
  {
    if n == 0 then order else Advance(order.(status := SimulateOrderProgress(order)), n - 1)
  }

  /** Each step moves exactly one position forward, stopping at `completed`. */
  lemma {:induction false} AdvanceIndex(order: Order, n: nat)
    ensures IndexOf(Advance(order, n).status) ==
            if IndexOf(order.status) + n <= LastIndex then IndexOf(order.status) + n else LastIndex
    decreases n
  {
    if n > 0 {
      AdvanceIndex(order.(status := SimulateOrderProgress(order)), n - 1);
    }
  }

  /**
   * From `created`, the steps visit the whole flow in canonical order: step `n` is at
   * `StatusFlow[n]`, thirteen steps reach `completed`, and `completed` is never left.
   */
  lemma ProgressFromCreated(order: Order, n: nat)
    requires order.status == Created
    ensures n <= LastIndex ==> Advance(order, n).status == StatusFlow[n]
    ensures n >= LastIndex ==> Advance(order, n).status == Completed
  {
    AdvanceIndex(order, n);
  }

  /** `completed` is a fixed point of progression. */
  lemma CompletedIsFixed(order: Order, n: nat)
    requires order.status == Completed
    ensures Advance(order, n).status == Completed
  {
    AdvanceIndex(order, n);
  }

  /** The `daysToAdd` table of `calculateEstimatedDelivery`. */
  const DaysToAdd: map<OrderStatus, nat> := map[
    Created := 30, PendingPayment := 28, PaymentConfirmed := 25, Purchasing := 22,
    Purchased := 20, TransitBrazil := 18, ArrivedLocker := 15, BrazilCustoms := 12,
    ShippingVenezuela := 10, InTransit := 7, ArrivedVenezuela := 5, InDelivery := 2,
    Delivered := 0, Completed := 0]

  /** `daysToAdd[status]`. */
  function DaysFor(s: OrderStatus): nat
  {
    assert s in StatusFlow by { FlowIsBijective(); }
    DaysToAdd[s]
  }

  /** The table's remaining days never increase along the flow. */
  lemma DaysNonIncreasing(i: nat, j: nat)
    requires i <= j < |StatusFlow|
    ensures DaysFor(StatusFlow[j]) <= DaysFor(StatusFlow[i])
  {
  }

  /** The table gives 0 days to `delivered` and `completed` only, and at least 2 to the rest. */
  lemma DaysZeroExactlyAtTheEnd(s: OrderStatus)
    ensures DaysFor(s) == 0 <==> s == Delivered || s == Completed
    ensures DaysFor(s) != 0 ==> DaysFor(s) >= 2
  {
    match s
    case Created =>
    case PendingPayment =>
    case PaymentConfirmed =>
    case Purchasing =>
    case Purchased =>
    case TransitBrazil =>
    case ArrivedLocker =>
    case BrazilCustoms =>
    case ShippingVenezuela =>
    case InTransit =>
    case ArrivedVenezuela =>
    case InDelivery =>
    case Delivered =>
    case Completed =>
  }

  /**
   * `calculateEstimatedDelivery`, with the clock as `now` (ms): `now` plus the table's
   * days, except that `|| 30` turns the 0 days of `delivered` and `completed` into 30.
   */
  function CalculateEstimatedDelivery(status: OrderStatus, now: int): (when: int)
    ensures status == Delivered || status == Completed ==> when == now + 30 * DayMs
    ensures status != Delivered && status != Completed ==> when == now + DaysFor(status) * DayMs
    ensures when >= now + 2 * DayMs
  {
    DaysZeroExactlyAtTheEnd(status);
    var days := if DaysFor(status) != 0 then DaysFor(status) else 30;
    assert DayMs == 86400000;
    now + days * DayMs
  }

  /** As written, a delivered order is estimated later than one still out for delivery. */
  lemma EstimateJumpsAfterDelivery(now: int)
    ensures CalculateEstimatedDelivery(Delivered, now) == now + 30 * DayMs
    ensures CalculateEstimatedDelivery(InDelivery, now) == now + 2 * DayMs
    ensures CalculateEstimatedDelivery(Delivered, now) > CalculateEstimatedDelivery(InDelivery, now)
  {
  }

  /** The estimate with the table's 0 days kept (`??` instead of `||`). */
  function IntendedEstimatedDelivery(status: OrderStatus, now: int): (when: int)
    ensures when == now + DaysFor(status) * DayMs
    ensures when == now <==> status == Delivered || status == Completed
  {
    DaysZeroExactlyAtTheEnd(status);
    now + DaysFor(status) * DayMs
  }

  /** The intended estimate never moves later as an order progresses along the flow. */
  lemma IntendedEstimateMonotone(i: nat, j: nat, now: int)
    requires i <= j < |StatusFlow|
    ensures IntendedEstimatedDelivery(StatusFlow[j], now) <= IntendedEstimatedDelivery(StatusFlow[i], now)
  {
    DaysNonIncreasing(i, j);
    assert DayMs == 86400000;
  }
}
