/**
 * The customer-facing tracking page: a five-stage timeline built from a simple status
 * name, and the look-up of a stored order by its id or its tracking number.
 */
module Tracking {
  import opened Wrappers
  import opened Seqs
  import OrderSimulator

  /** One line of the customer timeline. */
  datatype TrackingEvent = TrackingEvent(status: string, location: string, timestamp: int, description: string)

  /** The simple statuses in the order an order passes them. */
  const SimpleStatuses: seq<string> := ["pending", "processing", "shipped", "in_transit", "delivered"]

  /**
   * How many stages a status shows: one plus the number of later tests it passes. Every
   * other text, including the detailed status names, shows only the first stage.
   */
  function StageCount(currentStatus: string): (n: nat)
    ensures 1 <= n <= 5
    ensures currentStatus !in SimpleStatuses[1..] ==> n == 1
  {
    if currentStatus == "delivered" then 5
    else if currentStatus == "in_transit" then 4
    else if currentStatus == "shipped" then 3
    else if currentStatus == "processing" then 2
    else 1
  }

  /** Along the simple statuses the count is 1, 2, 3, 4, 5. */
  lemma StageCountAlongStatuses(i: nat)
    requires i < |SimpleStatuses|
    ensures StageCount(SimpleStatuses[i]) == i + 1
  {
  }

  /** Days before `now` of each stage, in the order they are pushed. */
  const StageOffsetDays: seq<int> := [7, 6, 5, 3, 0]

  /** The fixed texts of a stage. */
  datatype StageText = StageText(status: string, location: string, description: string)

  // The five stages' texts, one constant each.
  const ReceivedText: StageText :=
    StageText("Pedido Recibido", "Sistema", "Tu pedido ha sido recibido y está siendo procesado")
  const PreparingText: StageText :=
    StageText("En Preparación", "Centro de Distribución - Brasil", "El pedido está siendo preparado para envío")
  const ShippedText: StageText :=
    StageText("Enviado", "São Paulo, Brasil", "El paquete ha sido enviado y está en tránsito")
  const CrossingText: StageText :=
    StageText("En Tránsito Internacional", "Aduana Brasil", "El paquete está cruzando la frontera")
  const DeliveredText: StageText :=
    StageText("Entregado", "Caracas, Venezuela", "El paquete ha sido entregado exitosamente")

  /**
   * Stage `k` as pushed: received 7 days ago, preparing 6, shipped 5, international
   * transit 3, delivered now.
   */
  function StageEvent(k: nat, now: int): (e: TrackingEvent)
    requires k < 5
    ensures e.timestamp == now - StageOffsetDays[k] * OrderSimulator.DayMs
  {
    var text :=
      if k == 0 then ReceivedText
      else if k == 1 then PreparingText
      else if k == 2 then ShippedText
      else if k == 3 then CrossingText
      else DeliveredText;
    TrackingEvent(text.status, text.location, now - StageOffsetDays[k] * OrderSimulator.DayMs, text.description)
  }

  /** The first stage is the received notice. */
  lemma FirstStageIsReceipt(now: int)
    ensures StageEvent(0, now).status == "Pedido Recibido"
  {
  }

  /** The stages reached, most recent first. */
  function Timeline(currentStatus: string, now: int): (events: seq<TrackingEvent>)
    ensures |events| == StageCount(currentStatus)
    ensures forall k :: 0 <= k < |events| ==> events[k] == StageEvent(|events| - 1 - k, now)
    ensures events[|events| - 1] == StageEvent(0, now)
  {
    Reverse(FirstStages(StageCount(currentStatus), now))
  }

  /** Timestamps never increase down the timeline. */
  lemma TimelineNonIncreasing(currentStatus: string, now: int, i: nat, j: nat)
    requires i < j < StageCount(currentStatus)
    ensures Timeline(currentStatus, now)[i].timestamp >= Timeline(currentStatus, now)[j].timestamp
  {
    var n := StageCount(currentStatus);
    assert OrderSimulator.DayMs == 86400000;
    assert StageOffsetDays[n - 1 - i] <= StageOffsetDays[n - 1 - j];
  }

  /** The timeline of a status further along contains the earlier timeline as its tail. */
  lemma TimelineCumulative(a: string, b: string, now: int)
    requires StageCount(a) <= StageCount(b)
    ensures var ta := Timeline(a, now);
            var tb := Timeline(b, now);
            tb[|tb| - |ta|..] == ta
  {
    var ta := Timeline(a, now);
    var tb := Timeline(b, now);
    var d := |tb| - |ta|;
    forall k | 0 <= k < |ta| ensures tb[d..][k] == ta[k] {
      assert tb[d + k] == StageEvent(|tb| - 1 - (d + k), now);
    }
  }

  /** Each status list the source tests against holds exactly the statuses with enough stages. */
  lemma StageTests(currentStatus: string)
    ensures currentStatus in ["processing", "shipped", "in_transit", "delivered"] <==> StageCount(currentStatus) >= 2
    ensures currentStatus in ["shipped", "in_transit", "delivered"] <==> StageCount(currentStatus) >= 3
    ensures currentStatus in ["in_transit", "delivered"] <==> StageCount(currentStatus) >= 4
    ensures currentStatus == "delivered" <==> StageCount(currentStatus) == 5
  {
  }

  /** The first `m` stages in pushing order. */
  function FirstStages(m: nat, now: int): (r: seq<TrackingEvent>)
    requires m <= 5
    ensures |r| == m
  {
    seq(m, k requires 0 <= k < m => StageEvent(k, now))
  }

  lemma PushStage(m: nat, now: int)
    requires m < 5
    ensures FirstStages(m, now) + [StageEvent(m, now)] == FirstStages(m + 1, now)
  {
  }

  /**
   * `generateTrackingEvents(orderId, currentStatus)`: pushes the received stage, then each
   * further stage whose list of statuses contains the current one, then reverses. The
   * order id is not used; `now` is the clock reading.
   */
  method GenerateTrackingEvents(orderId: string, currentStatus: string, now: int) returns (events: seq<TrackingEvent>)
    ensures events == Timeline(currentStatus, now)
  {
    var n := StageCount(currentStatus);
    StageTests(currentStatus);
    var pushed: seq<TrackingEvent> := [];
    PushStage(0, now);
    pushed := pushed + [StageEvent(0, now)];
    if currentStatus in ["processing", "shipped", "in_transit", "delivered"] {
      PushStage(1, now);
      pushed := pushed + [StageEvent(1, now)];
    }
    assert pushed == FirstStages(if n >= 2 then 2 else 1, now);
    if currentStatus in ["shipped", "in_transit", "delivered"] {
      PushStage(2, now);
      pushed := pushed + [StageEvent(2, now)];
    }
    assert pushed == FirstStages(if n >= 3 then 3 else n, now);
    if currentStatus in ["in_transit", "delivered"] {
      PushStage(3, now);
      pushed := pushed + [StageEvent(3, now)];
    }
    assert pushed == FirstStages(if n >= 4 then 4 else n, now);
    if currentStatus == "delivered" {
      PushStage(4, now);
      pushed := pushed + [StageEvent(4, now)];
    }
    assert pushed == FirstStages(n, now);
    events := Reverse(pushed);
  }

  /** A stored order as the look-up sees it (any of the two stores' records). */
  datatype StoredOrder = StoredOrder(id: string, trackingNumber: Option<string>, status: string,
                                     estimatedDelivery: int)

  /** What `trackOrder` returns; the delivery date stays in milliseconds. */
  datatype TrackingInfo = TrackingInfo(orderId: string, trackingNumber: string, currentStatus: string,
                                       estimatedDelivery: int, events: seq<TrackingEvent>)

  predicate Identifies(o: StoredOrder, key: string)
  {
    o.id == key || o.trackingNumber == Some(key)
  }

  /** The first stored order whose id or tracking number is the key. */
  function FindStored(orders: seq<StoredOrder>, key: string): (r: Option<StoredOrder>)
    ensures r.None? <==> forall i :: 0 <= i < |orders| ==> !Identifies(orders[i], key)
    ensures r.Some? ==> exists i :: 0 <= i < |orders| && orders[i] == r.value && Identifies(r.value, key) &&
                                 (forall j :: 0 <= j < i ==> !Identifies(orders[j], key))
  {
    Find(orders, (o: StoredOrder) => Identifies(o, key))
  }

  /** `order.trackingNumber || 'N/A'`: a missing or empty number shows as "N/A". */
  function TrackingNumberOrNA(t: Option<string>): (s: string)
    ensures t.Some? && t.value != "" ==> s == t.value
    ensures t.None? || t.value == "" ==> s == "N/A"
  {
    if t.Some? && t.value != "" then t.value else "N/A"
  }

  /** The info `trackOrder` builds for a key: none when no stored order matches. */
  function TrackResult(orders: seq<StoredOrder>, key: string, now: int): (r: Option<TrackingInfo>)
    ensures r.None? <==> FindStored(orders, key).None?
    ensures r.Some? ==>
              var o := FindStored(orders, key).value;
              r.value.orderId == o.id && r.value.currentStatus == o.status &&
              r.value.trackingNumber == TrackingNumberOrNA(o.trackingNumber) &&
              r.value.estimatedDelivery == o.estimatedDelivery &&
              r.value.events == Timeline(o.status, now)
  {
    match FindStored(orders, key)
    case None => None
    case Some(o) =>
      Some(TrackingInfo(o.id, TrackingNumberOrNA(o.trackingNumber), o.status, o.estimatedDelivery,
                        Timeline(o.status, now)))
  }

  /** An order is always found by its own id, unless an earlier order carries that key. */
  lemma FoundByOwnId(orders: seq<StoredOrder>, i: nat, now: int)
    requires i < |orders|
    requires forall j :: 0 <= j < i ==> !Identifies(orders[j], orders[i].id)
    ensures TrackResult(orders, orders[i].id, now).Some?
    ensures TrackResult(orders, orders[i].id, now).value.orderId == orders[i].id
  {
    var r := FindStored(orders, orders[i].id);
    assert Identifies(orders[i], orders[i].id);
    var k :| 0 <= k < |orders| && orders[k] == r.value && Identifies(r.value, orders[i].id) &&
             (forall j :: 0 <= j < k ==> !Identifies(orders[j], orders[i].id));
    assert k == i;
  }

  /** The tracking page: the last info found stays shown. */
  class Tracker {
    var trackingInfo: Option<TrackingInfo>

    constructor()
      ensures trackingInfo.None?
    {
      trackingInfo := None;
    }

    /** `trackOrder` over the stored orders (an absent store is the empty sequence). */
    method TrackOrder(orders: seq<StoredOrder>, orderIdOrTracking: string, now: int) returns (info: Option<TrackingInfo>)
      modifies this
      ensures info == TrackResult(orders, orderIdOrTracking, now)
      ensures info.Some? ==> trackingInfo == info
      ensures info.None? ==> trackingInfo == old(trackingInfo)
    {
      var order := FindStored(orders, orderIdOrTracking);
      if order.Some? {
        var o := order.value;
        var events := GenerateTrackingEvents(o.id, o.status, now);
        info := Some(TrackingInfo(o.id, TrackingNumberOrNA(o.trackingNumber), o.status, o.estimatedDelivery, events));
        trackingInfo := info;
        return;
      }
      info := None;
    }
  }
}
