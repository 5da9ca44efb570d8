/** The shared record types of the forwarding service (the types module of the source). */
module Business {

  /** The three supported online stores. */
  datatype Store = Shein | Amazon | Aliexpress

  /** The store's name as the source spells it. */
  function StoreName(s: Store): string
  {
    match s
    case Shein => "shein"
    case Amazon => "amazon"
    case Aliexpress => "aliexpress"
  }

  /** The fourteen stages of the detailed order lifecycle, in canonical order. */
  datatype OrderStatus =
    | Created
    | PendingPayment
    | PaymentConfirmed
    | Purchasing
    | Purchased
    | TransitBrazil
    | ArrivedLocker
    | BrazilCustoms
    | ShippingVenezuela
    | InTransit
    | ArrivedVenezuela
    | InDelivery
    | Delivered
    | Completed

  /** The status string literal of the source, used inside tracking-event ids. */
  function StatusName(s: OrderStatus): string
  {
    match s
    case Created => "created"
    case PendingPayment => "pending_payment"
    case PaymentConfirmed => "payment_confirmed"
    case Purchasing => "purchasing"
    case Purchased => "purchased"
    case TransitBrazil => "transit_brazil"
    case ArrivedLocker => "arrived_locker"
    case BrazilCustoms => "brazil_customs"
    case ShippingVenezuela => "shipping_venezuela"
    case InTransit => "in_transit"
    case ArrivedVenezuela => "arrived_venezuela"
    case InDelivery => "in_delivery"
    case Delivered => "delivered"
    case Completed => "completed"
  }

  /** What the customer pays, in USD (exact rationals stand for the source's numbers). */
  datatype CostBreakdown = CostBreakdown(
    productPrice: real,
    serviceFee: real,
    shippingCost: real,
    customsFees: real,
    affiliateCommission: real,
    total: real)

  /** What the business earns on an order, in USD. */
  datatype RevenueBreakdown = RevenueBreakdown(
    affiliateCommission: real,
    serviceFee: real,
    shippingMargin: real,
    totalProfit: real)

  /** One entry of an order's history; `timestamp` is in milliseconds since the epoch. */
  datatype TrackingEvent = TrackingEvent(
    id: string,
    status: OrderStatus,
    title: string,
    description: string,
    location: string,
    timestamp: int)

  datatype ShippingAddress = ShippingAddress(
    fullName: string,
    phone: string,
    address: string,
    city: string,
    state: string,
    postalCode: string,
    country: string)

  /** The detailed order record; the three times are milliseconds since the epoch. */
  datatype Order = Order(
    id: string,
    productId: string,
    customerId: string,
    customerEmail: string,
    status: OrderStatus,
    trackingNumber: string,
    trackingEvents: seq<TrackingEvent>,
    shippingAddress: ShippingAddress,
    costBreakdown: CostBreakdown,
    revenueBreakdown: RevenueBreakdown,
    createdAt: int,
    updatedAt: int,
    estimatedDelivery: int)
}
