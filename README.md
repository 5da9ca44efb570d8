# Casillero: a verified model of the business layer

This project models, in Dafny, the client-side business layer of a package-forwarding and
affiliate-shopping web application. Customers buy products from Shein, Amazon and AliExpress.
The goods go to a locker in São Paulo and are then forwarded to Venezuela. The model covers:

- the order lifecycle engine: fourteen statuses from `created` to `completed`, a descriptor per
  status, tracking-event generation, single-step progression and the delivery estimate
  (`order_simulator.dfy`);
- the cost and revenue formulas with the customs threshold (`cost_calculator.dfy`);
- the two order repositories: the detailed fourteen-status store (`order_tracking.dfy`) and the
  simple five-status store with totals and tracking numbers (`order_management.dfy`);
- the keyed collection stores: shopping cart, lockers, package pre-alerts and notifications
  (`cart.dfy`, `lockers.dfy`, `pre_alerts.dfy`, `notifications.dfy`);
- the query and classification logic: filter-then-sort over products, the mock catalogue
  search, URL to store classification with affiliate links, and the five-stage customer
  timeline with look-up by id or tracking number (`product_filters.dfy`,
  `search_products.dfy`, `store_detector.dfy`, `tracking.dfy`);
- the response envelope and required-field validation helpers (`api_response.dfy`).

Shared record types live in `business.dfy`. Generic `filter`, `find`, `reduce`, `reverse`
and `sort` are in `seqs.dfy`. The JavaScript string operations the core uses are in
`strings.dfy`: ASCII `toLowerCase`, `includes`, decimal `toString`, `substring`, `slice` and
`trim`.

Each stateful hook is a class with one `seq` field for its persisted list. Every
`setState`/`localStorage.setItem` pair becomes one assignment to that field. Each method's
postcondition ties the new field to a pure function of the old one. The source's promises
(membership, order kept, counters, invariants, idempotence) are proved as postconditions or
lemmas about those functions. The one loop of the core, in `generateTrackingEvents` of
`orderSimulator`, is a method with a `for` loop and its invariants, proved against the
function that specifies it. The `generateTrackingEvents` of `useTracking` has no loop: its
method makes the same conditional pushes and the final reverse, and is proved equal to the
timeline function.

Money is exact `real` arithmetic. Times are integer milliseconds since the epoch. The clock and
every random draw are parameters.

## Model

| member | source | states |
|---|---|---|
| OrderSimulator.IndexOf | src/lib/orderSimulator.ts:87-104 | every status has a position in the flow, and the flow holds that status there |
| OrderSimulator.FlowIsBijective | src/lib/orderSimulator.ts:87-102 | the flow lists each of the fourteen statuses exactly once, and position and status are inverse maps |
| OrderSimulator.StatusMapIsTotal | src/lib/orderSimulator.ts:6-81 | the descriptor table has an entry for every status |
| OrderSimulator.EventFor | src/lib/orderSimulator.ts:108-125 | the event for flow position i carries the i-th status and the time createdAt + 2·i days |
| OrderSimulator.EventTextsFromMap | src/lib/orderSimulator.ts:118-124 | the event id is order id + "_" + status name, and title, description and location come from the table entry of its status |
| OrderSimulator.History | src/lib/orderSimulator.ts:104-128 | the history has one event per status reached, indexOf(status)+1 in all, most recent first |
| OrderSimulator.HistoryEnds | src/lib/orderSimulator.ts:128 | the first event has the current status and the last one is `created` |
| OrderSimulator.HistoryOfNextStatus | src/lib/orderSimulator.ts:104-128 | the history of the next status is the old history with one event for the next status in front |
| OrderSimulator.TimestampsDecrease | src/lib/orderSimulator.ts:113-116 | times strictly decrease along the history, by 2 days per step |
| OrderSimulator.TrackingEventIdsDistinct | src/lib/orderSimulator.ts:118-119 | no two events of one history share an id |
| OrderSimulator.GenerateTrackingEvents | src/lib/orderSimulator.ts:86-129 | the push loop followed by the reverse yields exactly the history of the order, so it does not depend on the clock |
| OrderSimulator.SimulateOrderProgress | src/lib/orderSimulator.ts:134-159 | the next status is one step further in the flow, capped at `completed`; the status stays the same exactly at `completed` |
| OrderSimulator.AdvanceIndex | src/lib/orderSimulator.ts:152-159 | n progressions move the position by min(n, steps left) |
| OrderSimulator.ProgressFromCreated | src/lib/orderSimulator.ts:152-159 | from `created`, n steps reach the n-th status and thirteen steps reach `completed` |
| OrderSimulator.CompletedIsFixed | src/lib/orderSimulator.ts:152-157 | `completed` is a fixed point of progression |
| OrderSimulator.DaysNonIncreasing | src/lib/orderSimulator.ts:167-182 | the days-remaining table never increases along the flow |
| OrderSimulator.DaysZeroExactlyAtTheEnd | src/lib/orderSimulator.ts:167-182 | the table is 0 exactly for `delivered` and `completed`, and at least 2 elsewhere |
| OrderSimulator.CalculateEstimatedDelivery | src/lib/orderSimulator.ts:165-186 | the estimate is now + the table's days, except that `delivered` and `completed` give now + 30 days; the estimate is never less than now + 2 days |
| OrderSimulator.EstimateJumpsAfterDelivery | src/lib/orderSimulator.ts:184 | a delivered order is estimated 30 days out, later than an order still in delivery (2 days) |
| OrderSimulator.IntendedEstimatedDelivery | src/lib/orderSimulator.ts:167-185 | the estimate with the table value used as written: now + days, equal to now exactly when delivered or completed |
| OrderSimulator.IntendedEstimateMonotone | src/lib/orderSimulator.ts:167-185 | the intended estimate never moves later as the order advances |
| CostCalculator.CalculateShippingCost | src/lib/costCalculator.ts:15-17 | shipping is 25 + 8 per kg, and at least 25 for a non-negative weight |
| CostCalculator.CalculateCustomsFees | src/lib/costCalculator.ts:22-27 | customs is 20% of the price above 50, zero up to and including 50, never negative |
| CostCalculator.CustomsMonotone | src/lib/costCalculator.ts:22-27 | customs never decreases as the price rises |
| CostCalculator.CalculateCostBreakdown | src/lib/costCalculator.ts:32-51 | the breakdown echoes the price, has fee 12% and commission 8%, and its total is price + fee + shipping + customs, without the commission |
| CostCalculator.CostTotalClosedForm | src/lib/costCalculator.ts:32-51 | total is 1.12p + 25 + 8w up to the threshold and 1.32p + 15 + 8w above it |
| CostCalculator.CostExamples | src/lib/costCalculator.ts:32-51 | a price of 100 gives fee 12, shipping 33, customs 10 and total 155; the default weight is 1 kg |
| CostCalculator.CalculateRevenueBreakdown | src/lib/costCalculator.ts:56-71 | commission and fee are copied, the margin is shipping charged minus actual shipping, and profit is their sum |
| CostCalculator.ProfitClosedForm | src/lib/costCalculator.ts:56-71 | profit is 0.2p + 25 + 8w − actual shipping, or 0.2p + 18 with the defaults |
| OrderTracking.OrderById | src/hooks/useOrderTracking.ts:31-33 | the first order with the id, or none exactly when no order has it |
| OrderTracking.OrderByTracking | src/hooks/useOrderTracking.ts:26-28 | the first order with the tracking number, or none exactly when no order has it |
| OrderTracking.Restatus | src/hooks/useOrderTracking.ts:38-46 | the updated order has the new status and update time, a history rebuilt for the new status, and all other fields unchanged |
| OrderTracking.WithStatus | src/hooks/useOrderTracking.ts:36-49 | orders keep their length, order and ids; orders with other ids are untouched and the matching ones are restatused |
| OrderTracking.UnknownIdUnchanged | src/hooks/useOrderTracking.ts:37-49 | updating an unknown id changes no order |
| OrderTracking.WithStatusKeepsConsistent | src/hooks/useOrderTracking.ts:38-46 | an update keeps every order's history equal to the one its status determines |
| OrderTracking.UpdateThenLookup | src/hooks/useOrderTracking.ts:36-49 | after an update, looking the id up finds the new status |
| OrderTracking.ProgressPrependsOneEvent | src/hooks/useOrderTracking.ts:56-64 | progressing a non-completed order keeps its history and puts one event for the next status in front |
| OrderTracking.Progressed | src/hooks/useOrderTracking.ts:56-64 | an unknown id or a completed order leaves the store as it was; otherwise the order is updated to its next status |
| OrderTracking.ProgressAdvancesOneStep | src/hooks/useOrderTracking.ts:56-64 | after progress, the order's status position and its event count each rise by exactly one |
| OrderTracking.NewOrderId | src/hooks/useOrderTracking.ts:70 | the id is "ORD-" + decimal now + "-" + the random suffix |
| OrderTracking.NewOrderIdInjective | src/hooks/useOrderTracking.ts:70 | two ids are equal only when both the clock readings and the random suffixes are equal |
| OrderTracking.NewTrackingNumber | src/hooks/useOrderTracking.ts:71 | the number is "TR" followed by the decimal clock without its first three digits |
| OrderTracking.TrackingNumberOfThirteenDigitClock | src/hooks/useOrderTracking.ts:71 | for a thirteen-digit clock the number has 12 characters and ends in the clock's last ten digits |
| OrderTracking.OrderTracker.constructor | src/hooks/useOrderTracking.ts:9-23 | the store starts as the loaded orders |
| OrderTracking.OrderTracker.GetOrderByTracking | src/hooks/useOrderTracking.ts:26-28 | finds a stored order with the number, or none exactly when none has it |
| OrderTracking.OrderTracker.GetOrderById | src/hooks/useOrderTracking.ts:31-33 | finds a stored order with the id, or none exactly when none has it |
| OrderTracking.OrderTracker.UpdateOrderStatus | src/hooks/useOrderTracking.ts:36-53 | the store becomes WithStatus of the old store |
| OrderTracking.OrderTracker.ProgressOrder | src/hooks/useOrderTracking.ts:56-64 | the store becomes Progressed of the old store |
| OrderTracking.OrderTracker.CreateOrder | src/hooks/useOrderTracking.ts:67-85 | the new order copies the caller's fields, gets its id, tracking number, equal creation and update times and the history of its status, and is prepended to the unchanged store |
| OrderManagement.SubtotalSnoc | src/hooks/useOrderManagement.ts:64 | the subtotal is the sum of price times quantity over the items |
| OrderManagement.RoundHalfUpCents | src/hooks/useOrderManagement.ts:78 | rounding a non-negative amount gives whole cents within half a cent |
| OrderManagement.RoundTo2 | src/hooks/useOrderManagement.ts:78 | two-decimal rounding gives whole cents within half a cent, a tie goes away from zero, and the sign is kept |
| OrderManagement.RoundTo2OfCents | src/hooks/useOrderManagement.ts:78 | an amount in whole cents is unchanged by rounding |
| OrderManagement.RoundTo2Idempotent | src/hooks/useOrderManagement.ts:78 | rounding twice is rounding once |
| OrderManagement.OrderTotal | src/hooks/useOrderManagement.ts:64-78 | the total is RoundTo2 of subtotal · 1.12 + 25, so it is in whole cents and within half a cent of that amount |
| OrderManagement.EmptyOrderTotal | src/hooks/useOrderManagement.ts:64-78 | an order with no items costs 25 |
| OrderManagement.DeliveryDays | src/hooks/useOrderManagement.ts:69-70 | delivery lies 15 to 29 days ahead |
| OrderManagement.TrackingNumberFor | src/hooks/useOrderManagement.ts:82 | the number is "TR" followed by the last ten characters of the decimal clock |
| OrderManagement.TrackingNumbersAgree | src/hooks/useOrderManagement.ts:82 | for a thirteen-digit clock the two stores' tracking-number rules give the same text |
| OrderManagement.NewOrder | src/hooks/useOrderManagement.ts:54-90 | the new order has its id, the given items, email and address, status `pending`, currency USD, the rounded total, the tracking number and a delivery 15 to 29 days ahead |
| OrderManagement.OrderWithId | src/hooks/useOrderManagement.ts:92-94 | the first order with the id, or none exactly when no order has it |
| OrderManagement.WithStatus | src/hooks/useOrderManagement.ts:96-101 | only the status field of matching orders changes, with no forward-only check |
| OrderManagement.WithStatusOverrides | src/hooks/useOrderManagement.ts:96-101 | a second status update overrides the first |
| OrderManagement.WithoutOrder | src/hooks/useOrderManagement.ts:103-106 | deletion keeps exactly the orders with other ids, each as often as stored, in order, and the id is then not found |
| OrderManagement.DeleteUnknownIsIdentity | src/hooks/useOrderManagement.ts:103-106 | deleting an unknown id changes nothing |
| OrderManagement.OrderBook.constructor | src/hooks/useOrderManagement.ts:39-47 | the store starts as the stored orders |
| OrderManagement.OrderBook.GetOrder | src/hooks/useOrderManagement.ts:92-94 | finds a stored order with the id, or none exactly when none has it |
| OrderManagement.OrderBook.CreateOrder | src/hooks/useOrderManagement.ts:54-90 | the returned order is NewOrder, prepended to the unchanged store |
| OrderManagement.OrderBook.UpdateOrderStatus | src/hooks/useOrderManagement.ts:96-101 | the store becomes WithStatus of the old store |
| OrderManagement.OrderBook.DeleteOrder | src/hooks/useOrderManagement.ts:103-106 | the store becomes WithoutOrder of the old store |
| OrderManagement.OrderBook.ClearAllOrders | src/hooks/useOrderManagement.ts:108-111 | the store is empty |
| Cart.ExistingLine | src/hooks/useCart.ts:33 | finds a line with the product and variant, or none exactly when no line has them |
| Cart.BumpQuantity | src/hooks/useCart.ts:38-43 | only the lines with the id gain the quantity; the length stays the same |
| Cart.WithItemAdded | src/hooks/useCart.ts:32-52 | a matching line gains the quantity; otherwise one new line with the quantity is appended |
| Cart.AddItemLength | src/hooks/useCart.ts:32-52 | merging keeps the length and appending adds one line |
| Cart.AddItemKeepsLinesUnique | src/hooks/useCart.ts:33-50 | adding keeps every (product, variant) pair on at most one line |
| Cart.AddItemKeepsIdsUnique | src/hooks/useCart.ts:33-50 | adding with a fresh id keeps line ids distinct |
| Cart.AddItemTotal | src/hooks/useCart.ts:32-52 | in both branches the item count rises by exactly the quantity |
| Cart.AddItemPrice | src/hooks/useCart.ts:32-52 | the price total rises by the quantity times the price of the line that takes it: the existing line on a merge, the product on a new line |
| Cart.WithoutItem | src/hooks/useCart.ts:65-68 | removal keeps exactly the lines with other ids, each as often as stored, in order |
| Cart.WithQuantity | src/hooks/useCart.ts:54-63 | a quantity of zero or less is removal; otherwise only that line's quantity is set |
| Cart.UpdateKeepsLinesUnique | src/hooks/useCart.ts:54-63 | updating keeps every (product, variant) pair on at most one line |
| Cart.TotalItems | src/hooks/useCart.ts:75-77 | the sum of the quantities: 0 for an empty cart, never negative without a negative quantity |
| Cart.TotalPrice | src/hooks/useCart.ts:79-81 | the sum of price times quantity: 0 for an empty cart |
| Cart.TotalPriceNonNegative | src/hooks/useCart.ts:79-81 | without negative prices or quantities the price total is never negative |
| Cart.ShoppingCart.constructor | src/hooks/useCart.ts:17-25 | the cart starts with the stored lines |
| Cart.ShoppingCart.AddItem | src/hooks/useCart.ts:32-52 | the cart becomes WithItemAdded of the old cart |
| Cart.ShoppingCart.UpdateQuantity | src/hooks/useCart.ts:54-63 | the cart becomes WithQuantity of the old cart |
| Cart.ShoppingCart.RemoveItem | src/hooks/useCart.ts:65-68 | the cart becomes WithoutItem of the old cart |
| Cart.ShoppingCart.ClearCart | src/hooks/useCart.ts:70-81 | the cart is empty, and both the item total and the price total are 0 |
| Cart.ShoppingCart.GetTotalItems | src/hooks/useCart.ts:75-77 | returns TotalItems of the cart |
| Cart.ShoppingCart.GetTotalPrice | src/hooks/useCart.ts:79-81 | returns TotalPrice of the cart |
| Lockers.GenerateBrazilianAddress | src/hooks/useLockerManagement.ts:23-44 | the street is one of the five, the number is 100 to 2099, the complement is "Casillero " + code, and city, state, postal code and country are fixed |
| Lockers.LockerCode | src/hooks/useLockerManagement.ts:68 | the code is "VE" followed by the last six characters of the decimal clock |
| Lockers.LockerCodeLength | src/hooks/useLockerManagement.ts:68 | a clock of at least six digits gives an eight-character code |
| Lockers.NewLocker | src/hooks/useLockerManagement.ts:62-78 | the locker has id "lock_" + now, its code and address, the email, status active and no packages |
| Lockers.LockerByEmail | src/hooks/useLockerManagement.ts:87-89 | the first locker that has the email and is active, or none exactly when none is; never an inactive one |
| Lockers.WithPackage | src/hooks/useLockerManagement.ts:91-98 | the matching lockers gain one package and the others are unchanged |
| Lockers.Deactivated | src/hooks/useLockerManagement.ts:100-107 | the matching lockers become inactive and nothing else changes |
| Lockers.DeactivateIdempotent | src/hooks/useLockerManagement.ts:100-107 | deactivating twice is deactivating once |
| Lockers.DeactivatedNotFound | src/hooks/useLockerManagement.ts:87-107 | after deactivation, the look-up by email never returns that locker |
| Lockers.RegisterPackageTotal | src/hooks/useLockerManagement.ts:91-98 | with distinct ids, the package total rises by exactly one |
| Lockers.RegisterPackageKeepsLookup | src/hooks/useLockerManagement.ts:87-98 | registering a package does not change whether an email finds a locker |
| Lockers.LockerRegistry.constructor | src/hooks/useLockerManagement.ts:47-55 | the registry starts as the stored lockers |
| Lockers.LockerRegistry.AssignLocker | src/hooks/useLockerManagement.ts:62-85 | the new locker is NewLocker, prepended to the unchanged registry |
| Lockers.LockerRegistry.GetLockerByEmail | src/hooks/useLockerManagement.ts:87-89 | returns LockerByEmail of the registry, so only an active locker with the email |
| Lockers.LockerRegistry.RegisterPackage | src/hooks/useLockerManagement.ts:91-98 | the registry becomes WithPackage of the old registry |
| Lockers.LockerRegistry.DeactivateLocker | src/hooks/useLockerManagement.ts:100-107 | the registry becomes Deactivated of the old registry |
| Lockers.LockerRegistry.ClearAllLockers | src/hooks/useLockerManagement.ts:111-114 | the registry is empty |
| PreAlerts.ArrivalDays | src/hooks/usePreAlerts.ts:48-49 | the arrival lies 5 to 14 days ahead |
| PreAlerts.NewPreAlert | src/hooks/usePreAlerts.ts:35-62 | the alert has id "prealert_" + now, the given fields, status pending, no receipt time and an arrival 5 to 14 days ahead |
| PreAlerts.ReceivedFallback | src/hooks/usePreAlerts.ts:78 | a non-empty given receipt time wins; a missing or empty one keeps the old value |
| PreAlerts.ReceiptNeverLost | src/hooks/usePreAlerts.ts:78 | a recorded receipt time is never erased by a status update |
| PreAlerts.WithStatus | src/hooks/usePreAlerts.ts:71-82 | matching alerts get the status and the receipt fallback; other alerts and the order are unchanged |
| PreAlerts.WithStatusKeepsLockerLists | src/hooks/usePreAlerts.ts:71-86 | a status update does not change how many alerts a locker lists |
| PreAlerts.WithStatusKeepsEmailLists | src/hooks/usePreAlerts.ts:71-86 | a status update does not change how many alerts a customer lists |
| PreAlerts.ByLocker | src/hooks/usePreAlerts.ts:84-86 | exactly the alerts of the locker, each as often as stored, in stored order |
| PreAlerts.ByEmail | src/hooks/usePreAlerts.ts:88-90 | exactly the alerts of the email, each as often as stored, in stored order |
| PreAlerts.WithoutAlert | src/hooks/usePreAlerts.ts:92-95 | deletion keeps exactly the alerts with other ids, each as often as stored, in order |
| PreAlerts.NewAlertListedFirst | src/hooks/usePreAlerts.ts:64-90 | a new alert heads both its locker's and its email's lists |
| PreAlerts.PreAlertBook.constructor | src/hooks/usePreAlerts.ts:20-28 | the list starts as the stored alerts |
| PreAlerts.PreAlertBook.CreatePreAlert | src/hooks/usePreAlerts.ts:35-69 | the new alert is NewPreAlert, prepended to the unchanged list |
| PreAlerts.PreAlertBook.UpdatePreAlertStatus | src/hooks/usePreAlerts.ts:71-82 | the list becomes WithStatus of the old list |
| PreAlerts.PreAlertBook.GetPreAlertsByLocker | src/hooks/usePreAlerts.ts:84-86 | returns ByLocker of the stored list: exactly the alerts of the locker |
| PreAlerts.PreAlertBook.GetPreAlertsByEmail | src/hooks/usePreAlerts.ts:88-90 | returns ByEmail of the stored list: exactly the alerts of the email |
| PreAlerts.PreAlertBook.DeletePreAlert | src/hooks/usePreAlerts.ts:92-95 | the list becomes WithoutAlert of the old list |
| PreAlerts.PreAlertBook.ClearAllPreAlerts | src/hooks/usePreAlerts.ts:97-100 | the list is empty |
| Notifications.UnreadCount | src/hooks/useNotifications.ts:77-79 | the count never exceeds the length, and is zero exactly when all are read |
| Notifications.NewNotification | src/hooks/useNotifications.ts:38-50 | the notification is unread and carries the given type, title, message, metadata, id and time |
| Notifications.AddRaisesUnread | src/hooks/useNotifications.ts:46-50 | prepending an unread notification raises the count by one |
| Notifications.MarkRead | src/hooks/useNotifications.ts:55-60 | only the matching notifications become read |
| Notifications.MarkReadIdempotent | src/hooks/useNotifications.ts:55-60 | marking twice is marking once |
| Notifications.MarkReadNeverAddsUnread | src/hooks/useNotifications.ts:55-60 | marking never raises the unread count |
| Notifications.MarkAllRead | src/hooks/useNotifications.ts:62-65 | every notification becomes read, the length is kept and the unread count is 0 |
| Notifications.WithoutNotification | src/hooks/useNotifications.ts:67-70 | deletion keeps exactly the notifications with other ids, each as often as stored, in order |
| Notifications.ByType | src/hooks/useNotifications.ts:81-83 | exactly the notifications of the type, each as often as stored, in stored order |
| Notifications.NotificationCenter.constructor | src/hooks/useNotifications.ts:18-25 | the list starts as the stored notifications |
| Notifications.NotificationCenter.AddNotification | src/hooks/useNotifications.ts:32-53 | the new notification is prepended and the unread count rises by one |
| Notifications.NotificationCenter.MarkAsRead | src/hooks/useNotifications.ts:55-60 | the list becomes MarkRead of the old list |
| Notifications.NotificationCenter.MarkAllAsRead | src/hooks/useNotifications.ts:62-65 | the list becomes MarkAllRead of the old list |
| Notifications.NotificationCenter.DeleteNotification | src/hooks/useNotifications.ts:67-70 | the list becomes WithoutNotification of the old list |
| Notifications.NotificationCenter.ClearAllNotifications | src/hooks/useNotifications.ts:72-75 | the list is empty |
| Notifications.NotificationCenter.GetUnreadCount | src/hooks/useNotifications.ts:77-79 | returns UnreadCount of the list, which never exceeds its length |
| Notifications.NotificationCenter.GetNotificationsByType | src/hooks/useNotifications.ts:81-83 | returns ByType of the stored list: exactly the notifications of the type |
| ProductFilters.Updated | src/hooks/useProductFilters.ts:25-30 | the named field takes the new value and every other field is unchanged |
| ProductFilters.ActiveFiltersCount | src/hooks/useProductFilters.ts:83-88 | at most six, and zero exactly when no field is set |
| ProductFilters.UpdateChangesCountByOne | src/hooks/useProductFilters.ts:25-88 | setting an unset field adds one to the count, and clearing a set field removes one |
| ProductFilters.Matches | src/hooks/useProductFilters.ts:40-60 | a product passes exactly when it lies within the set price bounds (both inclusive, 0 included), matches the set store, stock and minimum rating |
| ProductFilters.SortedMeans | src/hooks/useProductFilters.ts:63-78 | price ascending, price descending, rating descending and reviews descending orders |
| ProductFilters.Matching | src/hooks/useProductFilters.ts:40-60 | exactly the products that match, each as often as in the input, in input order |
| ProductFilters.AllTestsMatch | src/hooks/useProductFilters.ts:40-60 | the five successive filters together keep exactly the matching products |
| ProductFilters.NarrowStage | src/hooks/useProductFilters.ts:40-60 | each filter stage keeps the previous survivors that pass its test |
| ProductFilters.FilterState.constructor | src/hooks/useProductFilters.ts:23 | no filter is set at first |
| ProductFilters.FilterState.UpdateFilter | src/hooks/useProductFilters.ts:25-30 | the filters become Updated of the old filters |
| ProductFilters.FilterState.ClearFilters | src/hooks/useProductFilters.ts:32-34 | no filter is set and the count is 0 |
| ProductFilters.FilterState.GetActiveFiltersCount | src/hooks/useProductFilters.ts:83-88 | zero exactly when no filter is set |
| ProductFilters.FilterState.ApplyFilters | src/hooks/useProductFilters.ts:36-81 | the result is a permutation of the matching products; it keeps their input order without a sort, and is ordered by the chosen key with one, where products with equal keys keep their matching order |
| StoreDetector.DetectStore | src/lib/storeDetector.ts:6-22 | shein exactly when the lower-cased URL contains "shein", then amazon, then aliexpress in that priority, and none when no name occurs |
| StoreDetector.DetectIgnoresCase | src/lib/storeDetector.ts:7 | lower-casing the URL first does not change the store |
| StoreDetector.SameLowerSameStore | src/lib/storeDetector.ts:7 | URLs equal up to case classify alike |
| StoreDetector.MockProduct | src/lib/storeDetector.ts:39-61 | the fixed records cost 29.99, 89.99 and 34.99 with four, three and two variants |
| StoreDetector.ExtractProductFromUrl | src/lib/storeDetector.ts:27-64 | none exactly when no store is detected; otherwise that store's fixed record |
| StoreDetector.GenerateAffiliateLink | src/lib/storeDetector.ts:69-83 | the link starts with base + "/" + product id + "?"; the Amazon link is exactly base + "/" + id + "?tag=casillero-20" |
| StoreDetector.AmazonLinkIsDeterministic | src/lib/storeDetector.ts:77-78 | the Amazon link does not depend on the random part |
| StoreDetector.SheinLinkDetected | src/lib/storeDetector.ts:6-83 | a generated Shein link is classified as Shein |
| Tracking.StageCount | src/hooks/useTracking.ts:29-63 | one to five stages; any text that is not one of the four later simple statuses shows one |
| Tracking.StageCountAlongStatuses | src/hooks/useTracking.ts:22-63 | pending, processing, shipped, in_transit and delivered show 1, 2, 3, 4 and 5 stages |
| Tracking.StageEvent | src/hooks/useTracking.ts:22-63 | stage k is dated 7, 6, 5, 3 or 0 days before now |
| Tracking.FirstStageIsReceipt | src/hooks/useTracking.ts:22-27 | the first stage is "Pedido Recibido" |
| Tracking.Timeline | src/hooks/useTracking.ts:18-66 | the timeline lists the reached stages most recent first and ends with the receipt |
| Tracking.TimelineNonIncreasing | src/hooks/useTracking.ts:22-65 | times never increase along the timeline |
| Tracking.TimelineCumulative | src/hooks/useTracking.ts:29-63 | a later status's timeline ends with the whole timeline of an earlier one |
| Tracking.StageTests | src/hooks/useTracking.ts:29-63 | each of the four membership tests passes exactly when the stage count reaches its stage |
| Tracking.GenerateTrackingEvents | src/hooks/useTracking.ts:18-66 | the pushes followed by the reverse yield exactly the timeline |
| Tracking.FindStored | src/hooks/useTracking.ts:82-84 | the first stored order whose id or tracking number is the key, or none exactly when none is |
| Tracking.TrackingNumberOrNA | src/hooks/useTracking.ts:90 | a missing or empty tracking number shows as "N/A" |
| Tracking.TrackResult | src/hooks/useTracking.ts:72-108 | none exactly when no order matches; otherwise the found order's id, status, number or "N/A", delivery and timeline |
| Tracking.FoundByOwnId | src/hooks/useTracking.ts:82-84 | an order is found by its own id unless an earlier order carries that key |
| Tracking.Tracker.constructor | src/hooks/useTracking.ts:70 | no tracking info is shown at first |
| Tracking.Tracker.TrackOrder | src/hooks/useTracking.ts:72-108 | returns TrackResult, and shows it when something was found |
| SearchProducts.MockResults | src/hooks/useSearchProducts.ts:16-131 | each store has three mock products, all of that store |
| SearchProducts.Candidates | src/hooks/useSearchProducts.ts:148-157 | a given store's list, or the shein, amazon and aliexpress lists joined in that order |
| SearchProducts.SearchResults | src/hooks/useSearchProducts.ts:147-164 | a blank query keeps every candidate; otherwise exactly the candidates whose lower-cased title contains the lower-cased query, in candidate order |
| SearchProducts.ResultBounds | src/hooks/useSearchProducts.ts:16-164 | at most 3 results with a store and at most 9 without |
| SearchProducts.ResultsFromChosenStore | src/hooks/useSearchProducts.ts:148-150 | with a store given, every result is of that store |
| SearchProducts.QueryCaseIgnored | src/hooks/useSearchProducts.ts:160-164 | a query and its lower-cased form give the same results |
| SearchProducts.ProductSearch.constructor | src/hooks/useSearchProducts.ts:135 | no result is shown at first |
| SearchProducts.ProductSearch.SearchProducts | src/hooks/useSearchProducts.ts:137-169 | returns SearchResults and shows it |
| SearchProducts.ProductSearch.ClearResults | src/hooks/useSearchProducts.ts:171-173 | no result is shown |
| ApiResponse.CreateSuccessResponse | src/lib/apiResponse.ts:19-26 | success, with the data, the message and the time, and no error |
| ApiResponse.CreateErrorResponse | src/lib/apiResponse.ts:31-45 | failure, without data, with the message, the time and an error of the code and details |
| ApiResponse.DefaultsApplied | src/lib/apiResponse.ts:19-45 | the default message is "Operación exitosa" and the default code "ERROR" without details |
| ApiResponse.MessagesCoverCodes | src/lib/apiResponse.ts:50-77 | every error code has a message |
| ApiResponse.MessageFor | src/lib/apiResponse.ts:66-77 | the message of a code is its table entry |
| ApiResponse.ValidateRequired | src/lib/apiResponse.ts:82-93 | valid exactly when no required field is absent or falsy; otherwise the missing fields, each as often as it is required, in required order, non-empty |
| ApiResponse.ValidationExamples | src/lib/apiResponse.ts:82-93 | no required field is always valid, and one absent field is reported alone |
| Strings.Lower | src/lib/storeDetector.ts:7 | ASCII lower-casing keeps the length and leaves no upper-case letter |
| Strings.IncludesAt | src/lib/storeDetector.ts:9-19 | `includes` holds exactly when the pattern occurs at some position |
| Strings.ParseNatToString | src/hooks/useOrderTracking.ts:70 | the decimal text of a number reads back as that number |
| Strings.Trim | src/hooks/useSearchProducts.ts:160 | the trimmed text is empty exactly when the text is all whitespace |
| Seqs.Filter | src/lib/apiResponse.ts:86 | `filter` keeps exactly the passing elements, with their multiplicity, in order |
| Seqs.Find | src/hooks/useOrderTracking.ts:26-33 | `find` returns the first passing element, or none exactly when none passes |
| Seqs.SortByKey | src/hooks/useProductFilters.ts:63-78 | the sort returns a permutation ordered by the key |
| Seqs.SortByKeyStable | src/hooks/useProductFilters.ts:63-78 | the sort is stable: for every key, the elements with that key come out in their input order |

## Left out

- Persistence: the `localStorage` keys, `JSON.parse`/`JSON.stringify` and the load effects of every hook. Each store's persisted list is a class field, and each constructor takes the stored list.
- React state, loading flags (`isLoading`, `isCreating`, `isSearching`) and the simulated `setTimeout` delays are concurrency and display concerns. `simulateApiDelay` (src/lib/apiResponse.ts:98-101) is left out for the same reason.
- The clock and randomness are parameters. Every `Date.now()`/`new Date()` reading inside one operation is the same `now`. The `Math.random()` draws are reals in [0, 1). The random id suffixes and the affiliate id's random part are strings.
- Dates are integer milliseconds; `toISOString` and `toLocaleDateString` are not modelled. `setDate(getDate() + n)` is modelled as adding n days of 86400000 ms, which ignores daylight-saving changes.
- Floating point: amounts are exact reals, so IEEE rounding errors are not modelled.
- OrderManagement.RoundTo2: models `toFixed(2)` as exact half-away-from-zero rounding on reals, because the IEEE binary representation of the amount is not modelled.
- `getAllLockers` (src/hooks/useLockerManagement.ts:109) returns the field unchanged and has no logic to state.
- Lockers.GenerateBrazilianAddress: states only that the street is one of the five and the number lies in 100 to 2099, because the two draws are free parameters.
- StoreDetector.GenerateAffiliateLink: for Shein and AliExpress states only the link's prefix, because the affiliate id ends in a random part.
- The Amazon and AliExpress counterparts of StoreDetector.SheinLinkDetected are not stated.
- A filter value of `null` is not modelled. Fields are either set or unset, as `undefined`.
- `applyFilters` is generic over products that extend the filterable shape. The model passes a view function from the element type to that shape.
- Case folding is ASCII only; other Unicode letters are left as they are.
- The two order stores share the `customer_orders` storage key but have different record shapes. They are modelled as two independent stores. Tracking.TrackOrder reads stored records through a view with an optional tracking number and a string status.
- Tracking.StageEvent: states the timestamp of each stage. Its title, location and description texts are constants picked by stage, and only the first stage's title is stated (Tracking.FirstStageIsReceipt).
- `ErrorMessages` is keyed by the code strings. Lookups with other strings are not modelled.
- Pages, components, seed data, statistics, `useProductSimulation`, `useUrlExtraction`, `useProductCatalog` and `useOrderWithNotifications` are not part of this model.

## Findings

| source | as written | input that shows it | evidently intended | confidence | as-written member | corrected member |
|---|---|---|---|---|---|---|
| src/lib/orderSimulator.ts:184 | `daysToAdd[status] \|\| 30` treats the table value 0 as missing | status `delivered` or `completed`: the estimate is now + 30 days, while `in_delivery` gives now + 2 days | use the table value when the status has one (`??`), so a delivered order is estimated at now | not executed | OrderSimulator.EstimateJumpsAfterDelivery | OrderSimulator.IntendedEstimateMonotone |
