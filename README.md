# Food ordering platform: verified model of the domain core

This project is a Dafny model of the domain core of a food-ordering platform. The platform is made of three Spring services and a web client:

- The **order service** keeps a customer's cart. It turns the cart into an order: customer details, payment, placement. It then follows the order through the restaurant's decision and the delivery.
- The **restaurant service** keeps restaurants, their menus of dishes (at most ten active dishes), their opening hours and their price tier. It keeps a restaurant-side copy of each order.
- The **delivery service** lets drivers claim, start, cancel and complete deliveries. It pays each driver from the delivery time, with a payout calculator.
- The **web client** keeps the current order in a small store, polls the tracking page and routes URLs to pages.

Each Java entity whose fields change in place is a Dafny `class`. Its methods carry `modifies` clauses. Each method's postcondition ties its new state, read through a snapshot function (`Snap()`, `View()`, `Values()`, `Row()`), to a pure function of the old state. The properties the system promises are lemmas about those pure functions. Examples are the order life cycle only moving forward, the menu cap of ten active dishes, and the payout rounded up to whole cents. Values the source treats as immutable are datatypes: addresses, opening hours, price tiers and the client's order DTOs.

| file | module | models |
|---|---|---|
| common.dfy | Common | money as exact decimals, rounding up to cents, shared failure kinds |
| order.dfy | Ordering | `Order`, `OrderLine`, `Payment` of the order service |
| restaurant_order.dfy | RestaurantOrders | the restaurant-side `RestaurantOrder` |
| dish.dfy | Dishes | `Dish`: status rules and scheduled updates |
| menu.dfy | Menus | `Menu`: the ten-active-dish cap, promotion, publication, average price |
| restaurant.dfy | Restaurants | `Restaurant`: dish edits through the menu, opening now |
| opening_hours.dfy | Opening | `OpeningHours.isOpenAt` |
| price_tier.dfy | PriceTiers | `PriceTier.from` and its symbols |
| address.dfy | Addresses | the `Address` record's trimming constructor |
| delivery.dfy | Deliveries | `Delivery` and its state machine |
| driver.dfy | Drivers | `Driver` and its single active delivery |
| payout.dfy | Payouts | `PayoutCalculator.calculateFor` |
| driver_service.dfy | DriverServices | `DriverService`: claim, start, cancel, complete, completed-deliveries report |
| jpa_address.dfy | JpaAddresses | `JpaAddressEntity` mapping |
| jpa_delivery.dfy | JpaDeliveries | `JpaDeliveryEntity` mapping, addresses updated in place |
| jpa_menu.dfy | JpaMenus | `JpaMenuEntity`/`JpaDishEntity` mapping and the in-place dish sync |
| order_store.dfy | OrderStore | the client's current-order store and DTO validation |
| order_tracking.dfy | OrderTracking | the tracking page's progress bar and polling |
| router.dfy | Router | the client router's template matching |

Conventions:

- Money is a `real`. It stands for `BigDecimal` and `double` amounts. `setScale(2, CEILING)` is `Common.CeilCents`.
- The clock (`LocalDateTime.now()`, `Date.now()`) is a `now: Time` parameter, counted in seconds.
- A thrown exception is an `Outcome.Err` or a `Result.Fail`. Each carries the exception class and the message. The state after an error is stated in full.
- Java `null` is `Option.None`, or a nullable class type `C?` for entities.
- A remote call or a `localStorage` read in the client is a parameter: the fetched value, or `Threw`. The requests made are returned as a list.

## Model

| member | source | states |
|---|---|---|
| Ordering.NextGoesForward | order-service/backend/src/main/java/be/kdg/sa/backend/domain/order/Order.java:69-235 | No single step of the order life cycle moves an order back in the CART → … → DELIVERED order or returns it to CART; only providing details, accepting and rejecting may leave the status as it was. |
| Ordering.RunGoesForward | order-service/backend/src/main/java/be/kdg/sa/backend/domain/order/Order.java:69-235 | Over any run of steps the status never goes back, never returns to CART once left, DELIVERED admits no further step and REJECTED stays REJECTED. |
| Ordering.DecisionIsFinal | order-service/backend/src/main/java/be/kdg/sa/backend/domain/order/Order.java:148-188 | Once an order is accepted (or further along) no run of steps can reject it. |
| Ordering.HappyPath | order-service/backend/src/main/java/be/kdg/sa/backend/domain/order/Order.java:65-235 | Details, payment, place, accept, ready, pick-up and deliver take a cart to DELIVERED; accepting after a rejection fails. |
| Ordering.AvailableLabels | order-service/backend/src/main/java/be/kdg/sa/backend/domain/order/Order.java:126-128 | The catalogue status check accepts "AVAILABLE" in any letter case and refuses other labels, including a padded one and the empty string. |
| Ordering.Payment.constructor | backend/src/main/java/be/kdg/sa/backend/domain/payment/Payment.java:14-18 | The three-argument constructor stores the id, checkout URL and status given. |
| Ordering.Payment.InProgress | backend/src/main/java/be/kdg/sa/backend/domain/payment/Payment.java:20-24 | The two-argument constructor starts IN_PROGRESS, so the payment is not paid. |
| Ordering.Payment.MarkAsPaid | backend/src/main/java/be/kdg/sa/backend/domain/payment/Payment.java:26-35 | From IN_PROGRESS the payment becomes PAID; from any other status it fails with the "not in progress" error and the status stays; id and checkout URL never change. |
| Ordering.Payment.IsPaid | backend/src/main/java/be/kdg/sa/backend/domain/payment/Payment.java:26-28 | Paid exactly when the status is no longer IN_PROGRESS, i.e. exactly when markAsPaid would refuse the payment. |
| Ordering.CheckNewLine | order-service/backend/src/main/java/be/kdg/sa/backend/domain/order/OrderLine.java:24-59 | A new line is accepted exactly when quantity > 0 and unit price ≥ 0; both refusals carry the same "Quantity must be > 0" error. |
| Ordering.OrderLine.constructor | order-service/backend/src/main/java/be/kdg/sa/backend/domain/order/OrderLine.java:24-34 | A line built from checked arguments holds exactly the dish id, name, unit price, quantity and notes given. |
| Ordering.OrderLine.AddQuantity | order-service/backend/src/main/java/be/kdg/sa/backend/domain/order/OrderLine.java:36-43 | A positive q raises the quantity by exactly q and the line total by unit price × q; q ≤ 0 fails and leaves the line unchanged. |
| Ordering.OrderLine.IsForDish | order-service/backend/src/main/java/be/kdg/sa/backend/domain/order/OrderLine.java:45-47 | True exactly when the line's value carries that dish id; the lookup that adds to an existing line finds the first such line. |
| Ordering.FindLine | order-service/backend/src/main/java/be/kdg/sa/backend/domain/order/Order.java:130-132 | Returns the first line that is for the dish, or none exactly when no line is for it. |
| Ordering.FindValue | order-service/backend/src/main/java/be/kdg/sa/backend/domain/order/Order.java:130-132 | On line values: the first index of the dish, or none exactly when no line is for it. |
| Ordering.TotalOfUpdate | order-service/backend/src/main/java/be/kdg/sa/backend/domain/order/Order.java:141-146 | Replacing one line changes the order total by exactly the new line's total minus the old one's. |
| Ordering.TotalOfAppend | order-service/backend/src/main/java/be/kdg/sa/backend/domain/order/Order.java:139-146 | Appending a line adds exactly its total to the order total. |
| Ordering.TotalOfNonNegative | order-service/backend/src/main/java/be/kdg/sa/backend/domain/order/Order.java:144-146 | The total of well-formed lines is never negative. |
| Ordering.PutLineKeepsWellFormed | order-service/backend/src/main/java/be/kdg/sa/backend/domain/order/Order.java:130-140 | Merging a dish into the lines keeps one line per dish with positive quantities; after a successful merge the dish has a line. |
| Ordering.PutLineTotal | order-service/backend/src/main/java/be/kdg/sa/backend/domain/order/Order.java:130-146 | A successful merge raises the total by exactly unit price × quantity added. |
| Ordering.RaiseAtTotal | order-service/backend/src/main/java/be/kdg/sa/backend/domain/order/Order.java:134-146 | Raising one line's quantity raises the order total by that line's unit price × the quantity added. |
| Ordering.RaisedTotal | order-service/backend/src/main/java/be/kdg/sa/backend/domain/order/OrderLine.java:36-43 | Raising a line's quantity raises its total by unit price × the quantity added. |
| Ordering.Order.Cart | order-service/backend/src/main/java/be/kdg/sa/backend/domain/order/Order.java:60-63 | A new cart has the id given, status CART, no lines, no restaurant, no total and no payment. |
| Ordering.Order.CreateCart | order-service/backend/src/main/java/be/kdg/sa/backend/domain/order/Order.java:65-67 | createCart returns a fresh order in status CART with no lines, no restaurant, no total and no payment. |
| Ordering.Order.AddDish | order-service/backend/src/main/java/be/kdg/sa/backend/domain/order/Order.java:115-142 | Outside CART it fails with nothing changed; a dish from another restaurant fails; otherwise the restaurant id is fixed before an unavailable dish fails; an available dish is merged into the lines (existing line raised, else a new line appended) and the total is the sum of the line totals. |
| Ordering.Order.PutLine | order-service/backend/src/main/java/be/kdg/sa/backend/domain/order/Order.java:130-141 | The lines become the merge of the dish into the old lines and the total is recomputed; a refused quantity changes nothing. |
| Ordering.Order.RaiseLine | order-service/backend/src/main/java/be/kdg/sa/backend/domain/order/Order.java:134-138 | A positive quantity raises exactly that line (notes replaced only when given); otherwise the lines are unchanged. |
| Ordering.Order.AppendLine | order-service/backend/src/main/java/be/kdg/sa/backend/domain/order/Order.java:139 | A checked new line is appended after the existing line objects, which are kept; a refused one changes nothing. |
| Ordering.Order.RecomputeTotal | order-service/backend/src/main/java/be/kdg/sa/backend/domain/order/Order.java:144-146 | The total becomes the sum of the line totals and nothing else changes. |
| Ordering.Order.SetCustomerDetails | order-service/backend/src/main/java/be/kdg/sa/backend/domain/order/Order.java:69-82 | Succeeds exactly from CART or CUSTOMER_DETAILS_PROVIDED with at least one line, then stores name, email, address, the recomputed total and status CUSTOMER_DETAILS_PROVIDED; each failure has its own error and changes nothing. |
| Ordering.Order.AssignPayment | order-service/backend/src/main/java/be/kdg/sa/backend/domain/order/Order.java:84-94 | Succeeds exactly from CUSTOMER_DETAILS_PROVIDED with lines, then holds the payment and is PAYMENT_IN_PROGRESS; failures change nothing. |
| Ordering.Order.ConfirmPayment | order-service/backend/src/main/java/be/kdg/sa/backend/domain/order/Order.java:96-113 | Succeeds exactly when the payment is paid, the order is PAYMENT_IN_PROGRESS and has lines; then it is PLACED at the given time; each failure has its own error and changes nothing. |
| Ordering.Order.Accept | order-service/backend/src/main/java/be/kdg/sa/backend/domain/order/Order.java:148-167 | PLACED becomes ACCEPTED with reason and time; accepting again succeeds and keeps the first reason; accepting a rejected order or one not yet placed fails with nothing changed. |
| Ordering.Order.IsFinalized | order-service/backend/src/main/java/be/kdg/sa/backend/domain/order/Order.java:190-192 | True exactly in the states where accepting or rejecting once more leaves the status unchanged (ACCEPTED, REJECTED). |
| Ordering.Order.Reject | order-service/backend/src/main/java/be/kdg/sa/backend/domain/order/Order.java:169-188 | PLACED becomes REJECTED with reason and time; rejecting again succeeds and keeps the first reason; rejecting an accepted order or one not yet placed fails with nothing changed. |
| Ordering.Order.MarkAsReady | order-service/backend/src/main/java/be/kdg/sa/backend/domain/order/Order.java:194-200 | Only ACCEPTED becomes READY, stamping the time; otherwise it fails with nothing changed. |
| Ordering.Order.MarkAsOutForDelivery | order-service/backend/src/main/java/be/kdg/sa/backend/domain/order/Order.java:223-228 | Only READY becomes PICKED_UP; otherwise it fails with nothing changed. |
| Ordering.Order.MarkAsDelivered | order-service/backend/src/main/java/be/kdg/sa/backend/domain/order/Order.java:230-235 | Only PICKED_UP becomes DELIVERED; otherwise it fails with nothing changed. |
| RestaurantOrders.EnsureStatus | backend/src/main/java/be/kdg/sa/backend/domain/restaurantOrder/RestaurantOrder.java:91-95 | The guard passes exactly when the status is the expected one. |
| RestaurantOrders.RunAdvances | backend/src/main/java/be/kdg/sa/backend/domain/restaurantOrder/RestaurantOrder.java:64-89 | Every successful step moves one place along PLACED → ACCEPTED → READY → PICKED_UP → DELIVERED (or to CANCELLED), so a run of n steps advances n places. |
| RestaurantOrders.Terminal | backend/src/main/java/be/kdg/sa/backend/domain/restaurantOrder/RestaurantOrder.java:64-95 | No step leaves CANCELLED or DELIVERED. |
| RestaurantOrders.DecisionDecides | backend/src/main/java/be/kdg/sa/backend/domain/restaurantOrder/RestaurantOrder.java:64-74 | From PLACED a run ends CANCELLED exactly when its first step is reject, and then it is that single step. |
| RestaurantOrders.RestaurantOrder.Reconstruct | backend/src/main/java/be/kdg/sa/backend/domain/restaurantOrder/RestaurantOrder.java:42-53 | reconstruct stores every field given. |
| RestaurantOrders.RestaurantOrder.Create | backend/src/main/java/be/kdg/sa/backend/domain/restaurantOrder/RestaurantOrder.java:55-62 | create starts PLACED with no decision reason, the new id and the creation time given. |
| RestaurantOrders.RestaurantOrder.Accept | backend/src/main/java/be/kdg/sa/backend/domain/restaurantOrder/RestaurantOrder.java:64-68 | Passes exactly from PLACED, then ACCEPTED with the reason; a wrong status leaves status and reason unchanged. |
| RestaurantOrders.RestaurantOrder.Reject | backend/src/main/java/be/kdg/sa/backend/domain/restaurantOrder/RestaurantOrder.java:70-74 | Passes exactly from PLACED, then CANCELLED with the reason; a wrong status leaves status and reason unchanged. |
| RestaurantOrders.RestaurantOrder.MarkReady | backend/src/main/java/be/kdg/sa/backend/domain/restaurantOrder/RestaurantOrder.java:76-79 | Passes exactly from ACCEPTED, then READY; otherwise unchanged; the reason is kept. |
| RestaurantOrders.RestaurantOrder.MarkPickedUp | backend/src/main/java/be/kdg/sa/backend/domain/restaurantOrder/RestaurantOrder.java:81-84 | Passes exactly from READY, then PICKED_UP; otherwise unchanged. |
| RestaurantOrders.RestaurantOrder.MarkDelivered | backend/src/main/java/be/kdg/sa/backend/domain/restaurantOrder/RestaurantOrder.java:86-89 | Passes exactly from PICKED_UP, then DELIVERED; otherwise unchanged. |
| Dishes.StatusChange | backend/src/main/java/be/kdg/sa/backend/domain/restaurant/dish/Dish.java:50-79 | A status change is allowed except CONCEPT → SOLD_OUT and SOLD_OUT → CONCEPT (a change to the same status is allowed and changes nothing); refusals are illegal-state errors. |
| Dishes.AppliedIdempotent | backend/src/main/java/be/kdg/sa/backend/domain/restaurant/dish/Dish.java:128-137 | Applying the same update twice gives the same details as applying it once. |
| Dishes.AppliedNothing | backend/src/main/java/be/kdg/sa/backend/domain/restaurant/dish/Dish.java:128-137 | An update with every field absent leaves the details as they were. |
| Dishes.AppliedTwice | backend/src/main/java/be/kdg/sa/backend/domain/restaurant/dish/Dish.java:128-137 | Applying u then v equals applying their merge in which v's present fields win, so only present fields overwrite. |
| Dishes.UpdateReady | backend/src/main/java/be/kdg/sa/backend/domain/restaurant/dish/Dish.java:114-116 | An update is ready exactly when one is pending with a scheduled time not after now; a pending update without a time makes the check fail (the source's null time). |
| Dishes.Dish.constructor | backend/src/main/java/be/kdg/sa/backend/domain/restaurant/dish/Dish.java:24-36 | A new dish holds the id and details given and no pending update. |
| Dishes.Dish.ChangeStatus | backend/src/main/java/be/kdg/sa/backend/domain/restaurant/dish/Dish.java:50-79 | The status becomes the new one exactly when the change is allowed; otherwise it fails with the dish unchanged. |
| Dishes.Dish.UpdateDetails | backend/src/main/java/be/kdg/sa/backend/domain/restaurant/dish/Dish.java:81-90 | Every detail field, status included, is overwritten and the pending update is kept. |
| Dishes.Dish.PromoteToAvailable | backend/src/main/java/be/kdg/sa/backend/domain/restaurant/dish/Dish.java:92-97 | Only a CONCEPT dish becomes AVAILABLE; otherwise it fails unchanged. |
| Dishes.Dish.DemoteToConcept | backend/src/main/java/be/kdg/sa/backend/domain/restaurant/dish/Dish.java:99-104 | Only an AVAILABLE dish becomes CONCEPT; otherwise it fails unchanged. |
| Dishes.Dish.ApplyUpdate | backend/src/main/java/be/kdg/sa/backend/domain/restaurant/dish/Dish.java:128-137 | The details become the old ones overwritten by the update's present fields. |
| Dishes.Dish.ScheduleOrApplyUpdate | backend/src/main/java/be/kdg/sa/backend/domain/restaurant/dish/Dish.java:106-112 | An update with no time or a time not after now is applied at once; a later one is stored as pending and the details are kept. |
| Dishes.Dish.ApplyPendingChanges | backend/src/main/java/be/kdg/sa/backend/domain/restaurant/dish/Dish.java:122-126 | Nothing changes unless a pending update is due; a due one is applied and cleared; a pending update without a scheduled time fails with nothing changed. |
| Dishes.Dish.ScheduleUpdate | backend/src/main/java/be/kdg/sa/backend/domain/restaurant/dish/Dish.java:139-141 | The pending update is replaced by the new one and the details are kept. |
| Dishes.Dish.IsUpdateReadyToApply | backend/src/main/java/be/kdg/sa/backend/domain/restaurant/dish/Dish.java:114-116 | True exactly when a pending update has a time not after now; throws exactly when the pending update has no time; false without a pending update. |
| Dishes.Dish.HasPendingChanges | backend/src/main/java/be/kdg/sa/backend/domain/restaurant/dish/Dish.java:118-120 | Without pending changes no update is ready at any time; with one, some time makes it ready or makes the check throw. |
| Dishes.ScheduledThenApplied | backend/src/main/java/be/kdg/sa/backend/domain/restaurant/dish/Dish.java:106-126 | Scheduling an update for later and applying it once due gives the same details as applying it at once, with nothing left pending. |
| Menus.SelectSpec | restaurant-service/backend/src/main/java/be/kdg/sa/backend/domain/restaurant/Menu.java:90-100 | The status filter keeps exactly the dishes with (or without) that status. |
| Menus.SelectPartition | restaurant-service/backend/src/main/java/be/kdg/sa/backend/domain/restaurant/Menu.java:90-106 | The dishes with a status and those without it together are the whole menu as a multiset; so the non-concept dishes are all dishes minus the concept ones. |
| Menus.ActiveAndConceptDisjoint | restaurant-service/backend/src/main/java/be/kdg/sa/backend/domain/restaurant/Menu.java:90-100 | No dish is both active and concept. |
| Menus.CountConcat | restaurant-service/backend/src/main/java/be/kdg/sa/backend/domain/restaurant/Menu.java:96-100 | The active (or any status) count of two lists together is the sum of their counts. |
| Menus.CountUpdate | restaurant-service/backend/src/main/java/be/kdg/sa/backend/domain/restaurant/Menu.java:74-84 | Replacing one dish changes a status count by exactly the new dish's contribution minus the old one's. |
| Menus.CountMoveToEnd | restaurant-service/backend/src/main/java/be/kdg/sa/backend/domain/restaurant/Menu.java:82-83 | Removing a dish and appending its replacement changes a status count by the same amount as replacing it in place. |
| Menus.FindIndex | restaurant-service/backend/src/main/java/be/kdg/sa/backend/domain/restaurant/Menu.java:108-113 | Returns the first dish with the id, or none exactly when no dish has it. |
| Menus.AddValueKeepsCap | restaurant-service/backend/src/main/java/be/kdg/sa/backend/domain/restaurant/Menu.java:30-35 | addDish keeps at most 10 active dishes, and a dish that is not AVAILABLE is always appended. |
| Menus.RemoveValuesSpec | restaurant-service/backend/src/main/java/be/kdg/sa/backend/domain/restaurant/Menu.java:38-42 | removeDish keeps exactly the dishes with another id, is the identity exactly when no dish has the id, and never raises the active count. |
| Menus.SwitchOneKeepsCap | restaurant-service/backend/src/main/java/be/kdg/sa/backend/domain/restaurant/Menu.java:44-71 | Promoting or demoting one dish never takes the menu past 10 active dishes. |
| Menus.SwitchAllKeepsCap | restaurant-service/backend/src/main/java/be/kdg/sa/backend/domain/restaurant/Menu.java:44-71 | Promoting or demoting a list of ids keeps at most 10 active dishes, even when it fails part-way. |
| Menus.UnknownIdThrows | restaurant-service/backend/src/main/java/be/kdg/sa/backend/domain/restaurant/Menu.java:44-71 | An unknown first id fails with "dish not found" before any dish changes. |
| Menus.PromoteRules | restaurant-service/backend/src/main/java/be/kdg/sa/backend/domain/restaurant/Menu.java:44-54 | A concept dish at the cap fails with "max active dishes reached"; a dish that is not a concept is skipped unchanged. |
| Menus.Published | restaurant-service/backend/src/main/java/be/kdg/sa/backend/domain/restaurant/Menu.java:56-62 | Promoting every concept dish keeps the menu's length. |
| Menus.PublishedCounts | restaurant-service/backend/src/main/java/be/kdg/sa/backend/domain/restaurant/Menu.java:56-62 | After publishing no concept dish remains and the active count is the old active count plus the old concept count. |
| Menus.PublishKeepsCap | restaurant-service/backend/src/main/java/be/kdg/sa/backend/domain/restaurant/Menu.java:56-62 | publishAllConceptDishes keeps at most 10 active dishes and, when it succeeds, leaves no concept dish. |
| Menus.UpdateWithItself | restaurant-service/backend/src/main/java/be/kdg/sa/backend/domain/restaurant/Menu.java:74-84 | Updating a menu with a dish it already holds, unchanged, succeeds and moves that dish to the end. |
| Menus.UpdateValueKeepsCap | restaurant-service/backend/src/main/java/be/kdg/sa/backend/domain/restaurant/Menu.java:74-84 | updateDish keeps at most 10 active dishes. |
| Menus.SumBounds | restaurant-service/backend/src/main/java/be/kdg/sa/backend/domain/restaurant/Menu.java:115-121 | The sum of n prices each in [lo, hi] lies between n·lo and n·hi. |
| Menus.AverageWithin | restaurant-service/backend/src/main/java/be/kdg/sa/backend/domain/restaurant/Menu.java:115-121 | The average price is 0 with no active dish, and otherwise lies between the lowest and highest active price. |
| Menus.MeanWithin | restaurant-service/backend/src/main/java/be/kdg/sa/backend/domain/restaurant/Menu.java:115-121 | The mean of a non-empty list of prices each in [lo, hi] lies in [lo, hi]. |
| Menus.NoActiveIsCheap | restaurant-service/backend/src/main/java/be/kdg/sa/backend/domain/restaurant/Menu.java:123-126 | A menu with no active dish shows the cheapest price indicator "€". |
| Menus.ViewsOfRemove | restaurant-service/backend/src/main/java/be/kdg/sa/backend/domain/restaurant/Menu.java:38-42 | Removing dish objects by id and then reading their values equals removing by id on the values. |
| Menus.MoveToEndUnaliased | restaurant-service/backend/src/main/java/be/kdg/sa/backend/domain/restaurant/Menu.java:82-83 | Moving a dish object to the end keeps the menu free of two references to one dish. |
| Menus.Menu.constructor | restaurant-service/backend/src/main/java/be/kdg/sa/backend/domain/restaurant/Menu.java:18-19 | A new menu is empty. |
| Menus.Menu.Reconstruct | restaurant-service/backend/src/main/java/be/kdg/sa/backend/domain/restaurant/Menu.java:21-27 | reconstruct holds exactly the dishes given. |
| Menus.Menu.AddDish | restaurant-service/backend/src/main/java/be/kdg/sa/backend/domain/restaurant/Menu.java:30-35 | An AVAILABLE dish at 10 active dishes is refused with the list unchanged; otherwise the dish object is appended; the cap is kept. |
| Menus.Menu.RemoveDish | restaurant-service/backend/src/main/java/be/kdg/sa/backend/domain/restaurant/Menu.java:38-42 | Every dish with the id is removed; an unknown id fails with the list unchanged; the cap is kept. |
| Menus.Menu.PromoteConceptsToActive | restaurant-service/backend/src/main/java/be/kdg/sa/backend/domain/restaurant/Menu.java:44-54 | The dishes end as the id-by-id promotion prescribes, failing at the first unknown id or at the cap with the earlier promotions kept; the cap is kept. |
| Menus.Menu.DemoteActiveToConcepts | restaurant-service/backend/src/main/java/be/kdg/sa/backend/domain/restaurant/Menu.java:64-71 | The dishes end as the id-by-id demotion prescribes, failing at the first unknown id with earlier demotions kept; the cap is kept. |
| Menus.Menu.SwitchDish | restaurant-service/backend/src/main/java/be/kdg/sa/backend/domain/restaurant/Menu.java:44-71 | One id: fails unchanged on an unknown id or a promotion at the cap, otherwise the dish is promoted or demoted as its status allows. |
| Menus.Menu.PublishAllConceptDishes | restaurant-service/backend/src/main/java/be/kdg/sa/backend/domain/restaurant/Menu.java:56-62 | Refused with nothing changed when active + concept > 10; otherwise every concept dish becomes AVAILABLE; the cap is kept. |
| Menus.Menu.UpdateDish | restaurant-service/backend/src/main/java/be/kdg/sa/backend/domain/restaurant/Menu.java:74-84 | An absent id fails unchanged; activating at the cap fails unchanged; otherwise the old dish object is removed and the new one appended; the cap is kept. |
| Menus.Menu.ConceptDishes | restaurant-service/backend/src/main/java/be/kdg/sa/backend/domain/restaurant/Menu.java:90-94 | Holds exactly the menu's CONCEPT dishes, as many as there are. |
| Menus.Menu.ActiveDishes | restaurant-service/backend/src/main/java/be/kdg/sa/backend/domain/restaurant/Menu.java:96-100 | Holds exactly the menu's AVAILABLE dishes, as many as are counted against the cap. |
| Menus.Menu.NonConceptDishes | restaurant-service/backend/src/main/java/be/kdg/sa/backend/domain/restaurant/Menu.java:102-106 | Holds exactly the dishes that are not CONCEPT; with the concept dishes it makes up the whole menu as a multiset. |
| Menus.Menu.CalculateAveragePrice | restaurant-service/backend/src/main/java/be/kdg/sa/backend/domain/restaurant/Menu.java:115-121 | 0 with no AVAILABLE dish; otherwise lies between the prices of two AVAILABLE dishes. |
| Menus.Menu.GetPriceIndicator | restaurant-service/backend/src/main/java/be/kdg/sa/backend/domain/restaurant/Menu.java:123-126 | The symbol of the price tier of the average price; a menu with no AVAILABLE dish shows the cheapest symbol. |
| Restaurants.EditedStatus | backend/src/main/java/be/kdg/sa/backend/domain/restaurant/Restaurant.java:70-96 | Editing a dish's details or status keeps its id and gives it the status the edit asks for. |
| Restaurants.AsWrittenBreaksCapAt | backend/src/main/java/be/kdg/sa/backend/domain/restaurant/Restaurant.java:70-96 | With 10 active dishes, re-activating a non-active dish through changeDish or changeDishStatus as written succeeds and leaves 11 active dishes, while the corrected version refuses it with nothing changed. |
| Restaurants.CappedMenuShape | backend/src/main/java/be/kdg/sa/backend/domain/restaurant/Restaurant.java:70-96 | The example menu has 10 AVAILABLE dishes and one SOLD_OUT dish with id 10. |
| Restaurants.AsWrittenBreaksCap | backend/src/main/java/be/kdg/sa/backend/domain/restaurant/Restaurant.java:91-96 | On that menu, restocking the SOLD_OUT dish through changeDishStatus as written succeeds and leaves 11 active dishes. |
| Restaurants.AsWrittenBreaksCapByDetails | backend/src/main/java/be/kdg/sa/backend/domain/restaurant/Restaurant.java:70-77 | On that menu, changeDish with AVAILABLE details as written succeeds and leaves 11 active dishes. |
| Restaurants.ChangeCheckedKeepsCap | backend/src/main/java/be/kdg/sa/backend/domain/restaurant/Restaurant.java:70-96 | The corrected changeDish and changeDishStatus keep at most 10 active dishes. |
| Restaurants.ChangeCheckedRefinesAsWritten | backend/src/main/java/be/kdg/sa/backend/domain/restaurant/Restaurant.java:70-96 | The corrected version differs from the code as written only by refusing, with nothing changed, an activation at the cap. |
| Restaurants.ChangeUnfolds | backend/src/main/java/be/kdg/sa/backend/domain/restaurant/Restaurant.java:70-96 | As written, a found dish is edited first and updateDish then sees the edited dish in place; the corrected version checks the cap against the status before the edit. |
| Restaurants.OpenNowCases | backend/src/main/java/be/kdg/sa/backend/domain/restaurant/Restaurant.java:113-126 | No hours and no override means closed; an override with no end or an end after now decides; an expired override is cleared and the hours decide, by day of week and time of day. |
| Restaurants.OpenNowStable | backend/src/main/java/be/kdg/sa/backend/domain/restaurant/Restaurant.java:113-126 | Clearing an expired override does not change the answer, and clearing twice is clearing once. |
| Restaurants.EditDish | backend/src/main/java/be/kdg/sa/backend/domain/restaurant/dish/Dish.java:50-90 | The dish becomes the edit's result or, on a refused status change, stays as it was. |
| Restaurants.EditOnMenu | backend/src/main/java/be/kdg/sa/backend/domain/restaurant/Restaurant.java:70-96 | Editing the k-th menu dish in place changes exactly that dish's value on the menu, or nothing when the edit is refused. |
| Restaurants.Restaurant.Reconstruct | backend/src/main/java/be/kdg/sa/backend/domain/restaurant/Restaurant.java:39-49 | Every field is stored and a null menu is replaced by a new empty one, so the menu is never null. |
| Restaurants.Restaurant.Create | backend/src/main/java/be/kdg/sa/backend/domain/restaurant/Restaurant.java:51-55 | A missing owner is refused; otherwise a restaurant with a fresh id, the owner and an empty menu is built. |
| Restaurants.Restaurant.AddDish | backend/src/main/java/be/kdg/sa/backend/domain/restaurant/Restaurant.java:63-68 | The new dish is built with the id and details given and handed to the menu's addDish, which keeps the cap. |
| Restaurants.Restaurant.GetDish | backend/src/main/java/be/kdg/sa/backend/domain/restaurant/Restaurant.java:102-107 | Returns the first menu dish with the id; an unknown id fails with "Dish not found". |
| Restaurants.Restaurant.Change | backend/src/main/java/be/kdg/sa/backend/domain/restaurant/Restaurant.java:70-96 | The menu ends as the corrected or the as-written edit prescribes, as chosen, and stays free of aliases. |
| Restaurants.Restaurant.EditThenUpdate | backend/src/main/java/be/kdg/sa/backend/domain/restaurant/Restaurant.java:74-76 | Editing the found dish object in place and then calling updateDish with it gives the as-written effect. |
| Restaurants.Restaurant.ChangeDishAsWritten | backend/src/main/java/be/kdg/sa/backend/domain/restaurant/Restaurant.java:70-77 | The menu ends as changeDish as written leaves it (dish edited in place, then updateDish comparing it with itself). |
| Restaurants.Restaurant.ChangeDish | backend/src/main/java/be/kdg/sa/backend/domain/restaurant/Restaurant.java:70-77 | Corrected changeDish: an unknown id fails; activating at the cap fails with nothing changed; the cap is kept. |
| Restaurants.Restaurant.ChangeDishStatusAsWritten | backend/src/main/java/be/kdg/sa/backend/domain/restaurant/Restaurant.java:91-96 | The menu ends as changeDishStatus as written leaves it. |
| Restaurants.Restaurant.ChangeDishStatus | backend/src/main/java/be/kdg/sa/backend/domain/restaurant/Restaurant.java:91-96 | Corrected changeDishStatus: refused status changes and activations at the cap change nothing; the cap is kept. |
| Restaurants.Restaurant.RemoveDish | backend/src/main/java/be/kdg/sa/backend/domain/restaurant/Restaurant.java:98-100 | Delegates to the menu: every dish with the id goes, an unknown id fails, the cap is kept. |
| Restaurants.Restaurant.IsCurrentlyOpen | backend/src/main/java/be/kdg/sa/backend/domain/restaurant/Restaurant.java:113-126 | Answers the open check at the time given and clears an expired override; nothing else changes. |
| Restaurants.Restaurant.OverrideOpeningManually | backend/src/main/java/be/kdg/sa/backend/domain/restaurant/Restaurant.java:128-131 | Sets exactly the override flag and its end time. |
| Restaurants.Restaurant.UpdateOpeningHours | backend/src/main/java/be/kdg/sa/backend/domain/restaurant/Restaurant.java:133-135 | Replaces the opening hours and keeps the override. |
| Restaurants.Restaurant.PublishAllConceptDishes | backend/src/main/java/be/kdg/sa/backend/domain/restaurant/Restaurant.java:137-139 | Delegates to the menu: refused above the cap, otherwise every concept dish becomes AVAILABLE; the cap is kept. |
| Opening.AnyPeriod | restaurant-service/backend/src/main/java/be/kdg/sa/backend/domain/restaurant/openingHours/OpeningHours.java:16 | True exactly when some period covers the time, both ends included. |
| Opening.AnyDay | restaurant-service/backend/src/main/java/be/kdg/sa/backend/domain/restaurant/openingHours/OpeningHours.java:13-16 | True exactly when some entry for that day has a period covering the time. |
| Opening.IsOpenAtSpec | restaurant-service/backend/src/main/java/be/kdg/sa/backend/domain/restaurant/openingHours/OpeningHours.java:12-17 | isOpenAt holds exactly when some period listed under that day satisfies open ≤ time ≤ close. |
| Opening.EndpointsInclusive | restaurant-service/backend/src/main/java/be/kdg/sa/backend/domain/restaurant/openingHours/OpeningHours.java:16 | The opening and closing instants of a period both count as open. |
| Opening.OtherDaysNeverCount | restaurant-service/backend/src/main/java/be/kdg/sa/backend/domain/restaurant/openingHours/OpeningHours.java:14 | Adding an entry for another day never changes the answer. |
| Opening.NoPeriodsMeansClosed | restaurant-service/backend/src/main/java/be/kdg/sa/backend/domain/restaurant/openingHours/OpeningHours.java:13-16 | A day whose entries have no periods is closed at every time. |
| PriceTiers.FromBands | restaurant-service/backend/src/main/java/be/kdg/sa/backend/domain/restaurant/PriceTier.java:4-22 | A price ≤ 10 is CHEAP, ≤ 30 MODERATE, ≤ 60 EXPENSIVE, above that LUXURY. |
| PriceTiers.SymbolBands | restaurant-service/backend/src/main/java/be/kdg/sa/backend/domain/restaurant/PriceTier.java:4-26 | The symbols are "€", "€€", "€€€" and "€€€€" for those bands. |
| PriceTiers.FromMonotone | restaurant-service/backend/src/main/java/be/kdg/sa/backend/domain/restaurant/PriceTier.java:17-22 | A higher price never gives a lower tier. |
| PriceTiers.FromIsFirstFit | restaurant-service/backend/src/main/java/be/kdg/sa/backend/domain/restaurant/PriceTier.java:17-22 | from returns a tier, the first in declaration order whose maximum is at least the price, LUXURY otherwise. |
| Deliveries.HappyPath | delivery-service/backend/src/main/java/be/kdg/sa/backend/domain/delivery/Delivery.java:46-94 | createNew, claim, ready, start and complete deliver with the driver, both times and the payout recorded; ready may come before or after claim. |
| Deliveries.OutOfOrderRefused | delivery-service/backend/src/main/java/be/kdg/sa/backend/domain/delivery/Delivery.java:56-80 | Starting before the order is ready, claiming twice and completing before starting are each refused with their own error. |
| Deliveries.CreateNewConsistent | delivery-service/backend/src/main/java/be/kdg/sa/backend/domain/delivery/Delivery.java:46-48 | A new delivery is OPEN/ACCEPTED with no driver, times or price, which is consistent. |
| Deliveries.StepKeepsConsistent | delivery-service/backend/src/main/java/be/kdg/sa/backend/domain/delivery/Delivery.java:56-94 | Every step keeps a delivery consistent (a claimed one has a driver, one in progress is picked up with a pickup time, a delivered one has both times and a price). |
| Deliveries.RunKeepsConsistent | delivery-service/backend/src/main/java/be/kdg/sa/backend/domain/delivery/Delivery.java:46-94 | Any run of steps from a consistent delivery ends consistent. |
| Deliveries.CompletableHasPickupTime | delivery-service/backend/src/main/java/be/kdg/sa/backend/domain/delivery/Delivery.java:72-80 | A consistent delivery that complete accepts has a pickup time, and complete succeeds on it exactly when the payout is present. |
| Deliveries.StepFrame | delivery-service/backend/src/main/java/be/kdg/sa/backend/domain/delivery/Delivery.java:56-94 | No step changes the order id or addresses; only claim sets the driver, only start the pickup time, only complete the delivery time and price. |
| Deliveries.CancelKeepsDriver | delivery-service/backend/src/main/java/be/kdg/sa/backend/domain/delivery/Delivery.java:82-87 | cancel is refused exactly when the order is READY; otherwise only the status changes, to OPEN, and the driver is kept. |
| Deliveries.CancelledAfterPickupIsStuck | delivery-service/backend/src/main/java/be/kdg/sa/backend/domain/delivery/Delivery.java:64-94 | A delivery cancelled after pickup is OPEN with its order picked up, and claim, start, complete and markAsReady all refuse it. |
| Deliveries.Delivery.Reconstruct | delivery-service/backend/src/main/java/be/kdg/sa/backend/domain/delivery/Delivery.java:50-54 | reconstruct holds every field given, the price included. |
| Deliveries.Delivery.CreateNewDelivery | delivery-service/backend/src/main/java/be/kdg/sa/backend/domain/delivery/Delivery.java:46-48 | createNew gives OPEN/ACCEPTED with the addresses given and no driver, times or price. |
| Deliveries.Delivery.Perform | delivery-service/backend/src/main/java/be/kdg/sa/backend/domain/delivery/Delivery.java:56-94 | The delivery ends as the step prescribes, or unchanged with the step's error. |
| Deliveries.Delivery.Claim | delivery-service/backend/src/main/java/be/kdg/sa/backend/domain/delivery/Delivery.java:56-62 | Only OPEN with order ACCEPTED or READY becomes CLAIMED with the driver; otherwise unchanged. |
| Deliveries.Delivery.Start | delivery-service/backend/src/main/java/be/kdg/sa/backend/domain/delivery/Delivery.java:64-70 | Only CLAIMED with order READY becomes IN_PROGRESS/PICKED_UP with the pickup time; otherwise unchanged. |
| Deliveries.Delivery.Complete | delivery-service/backend/src/main/java/be/kdg/sa/backend/domain/delivery/Delivery.java:72-80 | Only IN_PROGRESS/PICKED_UP with a payout becomes DELIVERED/DELIVERED with delivery time and price; otherwise unchanged with the matching error. |
| Deliveries.Delivery.Cancel | delivery-service/backend/src/main/java/be/kdg/sa/backend/domain/delivery/Delivery.java:82-87 | Refused once the order is READY; otherwise the status becomes OPEN. |
| Deliveries.Delivery.MarkAsReady | delivery-service/backend/src/main/java/be/kdg/sa/backend/domain/delivery/Delivery.java:89-94 | Only order status ACCEPTED becomes READY; otherwise unchanged. |
| Drivers.GuardsOpposite | delivery-service/backend/src/main/java/be/kdg/sa/backend/domain/driver/Driver.java:42-74 | The complete guard passes exactly when the claim guard fails; the claim guard passes exactly when assigning succeeds, and the complete guard exactly when releasing succeeds. |
| Drivers.AssignReleaseRoundTrip | delivery-service/backend/src/main/java/be/kdg/sa/backend/domain/driver/Driver.java:46-62 | Assigning a free driver then releasing leaves no active delivery; assigning an active driver fails. |
| Drivers.Driver.constructor | delivery-service/backend/src/main/java/be/kdg/sa/backend/domain/driver/Driver.java:24-32 | Stores every field given. |
| Drivers.Driver.MarkAsAssigned | delivery-service/backend/src/main/java/be/kdg/sa/backend/domain/driver/Driver.java:46-50 | A free driver gets the delivery; an active one fails keeping the old id. |
| Drivers.Driver.CompleteDelivery | delivery-service/backend/src/main/java/be/kdg/sa/backend/domain/driver/Driver.java:52-56 | Succeeds exactly when a delivery is active; afterwards none is active. |
| Drivers.Driver.MarkDeliveryCancelled | delivery-service/backend/src/main/java/be/kdg/sa/backend/domain/driver/Driver.java:58-62 | Succeeds exactly when a delivery is active; afterwards none is active. |
| Drivers.Driver.EnsureCanCompleteDelivery | delivery-service/backend/src/main/java/be/kdg/sa/backend/domain/driver/Driver.java:64-68 | Passes exactly when a delivery is active. |
| Drivers.Driver.EnsureCanClaimDelivery | delivery-service/backend/src/main/java/be/kdg/sa/backend/domain/driver/Driver.java:70-74 | Passes exactly when no delivery is active. |
| Drivers.Driver.HasActiveDelivery | delivery-service/backend/src/main/java/be/kdg/sa/backend/domain/driver/Driver.java:42-44 | True exactly when the complete guard passes, and exactly when the claim guard throws. |
| Payouts.NewCalculator | backend/src/main/java/be/kdg/sa/backend/domain/payment/PayoutCalculator.java:10-15 | A missing base fee or per-minute rate is refused, base fee checked first; otherwise the four values are stored. |
| Payouts.MinutesIsCeiling | backend/src/main/java/be/kdg/sa/backend/domain/payment/PayoutCalculator.java:23-24 | The billed minutes are the seconds rounded up to whole minutes. |
| Payouts.ClampBounds | backend/src/main/java/be/kdg/sa/backend/domain/payment/PayoutCalculator.java:25-26 | The minutes are clamped into [min, max], untouched when already inside, and max wins when min > max. |
| Payouts.CalculateForSpec | backend/src/main/java/be/kdg/sa/backend/domain/payment/PayoutCalculator.java:17-29 | Fails exactly when a time is missing or delivery precedes pickup; otherwise the result is in whole cents and the least such amount not below base + rate × minutes. |
| Payouts.DefaultPays | backend/src/main/java/be/kdg/sa/backend/domain/payment/PayoutCalculator.java:17-29 | With base 3.00, rate 0.30 and bounds 5–30, the payout is 3.00 + 0.30 × the billed minutes. |
| Payouts.DefaultExamples | backend/src/main/java/be/kdg/sa/backend/domain/payment/PayoutCalculator.java:17-29 | 15 minutes pays 7.50, 2 minutes 4.50 (minimum 5), 2 hours 12.00 (maximum 30), and 841 seconds is billed as 15 minutes. |
| Payouts.PayoutBounds | backend/src/main/java/be/kdg/sa/backend/domain/payment/PayoutCalculator.java:25-29 | The payout lies between base + rate × min and base + rate × max rounded up to cents. |
| Payouts.TimesMonotone | backend/src/main/java/be/kdg/sa/backend/domain/payment/PayoutCalculator.java:28 | With a non-negative rate, more minutes never pay less. |
| Payouts.CeilCentsMonotone | backend/src/main/java/be/kdg/sa/backend/domain/payment/PayoutCalculator.java:29 | Rounding up to cents never reverses the order of two amounts. |
| Payouts.PayoutMonotone | backend/src/main/java/be/kdg/sa/backend/domain/payment/PayoutCalculator.java:23-29 | A later delivery time never pays less. |
| Common.CeilCents | backend/src/main/java/be/kdg/sa/backend/domain/payment/PayoutCalculator.java:29 | Rounding up to cents gives whole cents, not below the amount and less than a cent above it. |
| Common.CeilCentsOfCents | backend/src/main/java/be/kdg/sa/backend/domain/payment/PayoutCalculator.java:29 | An amount already in whole cents is left as it is. |
| Common.CeilCentsIdempotent | backend/src/main/java/be/kdg/sa/backend/domain/payment/PayoutCalculator.java:29 | Rounding up to cents twice is rounding once. |
| Common.TimesIsProduct | order-service/backend/src/main/java/be/kdg/sa/backend/domain/order/OrderLine.java:41-43 | The line total (unit price repeated quantity times) is unit price × quantity. |
| DriverServices.ClaimDelivery | delivery-service/backend/src/main/java/be/kdg/sa/backend/application/services/driver/DriverService.java:57-68 | An active driver is refused before the delivery is touched; otherwise the delivery is claimed as Delivery.claim prescribes and, on success, the driver holds it. |
| DriverServices.StartDelivery | delivery-service/backend/src/main/java/be/kdg/sa/backend/application/services/driver/DriverService.java:70-83 | A driver without an active delivery is refused; otherwise the delivery starts as prescribed and a PICKED_UP status event is published exactly on success. |
| DriverServices.CancelDelivery | delivery-service/backend/src/main/java/be/kdg/sa/backend/application/services/driver/DriverService.java:85-97 | A driver without an active delivery is refused; otherwise the delivery is cancelled as prescribed and the driver released only on success; the delivery's driver is kept. |
| DriverServices.CompleteDelivery | delivery-service/backend/src/main/java/be/kdg/sa/backend/application/services/driver/DriverService.java:99-125 | Refused with nothing changed without an active delivery or without a pickup time; otherwise the payout for pickup to now is computed (its failure changes nothing), the delivery is completed with it and, on success, the driver is released; the payout and a DELIVERED event are returned exactly on success. |
| DriverServices.TotalIsCents | delivery-service/backend/src/main/java/be/kdg/sa/backend/application/services/driver/DriverService.java:133-146 | The running total is always in whole cents. |
| DriverServices.TotalMonotone | delivery-service/backend/src/main/java/be/kdg/sa/backend/application/services/driver/DriverService.java:133-146 | With non-negative prices the running total never decreases along the list. |
| DriverServices.CompletedDeliveriesForDriver | delivery-service/backend/src/main/java/be/kdg/sa/backend/application/services/driver/DriverService.java:127-150 | One item per delivery in order, each with its rounded payout (a missing price counting 0) and the running total up to and including it; the response total is the last running total, 0 for no deliveries. |
| Addresses.TrimStartDrops | restaurant-service/backend/src/main/java/be/kdg/sa/backend/domain/Address.java:14-21 | Trimming the start drops exactly a leading run of blanks and leaves a non-blank first character. |
| Addresses.TrimEndDrops | restaurant-service/backend/src/main/java/be/kdg/sa/backend/domain/Address.java:14-21 | Trimming the end drops exactly a trailing run of blanks and leaves a non-blank last character. |
| Addresses.TrimIsSlice | restaurant-service/backend/src/main/java/be/kdg/sa/backend/domain/Address.java:14-21 | A trimmed string is a slice of the original with only blanks cut off either end, and has no blank at either end. |
| Addresses.TrimIdempotent | restaurant-service/backend/src/main/java/be/kdg/sa/backend/domain/Address.java:14-21 | Trimming twice is trimming once. |
| Addresses.TrimmedIsFixed | restaurant-service/backend/src/main/java/be/kdg/sa/backend/domain/Address.java:14-21 | A string without blanks at its ends is left as it is. |
| Addresses.TrimAllBlank | restaurant-service/backend/src/main/java/be/kdg/sa/backend/domain/Address.java:15-20 | A whitespace-only string trims to "". |
| Addresses.TrimFieldSpec | restaurant-service/backend/src/main/java/be/kdg/sa/backend/domain/Address.java:15-20 | A null field stays null, a present one is trimmed, a whitespace-only one becomes "", and trimming a field is idempotent. |
| Addresses.NewAddressNormalises | restaurant-service/backend/src/main/java/be/kdg/sa/backend/domain/Address.java:14-21 | The record's constructor trims every present field, keeps null fields null and turns a whitespace-only field into "". |
| Addresses.RebuildNormalised | restaurant-service/backend/src/main/java/be/kdg/sa/backend/domain/Address.java:14-21 | Rebuilding an address whose fields are already trimmed gives the same address. |
| Addresses.RebuildIdempotent | restaurant-service/backend/src/main/java/be/kdg/sa/backend/domain/Address.java:14-21 | Rebuilding an address built by the constructor gives an equal record. |
| JpaAddresses.JpaAddressEntity.constructor | delivery-service/backend/src/main/java/be/kdg/sa/backend/infrastructure/db/repositories/JpaAddressEntity.java:42-51 | Stores the id and the six columns given. |
| JpaAddresses.JpaAddressEntity.FromDomain | delivery-service/backend/src/main/java/be/kdg/sa/backend/infrastructure/db/repositories/JpaAddressEntity.java:53-66 | A null address gives null; otherwise a fresh entity with the new id and the address's six fields. |
| JpaAddresses.JpaAddressEntity.UpdateAddress | delivery-service/backend/src/main/java/be/kdg/sa/backend/infrastructure/db/repositories/JpaAddressEntity.java:68-76 | Overwrites all six columns and keeps the id. |
| JpaAddresses.JpaAddressEntity.ToDomain | delivery-service/backend/src/main/java/be/kdg/sa/backend/infrastructure/db/repositories/JpaAddressEntity.java:78-87 | Builds the address through the record's constructor, so it is trimmed, and equals the columns when they are already trimmed. |
| JpaAddresses.JpaAddressEntity.UpdateFromDomain | delivery-service/backend/src/main/java/be/kdg/sa/backend/infrastructure/db/repositories/JpaAddressEntity.java:89-98 | A null address fails with "Address is required" and changes nothing; otherwise all six columns are overwritten. |
| JpaAddresses.RoundTripOfBuilt | delivery-service/backend/src/main/java/be/kdg/sa/backend/infrastructure/db/repositories/JpaAddressEntity.java:53-87 | Reading back an entity holding a constructor-built address gives that address. |
| JpaDeliveries.JpaDeliveryEntity.constructor | delivery-service/backend/src/main/java/be/kdg/sa/backend/infrastructure/db/repositories/deliveryRepository/jpa/JpaDeliveryEntity.java:50-72 | Stores every column given. |
| JpaDeliveries.JpaDeliveryEntity.FromDomain | delivery-service/backend/src/main/java/be/kdg/sa/backend/infrastructure/db/repositories/deliveryRepository/jpa/JpaDeliveryEntity.java:74-88 | A null delivery gives null; otherwise every field is copied, a missing order id is replaced by the fresh one, each present address becomes a new address entity and a missing one null. |
| JpaDeliveries.JpaDeliveryEntity.UpdateFromDomain | delivery-service/backend/src/main/java/be/kdg/sa/backend/infrastructure/db/repositories/deliveryRepository/jpa/JpaDeliveryEntity.java:90-117 | A null delivery changes nothing; otherwise status, times, price and driver are overwritten (driver cleared when absent), the order id kept, a present address written into the existing entity in place or a new one, and a missing address leaves the entity's as it was. |
| JpaDeliveries.JpaDeliveryEntity.ToDomain | delivery-service/backend/src/main/java/be/kdg/sa/backend/infrastructure/db/repositories/deliveryRepository/jpa/JpaDeliveryEntity.java:119-135 | Rebuilds the delivery with the stored order id, null addresses and driver mapping to none and present addresses rebuilt trimmed. |
| JpaDeliveries.RoundTrip | delivery-service/backend/src/main/java/be/kdg/sa/backend/infrastructure/db/repositories/deliveryRepository/jpa/JpaDeliveryEntity.java:74-135 | Storing a delivery with an order id and trimmed addresses and reading it back gives the same delivery. |
| JpaDeliveries.UpdateThenRead | delivery-service/backend/src/main/java/be/kdg/sa/backend/infrastructure/db/repositories/deliveryRepository/jpa/JpaDeliveryEntity.java:90-135 | Updating an entity from a delivery with both addresses and reading it back gives that delivery under the entity's own order id. |
| JpaMenus.DishRoundTrip | restaurant-service/backend/src/main/java/be/kdg/sa/backend/infrastructure/db/repositories/menuRepository/jpa/JpaDishEntity.java:99-150 | Storing a dish and loading it gives it back exactly when its pending update, if any, has a scheduled time. |
| JpaMenus.AtWithout | restaurant-service/backend/src/main/java/be/kdg/sa/backend/infrastructure/db/repositories/menuRepository/jpa/JpaMenuEntity.java:72-74 | Dropping the unmatched ids removes exactly those rows. |
| JpaMenus.SyncLoopAt | restaurant-service/backend/src/main/java/be/kdg/sa/backend/infrastructure/db/repositories/menuRepository/jpa/JpaMenuEntity.java:61-69 | After the loop an id stays unmatched exactly when it was unmatched and no menu dish has it; its row is then the stored first menu dish if one has it and it was unmatched or had no row, and otherwise is untouched. |
| JpaMenus.SyncAt | restaurant-service/backend/src/main/java/be/kdg/sa/backend/infrastructure/db/repositories/menuRepository/jpa/JpaMenuEntity.java:55-75 | After the sync the row found for an id holds the stored form of the first menu dish with that id, and an id not on the menu has no row. |
| JpaMenus.RowsOfRemoveAll | restaurant-service/backend/src/main/java/be/kdg/sa/backend/infrastructure/db/repositories/menuRepository/jpa/JpaMenuEntity.java:72-74 | Removing the entities of the unmatched ids gives exactly the rows without those ids, and only removes. |
| JpaMenus.SyncKeepsUnique | restaurant-service/backend/src/main/java/be/kdg/sa/backend/infrastructure/db/repositories/menuRepository/jpa/JpaMenuEntity.java:58-75 | The sync keeps one row per dish id. |
| JpaMenus.SyncTwice | restaurant-service/backend/src/main/java/be/kdg/sa/backend/infrastructure/db/repositories/menuRepository/jpa/JpaMenuEntity.java:55-75 | Syncing the same menu a second time finds the same row for every id as syncing once. |
| JpaMenus.LoadAll | restaurant-service/backend/src/main/java/be/kdg/sa/backend/infrastructure/db/repositories/menuRepository/jpa/JpaMenuEntity.java:51-53 | toDomain rebuilds one dish per stored row. |
| JpaMenus.FirstOfLoadAll | restaurant-service/backend/src/main/java/be/kdg/sa/backend/infrastructure/db/repositories/menuRepository/jpa/JpaMenuEntity.java:51-53 | Loading the rows finds, for an id, the loaded form of its row, or nothing when it has none. |
| JpaMenus.SyncThenLoad | restaurant-service/backend/src/main/java/be/kdg/sa/backend/infrastructure/db/repositories/menuRepository/jpa/JpaMenuEntity.java:51-75 | When every pending update has a scheduled time, syncing a menu and loading it back finds, for each id, the same dish as the menu does. |
| JpaMenus.JpaDishEntity.FromDomain | restaurant-service/backend/src/main/java/be/kdg/sa/backend/infrastructure/db/repositories/menuRepository/jpa/JpaDishEntity.java:99-126 | A fresh row holding the dish's stored form. |
| JpaMenus.JpaDishEntity.UpdateFromDomain | restaurant-service/backend/src/main/java/be/kdg/sa/backend/infrastructure/db/repositories/menuRepository/jpa/JpaDishEntity.java:152-187 | A null dish changes nothing; otherwise the row takes the dish's stored form and keeps its id. |
| JpaMenus.JpaMenuEntity.constructor | restaurant-service/backend/src/main/java/be/kdg/sa/backend/infrastructure/db/repositories/menuRepository/jpa/JpaMenuEntity.java:38-40 | A new menu entity has the id given and no dish rows. |
| JpaMenus.JpaMenuEntity.FromDomain | restaurant-service/backend/src/main/java/be/kdg/sa/backend/infrastructure/db/repositories/menuRepository/jpa/JpaMenuEntity.java:42-49 | A fresh entity under the new id whose rows are those an empty table gets from syncing with the menu, all of them fresh. |
| JpaMenus.JpaMenuEntity.SyncDish | restaurant-service/backend/src/main/java/be/kdg/sa/backend/infrastructure/db/repositories/menuRepository/jpa/JpaMenuEntity.java:61-69 | One loop step: a dish whose id is still unmatched is updated in place and its id removed from the map; otherwise a new row is added. |
| JpaMenus.JpaMenuEntity.UpdateFromDomain | restaurant-service/backend/src/main/java/be/kdg/sa/backend/infrastructure/db/repositories/menuRepository/jpa/JpaMenuEntity.java:55-75 | A null menu changes nothing; otherwise the rows become the sync of the old rows with the menu's dishes; every entity whose id the menu still has stays in the set, updated in place rather than re-created, and every other entity in the set is either an old one or fresh. |
| JpaMenus.JpaMenuEntity.DropUnmatched | restaurant-service/backend/src/main/java/be/kdg/sa/backend/infrastructure/db/repositories/menuRepository/jpa/JpaMenuEntity.java:71-74 | The rows whose ids were never matched are removed; every other entity stays and no entity is added. |
| JpaMenus.JpaMenuEntity.SyncAll | restaurant-service/backend/src/main/java/be/kdg/sa/backend/infrastructure/db/repositories/menuRepository/jpa/JpaMenuEntity.java:61-69 | The loop over the menu's dishes leaves the rows and the unmatched ids as the step-by-step sync prescribes, keeps every old entity and adds only fresh ones. |
| JpaMenus.CurrentOf | restaurant-service/backend/src/main/java/be/kdg/sa/backend/infrastructure/db/repositories/menuRepository/jpa/JpaMenuEntity.java:58-59 | The map from id to row covers exactly the stored ids, each mapped to its own row. |
| JpaMenus.UpdateInPlace | restaurant-service/backend/src/main/java/be/kdg/sa/backend/infrastructure/db/repositories/menuRepository/jpa/JpaMenuEntity.java:63-65 | Updating an existing row in place replaces exactly that row's stored form. |
| OrderStore.Broadcast | order-service/frontend/src/service/orderServices.ts:83-85 | One notification per subscriber, in registration order, each carrying the order. |
| OrderStore.SetCurrent | order-service/frontend/src/service/orderServices.ts:66-70 | The order becomes current, its id is saved and every subscriber is notified of it. |
| OrderStore.Reset | order-service/frontend/src/service/orderServices.ts:72-76 | No order is current, no id is saved and every subscriber is notified of none. |
| OrderStore.Subscribe | order-service/frontend/src/service/orderServices.ts:78-81 | The subscriber is added last and called once at once with the current order. |
| OrderStore.WithLines | order-service/frontend/src/service/orderServices.ts:26-28 | An order without lines gets an empty list; one with lines is unchanged; nothing else changes. |
| OrderStore.GetOrCreate | order-service/frontend/src/service/orderServices.ts:7-31 | A CART in memory is returned without a request; otherwise the order acquired is current with that id and either a CART or a created one; when none is acquired the store is unchanged and creation gave nothing; subscribers never change. |
| OrderStore.EnsureCurrent | order-service/frontend/src/service/orderServices.ts:33-45 | An order in memory is returned without a request; without a saved id nothing is requested or changed; otherwise the order returned is the one made current, or the store is unchanged. |
| OrderStore.Store.constructor | order-service/frontend/src/service/orderServices.ts:4-5 | The store starts with no current order, no subscribers, no calls and the saved id given. |
| OrderStore.Store.NotifySubscribers | order-service/frontend/src/service/orderServices.ts:83-85 | Calls every subscriber with the current order, in registration order, and changes nothing else. |
| OrderStore.Store.SetCurrentOrder | order-service/frontend/src/service/orderServices.ts:66-70 | The store becomes SetCurrent of the old store. |
| OrderStore.Store.ResetCurrentOrder | order-service/frontend/src/service/orderServices.ts:72-76 | The store becomes Reset of the old store. |
| OrderStore.Store.SubscribeOrder | order-service/frontend/src/service/orderServices.ts:78-81 | The store becomes Subscribe of the old store. |
| OrderStore.Store.GetOrCreateOrder | order-service/frontend/src/service/orderServices.ts:7-31 | The new store, the id returned and the requests made are those GetOrCreate prescribes. |
| OrderStore.Store.EnsureCurrentOrder | order-service/frontend/src/service/orderServices.ts:33-45 | The new store, the order returned and the requests made are those EnsureCurrent prescribes. |
| OrderStore.GetOrCreateSettles | order-service/frontend/src/service/orderServices.ts:7-31 | Once a CART has been acquired, calling again returns the same id with no request and no change. |
| OrderStore.GetOrCreateRequests | order-service/frontend/src/service/orderServices.ts:12-30 | Without a CART in memory: an order is created exactly when the saved id does not lead to a CART; the saved id is fetched first; without one only a create is made; a created order is current with lines defaulted, its id saved and every subscriber notified. |
| OrderStore.LastCallIsCurrent | order-service/frontend/src/service/orderServices.ts:66-85 | After setting an order every registered subscriber has been notified of it, and a subscriber added afterwards is called with it at once. |
| OrderStore.ResetThenCreate | order-service/frontend/src/service/orderServices.ts:7-31 | After a reset, getting an order creates one, returns its id and saves it. |
| OrderStore.ErrorKeys | order-service/frontend/src/service/orderServices.ts:47-60 | Each of the seven fields has an entry in the errors object exactly when its check fails, and no other key appears. |
| OrderStore.ValidateOrderDtoSpec | order-service/frontend/src/service/orderServices.ts:47-60 | The form is valid exactly when there are no errors, exactly when every field check passes; each of the seven fields has its error exactly when its check fails; no other keys appear. |
| OrderStore.PostalCodeIsNumeral | order-service/frontend/src/service/orderServices.ts:56-57 | A postal code passes exactly when it is the decimal numeral of a number from 1000 to 9999. |
| OrderStore.NumeralOfValue | order-service/frontend/src/service/orderServices.ts:56-57 | A valid postal code is the numeral of its own value, which lies in 1000–9999. |
| OrderStore.NameAndPostalCodeErrorsTogether | order-service/frontend/src/service/orderServices.ts:47-60 | An empty name and the postal code "0123" are both reported, and nothing else. |
| OrderTracking.ProgressWidthSpec | frontend/src/pages/OrderTracking.ts:82-94 | The width stays within 0–100, grows strictly along the happy path from 0 to 100, is 0 for CANCELLED and REJECTED, and is 100 exactly for DELIVERED. |
| OrderTracking.TickDecision | frontend/src/pages/OrderTracking.ts:176-191 | A failed fetch writes nothing; the fetched order is written exactly when no order is current or its status differs; the poll stops exactly when the written status is DELIVERED, CANCELLED or REJECTED. |
| OrderTracking.PollWritesChanges | frontend/src/pages/OrderTracking.ts:176-191 | Over any run of ticks each write changes the status, only the last write can be final and there are no more writes than ticks. |
| OrderTracking.PollSameOrder | frontend/src/pages/OrderTracking.ts:180 | Polling an order whose status never changes writes it once at most, and only if the store held none or another status. |
| OrderTracking.PollSkipsQuietTicks | frontend/src/pages/OrderTracking.ts:176-191 | Failed ticks and ticks with the held status can be dropped from a run without changing its writes. |
| OrderTracking.FinalAtLoadKeepsPolling | frontend/src/pages/OrderTracking.ts:180-186 | An order already final in the store is never written again, so the poll never stops on it. |
| OrderTracking.SubscriberRenders | frontend/src/pages/OrderTracking.ts:195-197 | The page renders only orders with the tracked id, at most one per notification, and every notification of the tracked order is rendered. |
| OrderTracking.TrackingPage.constructor | frontend/src/pages/OrderTracking.ts:9-13 | A page without an order id returns before the interval is set, so it never polls; a page with an id starts polling; nothing is rendered yet. |
| OrderTracking.TrackingPage.OnTick | frontend/src/pages/OrderTracking.ts:176-191 | The tick's decision is taken from the store's current order; a write sets the store's order (notifying subscribers), renders it and stops the poll when final; anything else changes nothing. |
| OrderTracking.TrackingPage.Unload | frontend/src/pages/OrderTracking.ts:193 | Leaving the page stops the poll. |
| Router.FirstIndex | order-service/frontend/src/router.ts:17 | The first position of the character. |
| Router.Split | order-service/frontend/src/router.ts:21-22 | Splitting on '/' gives at least one part and no part contains '/'. |
| Router.JoinSplit | order-service/frontend/src/router.ts:21-22 | Joining the parts with '/' gives the path back. |
| Router.SplitJoin | order-service/frontend/src/router.ts:21-22 | Splitting slash-free parts joined with '/' gives the parts back. |
| Router.Compile | order-service/frontend/src/router.ts:17-20 | A segment's first ':' with at least one character after it starts a parameter named by the rest of the segment; without one the segment is literal. |
| Router.Pattern | order-service/frontend/src/router.ts:17-21 | One compiled segment per '/'-separated part of the template. |
| Router.PatternSlashFree | order-service/frontend/src/router.ts:17-20 | No compiled prefix contains '/', so each parameter stands for exactly one segment. |
| Router.MatchPartsSound | order-service/frontend/src/router.ts:21-25 | A match captures one non-empty slash-free value per parameter, and filling them back in gives the path's parts. |
| Router.MatchPartsComplete | order-service/frontend/src/router.ts:21-25 | Any non-empty slash-free values filled into the pattern are matched and captured back, in order. |
| Router.CapturesSpec | order-service/frontend/src/router.ts:17-25 | A template matches the whole path exactly when the path is the template with non-empty slash-free values for its parameters, and the captures are those values. |
| Router.FillSlashFree | order-service/frontend/src/router.ts:17-22 | Filling slash-free values into a template gives slash-free segments. |
| Router.LiteralTemplate | order-service/frontend/src/router.ts:21-22 | A template without parameters matches exactly the identical path. |
| Router.NoParamsFill | order-service/frontend/src/router.ts:17-22 | A parameter-free pattern fills back to its own parts. |
| Router.ParamsOfSpec | order-service/frontend/src/router.ts:24-25 | The params map has exactly the parameter names as keys, each name mapping to its capture at its last position. |
| Router.FirstMatching | order-service/frontend/src/router.ts:15-29 | Returns the first route whose template matches, or none exactly when none matches. |
| Router.FirstMatchingAt | order-service/frontend/src/router.ts:15-29 | A match at position i after no match before it is the first match. |
| Router.CheckoutPathRoute | order-service/frontend/src/router.ts:6-30 | Every path "/order/checkout/<id>" with a non-empty slash-free id goes to the checkout route (position 3), capturing the id; the tracking route "/order/:id" never matches such a path, because it has three segments against the path's four and a parameter cannot take in a '/'. |
| Router.CheckoutExample | order-service/frontend/src/router.ts:6-30 | The path "/order/checkout/x" is routed to the checkout page, not to order tracking. |
| Router.BuildParams | order-service/frontend/src/router.ts:24-25 | The loop builds the params map positionally from names and captures. |
| Router.MatchRoute | order-service/frontend/src/router.ts:14-30 | Returns the first matching route, in declaration order, with its params; null exactly when no route matches. |
| Router.Navigate | order-service/frontend/src/router.ts:32-45 | The page of the first matching route with its params, and the restaurants page when none matches. |

## Left out

- Controllers, REST and messaging adapters, repositories and transactions are not part of this model. Services are modelled only where they hold domain logic (DriverService). Repository lookups become parameters, and events published to the message broker become returned values.
- The clock is a parameter. Where the source reads `LocalDateTime.now()` several times in one operation (`DriverService.completeDelivery` and the `Delivery.complete` it calls, and `Restaurant.isCurrentlyOpen`), the model uses one instant.
- Restaurants.Restaurant.IsCurrentlyOpen: reads the clock once, whereas the source reads it three times (for the override's expiry, the day of the week and the time of day); around midnight the source can pair one day with the time of another instant, which the model does not capture.
- Money is an exact `real`. The model covers neither the rounding and NaN of `double` (average price, client totals) nor the scale of `BigDecimal` beyond rounding up to cents.
- Java `int` and `long` overflow is not modelled: quantities, minutes and counts are unbounded integers.
- Enum types are declared with the constants the core uses. Their `valueOf` failures on unknown strings are not modelled, except `equalsIgnoreCase` on the catalogue status (`Ordering.IsAvailableLabel`).
- Restaurant `rename`, `changeCuisineType`, `updateLogo` and `isOwnedBy` are one-line setters and a one-line comparison. They are not modelled.
- DriverServices.CompleteDelivery: the payout service it calls is taken to be `PayoutCalculator.calculateFor` with a calculator passed in. The service's configuration is not modelled.
- DriverService `registerDriver` and the plain lookup methods only read or save through repositories. They are not modelled.
- JPA back-references (dish to menu, menu to restaurant) and the lazy-loading proxies are not modelled.
- Menus.Menu: the model requires that no dish object appears twice in one menu (`Distinct`). The source's list does not enforce this; the model assumes it of every menu it is given.
- JpaMenus.JpaMenuEntity.UpdateFromDomain: one row per dish id is required (`UniqueIds`). This is what `Collectors.toMap` needs to avoid its duplicate-key exception; that exception is not modelled.
- JpaMenus.DishRoundTrip: a dish's pending update without a scheduled time is not restored by the mapping. The lemma states this as its exact condition rather than as a plain round trip.
- Router: templates are assumed free of regular-expression metacharacters other than the `:name` parameters. Matching is modelled segment by segment, which is what the anchored pattern `^…$` with `([^/]+)` groups amounts to in that case.
- OrderStore and OrderTracking: subscribers are ids, not callbacks. A notification is recorded as a call. The DOM rendering itself is not modelled, and neither are `undefined` DTO fields or `localStorage` beyond the saved id.
- OrderStore and OrderTracking: interleaving of asynchronous calls is not modelled. Each `await` is taken to complete before the next call starts.
- OrderTracking.ProgressWidthSpec: widths are percentages as reals, not CSS strings.
- The tracking page's poll stops only when a fetched status that differs from the stored one is final. An order that is already final in the store keeps being polled until the page unloads; the model keeps this behaviour (`OrderTracking.FinalAtLoadKeepsPolling`).
- Cancelling a delivery after pickup is accepted and puts the delivery back to OPEN with its order PICKED_UP. No step accepts such a delivery afterwards. The model keeps this behaviour (`Deliveries.CancelledAfterPickupIsStuck`) rather than correcting it, since which correction was intended is not evident.
- The message of the NullPointerException that `isUpdateReadyToApply` throws for a pending update without a time is generated by the JVM; the model records the exception with an empty message (`Dishes.NoMessage`).

## Findings

| source | as written | input that shows it | evidently intended | confidence | as-written member | corrected member |
|---|---|---|---|---|---|---|
| backend/src/main/java/be/kdg/sa/backend/domain/restaurant/Restaurant.java:70-96 | `changeDish` and `changeDishStatus` change the dish found on the menu in place, then call `Menu.updateDish` with that same object. updateDish compares the dish's "old" status with the new one, so it always sees them equal. The ten-active-dish check never fires. | A menu with ten AVAILABLE dishes and one SOLD_OUT dish (id 10); `changeDishStatus(10, AVAILABLE)` succeeds and leaves eleven active dishes (`Restaurants.AsWrittenBreaksCap`). | The cap is checked against the dish's status before the edit, so that activation at the cap is refused, as `Menu.addDish` and `promoteConceptsToActive` do. | not executed | Restaurants.Restaurant.ChangeDishStatusAsWritten | Restaurants.Restaurant.ChangeDishStatus |
