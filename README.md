# ZalandoLite order core in Dafny

A model of the order workflow of ZalandoLite, a small Java e-commerce back end:
placing orders against an inventory, the per-customer order history and the
revenue, average and highest-value reports over it. It also models the customer
and review registries, the two discount rules and the discount manager that
chains them, and the courier assignment of the delivery service.

Layout, one module per file:

- `Wrappers`: `Option` (for Java's nullable values) and `Outcome` (for the
  `IllegalArgumentException` paths).
- `Histories`: lists kept per integer key, read with an empty default and
  appended to at the end; the order store and the review store are both such maps.
- `Products`: products and order lines (`Product`, `OrderItem`); a line's subtotal.
- `Customers`: the `Customer` class with its process-wide id counter, and the
  fields reflection sees on a customer.
- `CustomerRegistry`: `CustomerManager`, an id-to-customer map.
- `Reviews`: the review value and `ReviewManager`, a product-id-to-review-list map.
- `Orders`: the `Order` class and its total.
- `Inventory`: the stock table the order workflow consults.
- `OrderStock`: the stock check and stock commit of order placement, stated on a
  stock table.
- `OrderAggregates`: the order histories as values, and revenue, order count
  and average over them.
- `OrderManagement`: the `OrderManager` class.
- `Discounts`: the Shoes rule, the VIP rule and chaining rules.
- `DiscountManagement`: the fixed category-then-VIP computation of `DiscountManager`.
- `Deliveries`: couriers, deliveries and `DeliveryService`.

Modelling choices:

- Java objects whose fields change in place are Dafny classes with `modifies`
  frames. Prices and totals are exact reals, and stock and ids are unbounded integers.
- Each mutating method is specified against a pure function, for example
  `Commit`, `Recorded`, `Total`, `Revenue` or `Select`.
  The properties are then proved about those functions.
- A clock read becomes a timestamp parameter `now`.
- The static customer counter becomes an `IdCounter` object passed to the
  constructor.
- A reflective field walk becomes a list of `Field` records. Each record has a
  name, a flag for whether `@VIP` is present, and the value: a Boolean or
  anything else.

The order manager builds an order with `new Order(customer, items)`. The
`Order` class has no such constructor, since its only constructor also takes an
order id. So the model's manager assigns order ids itself: 1, 2, ... per
manager, one per placed order.

The per-line stock check reads the table before anything is decremented. Two
lines for the same product are each checked against the full stock. Their sum
is not. The model proves that stock stays non-negative when the line product
ids are distinct (`CommitNonNegativeWhenDistinct`). It also exhibits a
two-line order that the check admits and that drives the stock to -1
(`RepeatedIdDrivesStockNegative`). The committed stock is what the code
computes: repeated lines accumulate.

`Customer.isVip` is meant to carry `@VIP`, but in the class as written it does
not. So both reflective VIP checks always answer false for real customers. The
model keeps the annotation as a flag: `DiscountManagement.VipAnnotatedAsShipped`
is false, and `DiscountManagement.CustomerPrices` states both readings.

## Model

| member | source | states |
|---|---|---|
| Products.Subtotal | src/main/java/com/zalando/lite/Order.java:99 | a line's subtotal is non-negative for non-negative price and quantity, and a quantity of 1 costs the price |
| Customers.IdCounter.constructor | src/main/java/com/zalando/lite/Customer.java:37 | the global customer counter starts at 100 |
| Customers.Customer.constructor | src/main/java/com/zalando/lite/Customer.java:43-47 | a new customer takes the counter's current value as id and the counter goes up by exactly one; name and email are stored, the customer is not VIP and has no favourite categories |
| Customers.Customer.SetId | src/main/java/com/zalando/lite/Customer.java:55-57 | sets the id, leaves the other fields and the counter alone |
| Customers.Customer.SetName | src/main/java/com/zalando/lite/Customer.java:65-67 | sets the name only |
| Customers.Customer.SetEmail | src/main/java/com/zalando/lite/Customer.java:75-77 | sets the email only |
| Customers.Customer.SetVip | src/main/java/com/zalando/lite/Customer.java:85-87 | sets the VIP flag only, so reading it back yields the value set |
| Customers.Customer.SetFavoriteCategories | src/main/java/com/zalando/lite/Customer.java:95-97 | sets the favourite categories only |
| Customers.Customer.DeclaredFields | src/main/java/com/zalando/lite/Customer.java:21-37 | reflection sees six fields; only `isVip` can carry `@VIP` and hold a Boolean |
| Customers.CustomersInSequence | src/main/java/com/zalando/lite/Customer.java:37-57 | customers built in sequence get 100, 101, 102; `setId` on one does not disturb the counter |
| CustomerRegistry.CustomerManager.constructor | src/main/java/com/zalando/lite/CustomerManager.java:25-27 | a new registry is empty |
| CustomerRegistry.CustomerManager.RegisterCustomer | src/main/java/com/zalando/lite/CustomerManager.java:35-39 | null leaves the store unchanged; otherwise the customer is stored under its id, replacing any earlier one |
| CustomerRegistry.CustomerManager.GetCustomerById | src/main/java/com/zalando/lite/CustomerManager.java:47-53 | returns the stored customer, or null for an unregistered id |
| CustomerRegistry.CustomerManager.GetAllCustomers | src/main/java/com/zalando/lite/CustomerManager.java:61-63 | returns a map equal to the store (a value copy, so later changes to it cannot reach the store) |
| CustomerRegistry.RegisterThenLookup | src/test/java/com/zalando/lite/CustomerManagerTest.java:45-60 | after registering c, looking up c's id returns c, and lookups of every other id are unchanged |
| CustomerRegistry.LookupInEmptyStore | src/test/java/com/zalando/lite/CustomerManagerTest.java:64-70 | looking up any id in a fresh registry returns null |
| Reviews.WithReviewsAppends | src/main/java/com/zalando/lite/ReviewManager.java:40-52 | adding a sequence of reviews appends exactly the ones about each product, in order, to that product's list |
| Reviews.SameProductReviewsInOrder | src/main/java/com/zalando/lite/ReviewManager.java:45-51 | n reviews of one product added to an empty store come back as exactly those n, in insertion order |
| Reviews.ReviewManager.constructor | src/main/java/com/zalando/lite/ReviewManager.java:30-32 | a new manager has an empty list for every product |
| Reviews.ReviewManager.AddReview | src/main/java/com/zalando/lite/ReviewManager.java:40-52 | the store becomes `Recorded` of the old store under the review's product id |
| Reviews.ReviewManager.GetReviewsForProduct | src/main/java/com/zalando/lite/ReviewManager.java:60-64 | returns the product's list, or the empty list, and changes nothing |
| Reviews.ThreeReviewsOfOneProduct | src/test/java/com/zalando/lite/ReviewManagerTest.java:59-85 | three reviews of one product come back as three, in insertion order; an unreviewed product gets an empty list |
| Orders.TotalAppend | src/main/java/com/zalando/lite/Order.java:96-102 | appending a line raises the total by exactly that line's subtotal |
| Orders.TotalNonNegative | src/main/java/com/zalando/lite/Order.java:96-102 | with non-negative prices and quantities the total is non-negative |
| Orders.TotalExamples | src/test/java/com/zalando/lite/OrderManagerTest.java:44-59 | no lines total 0; 19.99 x 2 totals 39.98; adding 14.99 x 1 totals 54.97 |
| Orders.Order.constructor | src/main/java/com/zalando/lite/Order.java:42-47 | stores the id, customer, items and the supplied date |
| Orders.Order.SetOrderId | src/main/java/com/zalando/lite/Order.java:56-58 | sets the id only |
| Orders.Order.SetCustomer | src/main/java/com/zalando/lite/Order.java:66-68 | sets the customer only |
| Orders.Order.SetItems | src/main/java/com/zalando/lite/Order.java:76-78 | sets the items only |
| Orders.Order.SetOrderDate | src/main/java/com/zalando/lite/Order.java:86-88 | sets the date only |
| Orders.Order.CalculateTotal | src/main/java/com/zalando/lite/Order.java:96-102 | the accumulator loop returns the sum of the line subtotals |
| Inventory.InventoryManager.ReduceStock | src/main/java/com/zalando/lite/OrderManager.java:105 | lowers one registered product's stock by the quantity, unchecked, and touches no other product |
| OrderStock.Commit | src/main/java/com/zalando/lite/OrderManager.java:101-107 | committing an order keeps the set of registered products |
| OrderStock.CommitSubtracts | src/main/java/com/zalando/lite/OrderManager.java:101-107 | after the commit each product's stock is its old stock minus the total quantity its lines request (repeated lines accumulate); unordered products keep their stock |
| OrderStock.CommitNonNegativeIff | src/main/java/com/zalando/lite/OrderManager.java:84-107 | the committed stock is non-negative exactly when every product's stock covers the total quantity requested of it |
| OrderStock.CommitNonNegativeWhenDistinct | src/main/java/com/zalando/lite/OrderManager.java:84-107 | with distinct product ids, an order that passes the per-line check leaves every stock non-negative |
| OrderStock.RepeatedIdDrivesStockNegative | src/main/java/com/zalando/lite/OrderManager.java:84-107 | two lines of 3 units against a stock of 5 both pass the per-line check, and the commit leaves -1 |
| Histories.History | src/main/java/com/zalando/lite/OrderManager.java:74-76 | a key with no entry reads as the empty list: a customer with no orders, likewise a product with no reviews |
| Histories.Recorded | src/main/java/com/zalando/lite/OrderManager.java:61-63 | recording an order appends it to its customer's history, creating the entry on the first order, and leaves every other history unchanged; the review store appends the same way |
| OrderAggregates.SumOverRemove | src/main/java/com/zalando/lite/OrderManager.java:114-124 | a sum over the customer map may take any customer first, so it does not depend on the map's iteration order |
| OrderAggregates.NoOrdersIffCountZero | src/main/java/com/zalando/lite/OrderManager.java:131-141 | the order count is non-negative, and zero exactly when every history is empty |
| OrderAggregates.RecordedAggregates | src/main/java/com/zalando/lite/OrderManager.java:114-141 | recording an order raises the revenue by its total and the order count by one |
| OrderAggregates.EmptyAggregates | src/main/java/com/zalando/lite/OrderManager.java:114-141 | with no histories the revenue and the order count are 0 |
| OrderAggregates.TwoOrderAggregates | src/main/java/com/zalando/lite/OrderManager.java:114-141 | one customer with two orders: revenue is the sum of the two totals and the count is 2 |
| OrderAggregates.AverageExample | src/main/java/com/zalando/lite/OrderManager.java:131-141 | no orders average 0; orders of 39.98 and 14.99 average 27.485 |
| OrderManagement.ItemViewRecorded | src/main/java/com/zalando/lite/OrderManager.java:61-63 | appending an order to a history and then reading item lists is appending that order's item list |
| OrderManagement.SumOfTotals | src/main/java/com/zalando/lite/OrderManager.java:118-120 | the inner revenue loop returns the sum of the totals of one customer's orders |
| OrderManagement.OrderManager.constructor | src/main/java/com/zalando/lite/OrderManager.java:28-36 | a new manager has no orders and uses the given inventory |
| OrderManagement.OrderManager.CreateOrder | src/main/java/com/zalando/lite/OrderManager.java:47-66 | returns null exactly when some line is unregistered or asks for more than its product's stock, and then nothing changes; otherwise the stock becomes `Commit` of the old stock, and a fresh order with the next id, the customer, the lines and the date is appended to that customer's history |
| OrderManagement.OrderManager.ValidateStock | src/main/java/com/zalando/lite/OrderManager.java:84-94 | true exactly when every line names a registered product with at least the requested stock |
| OrderManagement.OrderManager.UpdateInventory | src/main/java/com/zalando/lite/OrderManager.java:101-107 | the stock becomes `Commit` of the old stock |
| OrderManagement.OrderManager.GetOrdersForCustomer | src/main/java/com/zalando/lite/OrderManager.java:74-76 | returns the customer's history, empty for an unknown customer, without changing the map |
| OrderManagement.OrderManager.GetTotalRevenue | src/main/java/com/zalando/lite/OrderManager.java:114-124 | the nested loop returns the sum of all stored orders' totals |
| OrderManagement.OrderManager.GetAverageOrderValue | src/main/java/com/zalando/lite/OrderManager.java:131-141 | returns 0 with no stored orders, otherwise revenue divided by the order count |
| OrderManagement.OrderManager.GetHighestValueOrder | src/main/java/com/zalando/lite/OrderManager.java:148-166 | null exactly when no order is stored; otherwise a stored order whose total is at least every stored order's total |
| OrderManagement.RevenueFollowsOrders | src/main/java/com/zalando/lite/OrderManager.java:47-66 | a placed order raises the reported revenue by its total and the order count by one |
| OrderManagement.PlacementScenarios | src/test/java/com/zalando/lite/OrderManagerTest.java:61-110 | ordering 3 of 5 units leaves 2; 1 unit of a product with 0 stock is refused; two placed orders give a history of two |
| Discounts.DiscountedCategoryExamples | src/main/java/com/zalando/lite/CategoryDiscount.java:9-13 | "Shoes" in any letter case qualifies; a missing category and other categories do not |
| Discounts.IsVip | src/main/java/com/zalando/lite/VipDiscount.java:18-33 | true exactly when some `@VIP`-annotated field holds Boolean true; false when no field is annotated and false when no field holds a Boolean |
| Discounts.VipReadings | src/main/java/com/zalando/lite/VipDiscount.java:18-33 | with `@VIP` on `isVip` the check reads the flag; without it the check is false for every customer |
| Discounts.Discount.Apply | src/main/java/com/zalando/lite/CategoryDiscount.java:7-14 | a rule (the Shoes rule here, the VIP rule of VipDiscount.java likewise) either returns the price or multiplies it by its factor, and never raises or negates a non-negative price |
| Discounts.ApplyMeaning | src/main/java/com/zalando/lite/VipDiscount.java:10-15 | a rule multiplies by its factor (0.80 for Shoes, 0.90 for VIP) exactly when its condition holds; the Shoes rule ignores the customer and the VIP rule ignores the product |
| Discounts.Pipeline | src/main/java/com/zalando/lite/DiscountManager.java:32-44 | chaining rules never raises or negates a non-negative price |
| Discounts.PipelineConcat | src/main/java/com/zalando/lite/DiscountManager.java:32-44 | chaining two rule lists one after the other is chaining their concatenation |
| Discounts.RulesCommute | src/main/java/com/zalando/lite/DiscountManager.java:35-41 | with exact prices, category-then-VIP equals VIP-then-category |
| DiscountManagement.IsCategoryDiscounted | src/main/java/com/zalando/lite/DiscountManager.java:80-83 | the manager's category test is the Shoes rule's condition |
| DiscountManagement.IsVipUsingReflection | src/main/java/com/zalando/lite/DiscountManager.java:54-72 | the field loop with early return is true exactly when some `@VIP` field holds Boolean true, the same answer as the VIP rule's check |
| DiscountManagement.ApplyDiscount | src/main/java/com/zalando/lite/DiscountManager.java:32-44 | the price is the VIP rule applied to the Shoes rule's result on the product's own price |
| DiscountManagement.DiscountedPriceCases | src/main/java/com/zalando/lite/DiscountManager.java:32-44 | Shoes for a VIP costs 0.72 x price, Shoes alone 0.80 x, VIP alone 0.90 x, neither the price |
| DiscountManagement.HundredExamples | src/main/java/com/zalando/lite/DiscountManager.java:35-43 | at 100.00: 72.00, 90.00, 80.00 and 100.00 |
| DiscountManagement.CustomerPrices | src/main/java/com/zalando/lite/Customer.java:30-32 | with the class as written nobody gets the VIP discount; with the annotation, a VIP customer pays 0.90 x the category price |
| Deliveries.FirstAvailable | src/main/java/com/zalando/lite/DeliveryService.java:41-47 | the position found is the first available courier, and there is none exactly when no courier is available |
| Deliveries.Select | src/main/java/com/zalando/lite/DeliveryService.java:75-83 | the filtered list is as long as the number of set flags |
| Deliveries.SelectMembers | src/main/java/com/zalando/lite/DeliveryService.java:75-83 | an element is in the filtered list exactly when it stands at some position whose flag is set |
| Deliveries.CountAfterTaking | src/main/java/com/zalando/lite/DeliveryService.java:40-48 | making one available courier busy lowers the available count by exactly one |
| Deliveries.TakingOne | src/main/java/com/zalando/lite/DeliveryService.java:41-45 | when one courier goes busy and no courier is listed twice, only that position's flag changes |
| Deliveries.DeliveryService.constructor | src/main/java/com/zalando/lite/DeliveryService.java:27-29 | a new service has no couriers |
| Deliveries.DeliveryService.AssignCourier | src/main/java/com/zalando/lite/DeliveryService.java:40-48 | null exactly when no courier is available, and then nothing changes; otherwise the first available courier gets the order and goes busy, no other courier changes, and (with no courier listed twice) the available count drops by one |
| Deliveries.DeliveryService.GetAvailableCouriers | src/main/java/com/zalando/lite/DeliveryService.java:75-83 | returns the available couriers in list order and changes nothing |
| Deliveries.DeliveryService.UpdateDeliveryStatus | src/main/java/com/zalando/lite/DeliveryService.java:58-66 | a null delivery, or a null or empty status, is rejected with the source's message and changes nothing; otherwise the status becomes the new one |
| Deliveries.FreshServiceAssignsNobody | src/main/java/com/zalando/lite/DeliveryService.java:27-48 | a service built with the no-argument constructor assigns nobody |
| Deliveries.IdleCourierTakesOrder | src/main/java/com/zalando/lite/DeliveryService.java:40-48 | with a busy courier listed before an idle one, the idle one gets the order and becomes busy |

## Left out

- Console and file I/O: the command-line menu, `printReviewsForProduct`, and the "not found" message of `getCustomerById` (which only prints) are not modelled.
- Clock reads: `Order`'s constructor and `createOrder` each read the clock. The model takes one timestamp `now` for both.
- Floating point: prices are exact reals. `calculateTotal`, the revenue sum and the discount multiplications round in Java, and the model does not capture that rounding.
- Discounts.RulesCommute: holds for exact reals only. With doubles the two orders can differ in the last bit.
- Reflection mechanics (`setAccessible`, `IllegalAccessException`, the stack trace) are not modelled. The walk is over a given field list.
- HashMap iteration order: revenue and average are proved independent of it. `GetHighestValueOrder` states "some order of greatest total", not which of several equal ones a real HashMap would return first.
- Lists stored or returned by reference: `getOrdersForCustomer` and `getReviewsForProduct` return the stored list objects; the `Order` constructor and `setItems` keep the caller's item list (so a caller changing it later changes that order's total and the reported revenue); `setFavoriteCategories` keeps the caller's list; `addReview` appends in place to a list a caller may already hold. The model passes and stores these lists as values, so such sharing is not captured. (`getAllCustomers` returns a copy in the source too, which the model's map value matches.)
- Letter case: `equalsIgnoreCase` is modelled for ASCII letters only. Unicode case folding is not modelled.
- Integer width: the customer counter and stock are Java `int`. The model does not wrap at 2^31.
- OrderManagement.OrderManager.CreateOrder: a null customer (a `NullPointerException` after the stock is already committed) is not modelled; the customer is non-null by type.
- DiscountManagement.ApplyDiscount, Discounts.Discount.Apply, Reviews.ReviewManager.AddReview: a null customer or product (`DiscountManager.java` lines 33 and 55, `CategoryDiscount.java` line 9, `VipDiscount.java` line 19) or a null review (`ReviewManager.java` line 42) makes the source throw `NullPointerException`; the model's parameter types are non-null, so these inputs cannot be passed and the exception is not modelled.
- OrderManagement.OrderManager.CreateOrder: the revenue and order-count effect of one call is stated in `RevenueFollowsOrders`, not in the method's own contract.
- `InventoryManager`, `Product`, `OrderItem`, `Courier` and `Delivery` are not part of this model beyond the stock table, the value fields, the availability flag and the delivery's order, courier and status that the core uses.
- Deliveries.Delivery.constructor: the initial status of a delivery is left unconstrained.
- `Review` validation and `ReportManager` are not modelled.
- Getters are plain field reads.
- Concurrency: the code has no synchronisation, and none is modelled.
