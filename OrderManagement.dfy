/** The order workflow (OrderManager.java): validate every line against the
    inventory, commit the decrements, build the order, record it under its
    customer; plus the read side over the recorded orders.

    Order ids: the source calls an `Order` constructor without an id that the
    `Order` class does not have. Here the manager numbers orders itself,
    sequentially from 1, one id per successful order. */
module OrderManagement {
  import opened Histories
  import opened Products
  import opened Customers
  import opened Orders
  import opened Inventory
  import opened OrderStock
  import opened OrderAggregates

  /** The id the first order of a manager receives. */
  const FirstOrderId: int := 1

  /** The item lists of a list of orders, in the same order. */
  ghost function ItemLists(orders: seq<Order>): (lists: seq<seq<OrderItem>>)
    reads orders
    ensures |lists| == |orders|
    ensures forall i | 0 <= i < |orders| :: lists[i] == orders[i].items
  {
    if orders == [] then [] else [orders[0].items] + ItemLists(orders[1..])
  }

  /** Every order recorded under some customer of `m`. */
  ghost function OrdersIn(m: map<int, seq<Order>>): (orders: set<Order>)
    ensures forall c, o | c in m && o in m[c] :: o in orders
  {
    set c, o | c in m && o in m[c] :: o
  }

  /** Histories of orders as the aggregates see them: per customer, the item
      lists of their orders in placement order. */
  ghost function ItemView(m: map<int, seq<Order>>): (h: map<int, seq<seq<OrderItem>>>)
    reads OrdersIn(m)
    ensures h.Keys == m.Keys
    ensures forall c | c in m :: h[c] == ItemLists(m[c])
  {
    map c | c in m :: ItemLists(m[c])
  }

  /** Recording an order and then viewing the histories is recording its
      item list in the viewed histories. */
  lemma ItemViewRecorded(m: map<int, seq<Order>>, customerId: int, order: Order)
    ensures ItemView(Recorded(m, customerId, order)) == Recorded(ItemView(m), customerId, order.items)
  {
    var m' := Recorded(m, customerId, order);
    forall c | c in m'
      ensures ItemView(m')[c] == Recorded(ItemView(m), customerId, order.items)[c]
    {
      if c == customerId {
        var old_ := History(m, c);
        assert forall i | 0 <= i < |old_| :: old_[i] in m[c];
        assert m'[c] == old_ + [order];
      } else {
        assert forall i | 0 <= i < |m[c]| :: m[c][i] in m[c];
      }
    }
  }

  /** The inner loop of the revenue report: the sum of the totals of one
      customer's orders. */
  method SumOfTotals(orders: seq<Order>) returns (sum: real)
    ensures sum == SumTotals(ItemLists(orders))
  {
    ghost var lists := ItemLists(orders);
    sum := 0.0;
    var i := 0;
    while i < |orders|
      invariant 0 <= i <= |orders|
      invariant sum == SumTotals(lists[..i])
    {
      var total := orders[i].CalculateTotal();
      assert lists[..i + 1][..i] == lists[..i];
      sum := sum + total;
      i := i + 1;
    }
    assert lists[..i] == lists;
  }

  class OrderManager {
    var customerOrders: map<int, seq<Order>>
    const inventoryManager: InventoryManager
    var nextOrderId: int

    constructor (inventoryManager: InventoryManager)
      ensures this.inventoryManager == inventoryManager
      ensures customerOrders == map[] && nextOrderId == FirstOrderId
    {
      this.inventoryManager := inventoryManager;
      customerOrders := map[];
      nextOrderId := FirstOrderId;
    }

    /** Every order recorded under some customer. */
    ghost function StoredOrders(): (stored: set<Order>)
      reads this
      ensures forall c, o | c in customerOrders && o in customerOrders[c] :: o in stored
    {
      OrdersIn(customerOrders)
    }

    /** The recorded orders as the aggregates see them: per customer, the
        item lists of their orders in placement order. */
    ghost function Snapshot(): (h: map<int, seq<seq<OrderItem>>>)
      reads this, StoredOrders()
      ensures h.Keys == customerOrders.Keys
    {
      ItemView(customerOrders)
    }

    /** Places an order. If some line names an unregistered product or asks
        for more than that product's current stock, nothing changes and the
        result is null. Otherwise every line's product stock is decremented,
        in line order, and a new order with the next id, the customer, the
        lines and the date `now` is appended to the customer's history. */
    method CreateOrder(customer: Customer, items: seq<OrderItem>, now: int) returns (order: Order?)
      modifies this, inventoryManager
      ensures order == null <==> !AllInStock(old(inventoryManager.stock), items)
      ensures order == null ==>
        && inventoryManager.stock == old(inventoryManager.stock)
        && customerOrders == old(customerOrders)
        && nextOrderId == old(nextOrderId)
      ensures order != null ==>
        && fresh(order)
        && order.orderId == old(nextOrderId) && order.customer == customer
        && order.items == items && order.orderDate == now
        && inventoryManager.stock == Commit(old(inventoryManager.stock), items)
        && customerOrders == Recorded(old(customerOrders), customer.id, order)
        && nextOrderId == old(nextOrderId) + 1
    {
      var ok := ValidateStock(items);
      if !ok {
        return null;
      }
      UpdateInventory(items);
      order := new Order(nextOrderId, customer, items, now);
      order.SetOrderDate(now);
      nextOrderId := nextOrderId + 1;
      var customerId := customer.id;
      if customerId !in customerOrders {
        customerOrders := customerOrders[customerId := []];
      }
      customerOrders := customerOrders[customerId := customerOrders[customerId] + [order]];
    }

    /** Whether every line passes the per-line stock check; stops at the first
        line that fails. */
    method ValidateStock(items: seq<OrderItem>) returns (ok: bool)
      ensures ok == AllInStock(inventoryManager.stock, items)
    {
      var i := 0;
      while i < |items|
        invariant 0 <= i <= |items|
        invariant forall j | 0 <= j < i :: ItemInStock(inventoryManager.stock, items[j])
      {
        var id := items[i].product.id;
        if !inventoryManager.IsProductAvailable(id) || inventoryManager.StockOf(id) < items[i].quantity {
          return false;
        }
        i := i + 1;
      }
      return true;
    }

    /** Decrements each line's product stock by the line's quantity, in line
        order. */
    method UpdateInventory(items: seq<OrderItem>)
      requires AllRegistered(inventoryManager.stock, items)
      modifies inventoryManager
      ensures inventoryManager.stock == Commit(old(inventoryManager.stock), items)
    {
      var i := 0;
      while i < |items|
        invariant 0 <= i <= |items|
        invariant inventoryManager.stock.Keys == old(inventoryManager.stock).Keys
        invariant AllRegistered(inventoryManager.stock, items[i..])
        invariant Commit(inventoryManager.stock, items[i..]) == Commit(old(inventoryManager.stock), items)
      {
        assert items[i..][1..] == items[i + 1..];
        inventoryManager.ReduceStock(items[i].product.id, items[i].quantity);
        i := i + 1;
      }
    }

    /** The customer's orders in placement order; empty, never null, for a
        customer without orders. */
    method GetOrdersForCustomer(customerId: int) returns (orders: seq<Order>)
      ensures orders == History(customerOrders, customerId)
      ensures customerId !in customerOrders ==> orders == []
    {
      if customerId in customerOrders {
        orders := customerOrders[customerId];
      } else {
        orders := [];
      }
    }

    /** The sum of the totals of all recorded orders. */
    method GetTotalRevenue() returns (totalRevenue: real)
      ensures totalRevenue == Revenue(Snapshot())
    {
      ghost var h := Snapshot();
      totalRevenue := 0.0;
      var remaining := customerOrders.Keys;
      while remaining != {}
        invariant remaining <= customerOrders.Keys
        invariant totalRevenue + SumOver(Takings, h, remaining) == Revenue(h)
        decreases remaining
      {
        NonEmptyHasMember(remaining);
        var c :| c in remaining;
        var sum := SumOfTotals(customerOrders[c]);
        totalRevenue := totalRevenue + sum;
        SumOverRemove(Takings, h, remaining, c);
        remaining := remaining - {c};
      }
      assert SumOver(Takings, h, {}) == 0.0;
      assert Snapshot() == h;
    }

    /** Revenue per recorded order, or 0 when there is none. */
    method GetAverageOrderValue() returns (average: real)
      ensures average == AverageOrderValue(Snapshot())
    {
      ghost var h := Snapshot();
      var totalOrders := 0;
      var remaining := customerOrders.Keys;
      while remaining != {}
        invariant remaining <= customerOrders.Keys
        invariant totalOrders as real + SumOver(Tally, h, remaining) == OrderCount(h)
        decreases remaining
      {
        NonEmptyHasMember(remaining);
        var c :| c in remaining;
        totalOrders := totalOrders + |customerOrders[c]|;
        SumOverRemove(Tally, h, remaining, c);
        remaining := remaining - {c};
      }
      assert SumOver(Tally, h, {}) == 0.0;
      assert OrderCount(h) == totalOrders as real;
      if totalOrders == 0 {
        assert Snapshot() == h;
        return 0.0;
      }
      var revenue := GetTotalRevenue();
      assert Snapshot() == h;
      average := revenue / totalOrders as real;
      assert average == AverageOrderValue(h);
    }

    /** Some recorded order of greatest total, or null when none is recorded.
        Among orders of equal total the first one visited is kept. */
    method GetHighestValueOrder() returns (highestOrder: Order?)
      ensures highestOrder == null <==> forall c | c in customerOrders :: customerOrders[c] == []
      ensures highestOrder != null ==> highestOrder in StoredOrders()
      ensures highestOrder != null ==>
        forall c, i | c in customerOrders && 0 <= i < |customerOrders[c]| ::
          Total(customerOrders[c][i].items) <= Total(highestOrder.items)
    {
      highestOrder := null;
      var highestValue := 0.0;
      var remaining := customerOrders.Keys;
      while remaining != {}
        invariant remaining <= customerOrders.Keys
        invariant highestOrder == null <==>
          forall c | c in customerOrders && c !in remaining :: customerOrders[c] == []
        invariant highestOrder != null ==> highestOrder in StoredOrders() && highestValue == Total(highestOrder.items)
        invariant highestOrder != null ==>
          forall c, i | c in customerOrders && c !in remaining && 0 <= i < |customerOrders[c]| ::
            Total(customerOrders[c][i].items) <= highestValue
        decreases remaining
      {
        NonEmptyHasMember(remaining);
        var c :| c in remaining;
        var orders := customerOrders[c];
        var i := 0;
        while i < |orders|
          invariant 0 <= i <= |orders|
          invariant highestOrder == null <==>
            i == 0 && forall d | d in customerOrders && d !in remaining :: customerOrders[d] == []
          invariant highestOrder != null ==> highestOrder in StoredOrders() && highestValue == Total(highestOrder.items)
          invariant highestOrder != null ==>
            forall d, j | d in customerOrders && d !in remaining && 0 <= j < |customerOrders[d]| ::
              Total(customerOrders[d][j].items) <= highestValue
          invariant highestOrder != null ==> forall j | 0 <= j < i :: Total(orders[j].items) <= highestValue
        {
          var total := orders[i].CalculateTotal();
          if highestOrder == null || total > highestValue {
            highestOrder := orders[i];
            highestValue := total;
          }
          i := i + 1;
        }
        remaining := remaining - {c};
      }
    }
  }

  /** Placing an order raises the total revenue by that order's total and the
      order count by one. */
  method RevenueFollowsOrders(manager: OrderManager, customer: Customer, items: seq<OrderItem>, now: int)
    returns (order: Order?)
    modifies manager, manager.inventoryManager
    ensures order != null ==> Revenue(manager.Snapshot()) == old(Revenue(manager.Snapshot())) + Total(items)
    ensures order != null ==> OrderCount(manager.Snapshot()) == old(OrderCount(manager.Snapshot())) + 1.0
  {
    ghost var m := manager.customerOrders;
    ghost var h := ItemView(m);
    order := manager.CreateOrder(customer, items, now);
    if order != null {
      assert ItemView(m) == h;
      ItemViewRecorded(m, customer.id, order);
      RecordedAggregates(h, customer.id, items);
    }
  }

  /** The order tests' scenarios on one manager: 3 of 5 units leaves 2; a
      line asking 1 of 0 units is refused; two placed orders make a history
      of two. */
  method PlacementScenarios(customer: Customer, jeans: Product, hat: Product, now: int)
    returns (placed: Order?, left: int, rejected: Order?, historyLength: int)
    requires jeans.id != hat.id
    ensures placed != null && left == 2
    ensures rejected == null
    ensures historyLength == 2
  {
    var inventory := new InventoryManager();
    inventory.AddProduct(jeans.id, 5);
    inventory.AddProduct(hat.id, 0);
    var manager := new OrderManager(inventory);
    var line := OrderItem(jeans, 3);
    assert ItemInStock(inventory.stock, line);
    placed := manager.CreateOrder(customer, [line], now);
    assert [line][1..] == [];
    left := inventory.StockOf(jeans.id);
    rejected := manager.CreateOrder(customer, [OrderItem(hat, 1)], now);
    var again := OrderItem(jeans, 2);
    assert ItemInStock(inventory.stock, again);
    var second := manager.CreateOrder(customer, [again], now);
    var history := manager.GetOrdersForCustomer(customer.id);
    historyLength := |history|;
  }
}
