/** A customer's order and its total (Order.java). The order date is a clock
    reading in the source; here it is an opaque timestamp supplied by the
    caller. */
module Orders {
  import opened Products
  import opened Customers

  /** The sum of the line subtotals. */
  function Total(items: seq<OrderItem>): real
  {
    if items == [] then 0.0 else Subtotal(items[0]) + Total(items[1..])
  }

  /** Appending a line raises the total by exactly that line's subtotal. */
  lemma {:induction false} TotalAppend(items: seq<OrderItem>, item: OrderItem)
    ensures Total(items + [item]) == Total(items) + Subtotal(item)
  {
    if items != [] {
      assert (items + [item])[1..] == items[1..] + [item];
      TotalAppend(items[1..], item);
    }
  }

  /** With non-negative prices and quantities the total is non-negative. */
  lemma {:induction false} TotalNonNegative(items: seq<OrderItem>)
    requires forall i | 0 <= i < |items| :: items[i].product.price >= 0.0 && items[i].quantity >= 0
    ensures Total(items) >= 0.0
  {
    if items != [] {
      TotalNonNegative(items[1..]);
    }
  }

  /** The totals the order tests expect: one T-shirt line 19.99 x 2 gives
      39.98, and adding a hat line 14.99 x 1 gives 54.97. */
  lemma TotalExamples(tShirt: Product, hat: Product)
    requires tShirt.price == 19.99 && hat.price == 14.99
    ensures Total([]) == 0.0
    ensures Total([OrderItem(tShirt, 2)]) == 39.98
    ensures Total([OrderItem(tShirt, 2), OrderItem(hat, 1)]) == 54.97
  {
    var line := OrderItem(hat, 1);
    assert [OrderItem(tShirt, 2), line][1..] == [line];
    assert Total([line]) == 14.99 by {
      assert [line][1..] == [];
    }
  }

  class Order {
    var orderId: int
    var customer: Customer
    var items: seq<OrderItem>
    var orderDate: int

    /** Stores the given id, customer and items; the date is the clock
        reading `now`. */
    constructor (orderId: int, customer: Customer, items: seq<OrderItem>, now: int)
      ensures this.orderId == orderId && this.customer == customer
      ensures this.items == items && orderDate == now
    {
      this.orderId := orderId;
      this.customer := customer;
      this.items := items;
      this.orderDate := now;
    }

    method SetOrderId(orderId: int)
      modifies this
      ensures this.orderId == orderId
      ensures customer == old(customer) && items == old(items) && orderDate == old(orderDate)
    {
      this.orderId := orderId;
    }

    method SetCustomer(customer: Customer)
      modifies this
      ensures this.customer == customer
      ensures orderId == old(orderId) && items == old(items) && orderDate == old(orderDate)
    {
      this.customer := customer;
    }

    method SetItems(items: seq<OrderItem>)
      modifies this
      ensures this.items == items
      ensures orderId == old(orderId) && customer == old(customer) && orderDate == old(orderDate)
    {
      this.items := items;
    }

    method SetOrderDate(orderDate: int)
      modifies this
      ensures this.orderDate == orderDate
      ensures orderId == old(orderId) && customer == old(customer) && items == old(items)
    {
      this.orderDate := orderDate;
    }

    /** Accumulates the line subtotals in list order. */
    method CalculateTotal() returns (subTotal: real)
      ensures subTotal == Total(items)
    {
      subTotal := 0.0;
      var i := 0;
      while i < |items|
        invariant 0 <= i <= |items|
        invariant subTotal == Total(items[..i])
      {
        TotalAppend(items[..i], items[i]);
        assert items[..i + 1] == items[..i] + [items[i]];
        subTotal := subTotal + Subtotal(items[i]);
        i := i + 1;
      }
      assert items[..i] == items;
    }
  }
}
