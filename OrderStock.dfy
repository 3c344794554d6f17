/** The stock rules of order placement (OrderManager.java, validateStock and
    updateInventory) stated on a stock table: product id to units in stock. */
module OrderStock {
  import opened Products

  /** The per-line check: the product is registered and has at least the
      requested quantity in stock. */
  predicate ItemInStock(stock: map<int, int>, item: OrderItem)
  {
    item.product.id in stock && stock[item.product.id] >= item.quantity
  }

  /** Every line passes the per-line check against the same, unchanged table. */
  predicate AllInStock(stock: map<int, int>, items: seq<OrderItem>)
  {
    forall i | 0 <= i < |items| :: ItemInStock(stock, items[i])
  }

  predicate AllRegistered(stock: map<int, int>, items: seq<OrderItem>)
  {
    forall i | 0 <= i < |items| :: items[i].product.id in stock
  }

  predicate NonNegative(stock: map<int, int>)
  {
    forall id | id in stock :: stock[id] >= 0
  }

  /** No two lines name the same product. */
  predicate DistinctIds(items: seq<OrderItem>)
  {
    forall i, j | 0 <= i < j < |items| :: items[i].product.id != items[j].product.id
  }

  /** The table after decrementing, line by line in list order, each line's
      product by its quantity. */
  function Commit(stock: map<int, int>, items: seq<OrderItem>): (after: map<int, int>)
    requires AllRegistered(stock, items)
    ensures after.Keys == stock.Keys
    decreases |items|
  {
    if items == [] then stock
    else
      var id := items[0].product.id;
      Commit(stock[id := stock[id] - items[0].quantity], items[1..])
  }

  /** The total quantity the lines request of one product. */
  function QuantityFor(items: seq<OrderItem>, id: int): (q: int)
    ensures (forall i | 0 <= i < |items| :: items[i].product.id != id) ==> q == 0
    ensures (forall i | 0 <= i < |items| :: items[i].quantity >= 0) ==> q >= 0
  {
    if items == [] then 0
    else (if items[0].product.id == id then items[0].quantity else 0) + QuantityFor(items[1..], id)
  }

  /** Committing lowers each product's stock by the total its lines request,
      repeated lines accumulating; products not ordered keep their stock. */
  lemma {:induction false} CommitSubtracts(stock: map<int, int>, items: seq<OrderItem>, id: int)
    requires AllRegistered(stock, items) && id in stock
    ensures Commit(stock, items)[id] == stock[id] - QuantityFor(items, id)
    decreases |items|
  {
    if items != [] {
      var first := items[0].product.id;
      var next := stock[first := stock[first] - items[0].quantity];
      assert AllRegistered(next, items[1..]);
      CommitSubtracts(next, items[1..], id);
    }
  }

  /** With distinct product ids, the total requested of a line's product is
      that line's quantity. */
  lemma {:induction false} QuantityForDistinct(items: seq<OrderItem>, k: int)
    requires DistinctIds(items) && 0 <= k < |items|
    ensures QuantityFor(items, items[k].product.id) == items[k].quantity
    decreases |items|
  {
    var id := items[k].product.id;
    if k == 0 {
      assert forall i | 0 <= i < |items[1..]| :: items[1..][i].product.id != id by {
        forall i | 0 <= i < |items[1..]| ensures items[1..][i].product.id != id {
          assert items[1..][i] == items[i + 1];
        }
      }
    } else {
      assert items[1..][k - 1] == items[k];
      QuantityForDistinct(items[1..], k - 1);
    }
  }

  /** Committing keeps every stock non-negative exactly when no product's
      stock is below the total its lines request. */
  lemma {:induction false} CommitNonNegativeIff(stock: map<int, int>, items: seq<OrderItem>)
    requires AllRegistered(stock, items)
    ensures NonNegative(Commit(stock, items))
        <==> forall id | id in stock :: stock[id] >= QuantityFor(items, id)
  {
    forall id | id in stock {
      CommitSubtracts(stock, items, id);
    }
  }

  /** With distinct product ids the per-line check is enough: starting from a
      non-negative table, every stock stays non-negative. */
  lemma {:induction false} CommitNonNegativeWhenDistinct(stock: map<int, int>, items: seq<OrderItem>)
    requires NonNegative(stock) && AllInStock(stock, items) && DistinctIds(items)
    ensures AllRegistered(stock, items)
    ensures NonNegative(Commit(stock, items))
  {
    forall id | id in stock ensures Commit(stock, items)[id] >= 0 {
      CommitSubtracts(stock, items, id);
      if k :| 0 <= k < |items| && items[k].product.id == id {
        QuantityForDistinct(items, k);
      }
    }
  }

  /** The per-line check misses repeated lines: two lines of 3 units each of a
      product with 5 in stock both pass it, and committing them leaves -1. */
  lemma RepeatedIdDrivesStockNegative(p: Product)
    ensures AllInStock(map[p.id := 5], [OrderItem(p, 3), OrderItem(p, 3)])
    ensures Commit(map[p.id := 5], [OrderItem(p, 3), OrderItem(p, 3)])[p.id] == -1
  {
    var items := [OrderItem(p, 3), OrderItem(p, 3)];
    assert items[1..] == [OrderItem(p, 3)];
    assert [OrderItem(p, 3)][1..] == [];
    assert map[p.id := 5][p.id := 5 - 3] == map[p.id := 2];
    assert map[p.id := 2][p.id := 2 - 3] == map[p.id := -1];
    calc {
      Commit(map[p.id := 5], items);
      Commit(map[p.id := 2], [OrderItem(p, 3)]);
      Commit(map[p.id := -1], []);
    }
  }
}
