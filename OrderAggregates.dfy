/** Per-customer order histories and the aggregates computed over them
    (OrderManager.java). An aggregate sees each stored order through its item
    list, so the histories are taken here as a map from customer id to the
    item lists of that customer's orders, in placement order. The source walks
    the map in HashMap order, which is unspecified: the sums below are
    defined for an arbitrary walk and proved not to depend on it. */
module OrderAggregates {
  import opened Histories
  import opened Products
  import opened Orders

  /** The sum of the totals of a list of orders. */
  function SumTotals(orders: seq<seq<OrderItem>>): real
  {
    if orders == [] then 0.0 else SumTotals(orders[..|orders| - 1]) + Total(orders[|orders| - 1])
  }

  /** A non-empty set has a member to pick. */
  lemma NonEmptyHasMember(ks: set<int>)
    requires ks != {}
    ensures exists k :: k in ks
  {
    assert (forall k :: k !in ks) ==> ks == {};
  }

  /** The two per-customer quantities the reports add up. */
  datatype Measure = Takings | Tally

  /** One customer's contribution: the sum of their order totals, or the
      number of their orders. */
  function Weight(a: Measure, orders: seq<seq<OrderItem>>): real
  {
    match a
    case Takings => SumTotals(orders)
    case Tally => |orders| as real
  }

  /** The sum of a measure over the customers `ks`, visiting them in an
      arbitrary order. */
  ghost function SumOver(a: Measure, h: map<int, seq<seq<OrderItem>>>, ks: set<int>): real
    requires ks <= h.Keys
    decreases ks
  {
    if ks == {} then 0.0
    else NonEmptyHasMember(ks); var k :| k in ks; Weight(a, h[k]) + SumOver(a, h, ks - {k})
  }

  /** Any customer may be taken first: the sum does not depend on the
      visiting order. */
  lemma {:induction false} SumOverRemove(a: Measure, h: map<int, seq<seq<OrderItem>>>, ks: set<int>, k: int)
    requires ks <= h.Keys && k in ks
    ensures SumOver(a, h, ks) == Weight(a, h[k]) + SumOver(a, h, ks - {k})
    decreases ks
  {
    var j :| j in ks && SumOver(a, h, ks) == Weight(a, h[j]) + SumOver(a, h, ks - {j});
    if j != k {
      SumOverRemove(a, h, ks - {j}, k);
      SumOverRemove(a, h, ks - {k}, j);
      assert ks - {j} - {k} == ks - {k} - {j};
    }
  }

  /** Sums over customers whose histories agree are equal. */
  lemma {:induction false} SumOverAgree(a: Measure, h: map<int, seq<seq<OrderItem>>>,
                                        h': map<int, seq<seq<OrderItem>>>, ks: set<int>)
    requires ks <= h.Keys && ks <= h'.Keys
    requires forall k | k in ks :: h[k] == h'[k]
    ensures SumOver(a, h, ks) == SumOver(a, h', ks)
    decreases ks
  {
    if ks != {} {
      NonEmptyHasMember(ks);
      var k :| k in ks;
      SumOverRemove(a, h, ks, k);
      SumOverRemove(a, h', ks, k);
      SumOverAgree(a, h, h', ks - {k});
    }
  }

  /** The order count is non-negative, and zero exactly when every history
      in `ks` is empty. */
  lemma {:induction false} TallyZero(h: map<int, seq<seq<OrderItem>>>, ks: set<int>)
    requires ks <= h.Keys
    ensures SumOver(Tally, h, ks) >= 0.0
    ensures SumOver(Tally, h, ks) == 0.0 <==> forall k | k in ks :: h[k] == []
    decreases ks
  {
    if ks != {} {
      NonEmptyHasMember(ks);
      var k :| k in ks;
      SumOverRemove(Tally, h, ks, k);
      TallyZero(h, ks - {k});
    }
  }

  /** The sum of the totals of every stored order. */
  ghost function Revenue(h: map<int, seq<seq<OrderItem>>>): real
  {
    SumOver(Takings, h, h.Keys)
  }

  /** The number of stored orders (as a real, the divisor of the average). */
  ghost function OrderCount(h: map<int, seq<seq<OrderItem>>>): real
  {
    SumOver(Tally, h, h.Keys)
  }

  /** Revenue per order, and 0 when no order is stored. */
  ghost function AverageOrderValue(h: map<int, seq<seq<OrderItem>>>): real
  {
    if OrderCount(h) == 0.0 then 0.0 else Revenue(h) / OrderCount(h)
  }

  /** No order is stored exactly when the count is zero. */
  lemma NoOrdersIffCountZero(h: map<int, seq<seq<OrderItem>>>)
    ensures OrderCount(h) >= 0.0
    ensures OrderCount(h) == 0.0 <==> forall c | c in h :: h[c] == []
  {
    TallyZero(h, h.Keys);
  }

  /** Recording one more order for a customer raises the sum of either
      measure by that order's contribution. */
  lemma RecordedMeasure(a: Measure, h: map<int, seq<seq<OrderItem>>>, customerId: int, items: seq<OrderItem>)
    ensures SumOver(a, Recorded(h, customerId, items), Recorded(h, customerId, items).Keys)
         == SumOver(a, h, h.Keys) + Weight(a, [items])
  {
    var h' := Recorded(h, customerId, items);
    var rest := h.Keys - {customerId};
    assert h'.Keys - {customerId} == rest;
    var old_ := History(h, customerId);
    assert h'[customerId] == old_ + [items];
    assert (old_ + [items])[..|old_|] == old_;
    SumOverRemove(a, h', h'.Keys, customerId);
    SumOverAgree(a, h, h', rest);
    assert SumTotals([items]) == Total(items) by {
      assert [items][..0] == [];
    }
    if customerId in h {
      SumOverRemove(a, h, h.Keys, customerId);
    } else {
      assert rest == h.Keys;
      assert old_ == [];
    }
  }

  /** Recording one more order for a customer raises the revenue by that
      order's total and the count by one. */
  lemma RecordedAggregates(h: map<int, seq<seq<OrderItem>>>, customerId: int, items: seq<OrderItem>)
    ensures Revenue(Recorded(h, customerId, items)) == Revenue(h) + Total(items)
    ensures OrderCount(Recorded(h, customerId, items)) == OrderCount(h) + 1.0
  {
    RecordedMeasure(Takings, h, customerId, items);
    RecordedMeasure(Tally, h, customerId, items);
    assert SumTotals([items]) == Total(items) by {
      assert [items][..0] == [];
    }
  }

  /** No histories: no revenue and no orders. */
  lemma EmptyAggregates()
    ensures Revenue(map[]) == 0.0 && OrderCount(map[]) == 0.0
  {
  }

  /** One customer with two orders: revenue is the sum of their totals over
      a count of 2. */
  lemma TwoOrderAggregates(customerId: int, a: seq<OrderItem>, b: seq<OrderItem>)
    ensures Revenue(map[customerId := [a, b]]) == Total(a) + Total(b)
    ensures OrderCount(map[customerId := [a, b]]) == 2.0
  {
    var empty: map<int, seq<seq<OrderItem>>> := map[];
    EmptyAggregates();
    var first := Recorded(empty, customerId, a);
    RecordedAggregates(empty, customerId, a);
    assert Revenue(first) == Total(a) && OrderCount(first) == 1.0;
    var second := Recorded(first, customerId, b);
    RecordedAggregates(first, customerId, b);
    assert first == map[customerId := [a]] by {
      assert [] + [a] == [a];
    }
    assert second == map[customerId := [a, b]] by {
      assert [a] + [b] == [a, b];
    }
  }

  /** A worked average: orders totalling 39.98 and 14.99 average 27.485;
      with no orders the average is 0. */
  lemma AverageExample(tShirt: Product, hat: Product, customerId: int)
    requires tShirt.price == 19.99 && hat.price == 14.99
    ensures AverageOrderValue(map[]) == 0.0
    ensures AverageOrderValue(map[customerId := [[OrderItem(tShirt, 2)], [OrderItem(hat, 1)]]]) == 27.485
  {
    EmptyAggregates();
    var a, b := [OrderItem(tShirt, 2)], [OrderItem(hat, 1)];
    TotalExamples(tShirt, hat);
    assert Total(b) == 14.99 by {
      assert b[1..] == [];
    }
    TwoOrderAggregates(customerId, a, b);
  }
}
