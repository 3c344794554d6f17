/** Courier assignment and delivery status (DeliveryService.java). Courier
    and Delivery are not part of this model beyond the availability flag,
    the order/courier pair and the status the service touches. */
module Deliveries {
  import opened Wrappers
  import opened Orders

  class Courier {
    var available: bool

    constructor (available: bool)
      ensures this.available == available
    {
      this.available := available;
    }
  }

  class Delivery {
    const order: Order
    const courier: Courier
    var status: string

    /** The initial status is whatever the unseen class sets; it is left
        unconstrained here. */
    constructor (order: Order, courier: Courier)
      ensures this.order == order && this.courier == courier
    {
      this.order := order;
      this.courier := courier;
    }
  }

  /** The availability flags of a courier list, position by position. */
  function AvailabilityOf(cs: seq<Courier>): (av: seq<bool>)
    reads cs
    ensures |av| == |cs|
    ensures forall i | 0 <= i < |cs| :: av[i] == cs[i].available
  {
    if cs == [] then [] else AvailabilityOf(cs[..|cs| - 1]) + [cs[|cs| - 1].available]
  }

  /** How many flags are set. */
  function CountAvailable(av: seq<bool>): nat
  {
    if av == [] then 0
    else CountAvailable(av[..|av| - 1]) + (if av[|av| - 1] then 1 else 0)
  }

  /** The position of the first set flag, if any. */
  function FirstAvailable(av: seq<bool>): (r: Option<nat>)
    ensures r == None <==> forall i | 0 <= i < |av| :: !av[i]
    ensures r.Some? ==> r.value < |av| && av[r.value] && forall j | 0 <= j < r.value :: !av[j]
  {
    if av == [] then None
    else if av[0] then Some(0)
    else match FirstAvailable(av[1..])
      case None => None
      case Some(k) => Some(k + 1)
  }

  /** The elements of `xs` whose flag is set, in list order. */
  function Select<T>(xs: seq<T>, flags: seq<bool>): (r: seq<T>)
    requires |xs| == |flags|
    ensures |r| == CountAvailable(flags)
  {
    if xs == [] then []
    else
      var n := |xs| - 1;
      Select(xs[..n], flags[..n]) + (if flags[n] then [xs[n]] else [])
  }

  /** Exactly the flagged elements are selected. */
  lemma {:induction false} SelectMembers<T>(xs: seq<T>, flags: seq<bool>, x: T)
    requires |xs| == |flags|
    ensures x in Select(xs, flags) <==> exists i | 0 <= i < |xs| :: flags[i] && xs[i] == x
  {
    if xs != [] {
      var n := |xs| - 1;
      SelectMembers(xs[..n], flags[..n], x);
      if x in Select(xs[..n], flags[..n]) {
        var i :| 0 <= i < n && flags[..n][i] && xs[..n][i] == x;
        assert flags[i] && xs[i] == x;
      }
      if exists i | 0 <= i < |xs| :: flags[i] && xs[i] == x {
        var i :| 0 <= i < |xs| && flags[i] && xs[i] == x;
        if i < n {
          assert flags[..n][i] && xs[..n][i] == x;
        }
      }
    }
  }

  /** Clearing one set flag lowers the count by exactly one. */
  lemma {:induction false} CountAfterTaking(av: seq<bool>, i: nat)
    requires i < |av| && av[i]
    ensures CountAvailable(av[i := false]) == CountAvailable(av) - 1
  {
    var n := |av| - 1;
    if i < n {
      assert av[i := false][..n] == av[..n][i := false];
      CountAfterTaking(av[..n], i);
    } else {
      assert av[i := false][..n] == av[..n];
    }
  }

  /** No courier appears twice in the list. */
  predicate Distinct(cs: seq<Courier>)
  {
    forall i, j | 0 <= i < j < |cs| :: cs[i] != cs[j]
  }

  /** When exactly the courier at position `i` went busy and nobody appears
      twice, the flags are the old ones with position `i` cleared, and one
      fewer courier is available. */
  lemma {:induction false} TakingOne(cs: seq<Courier>, before: seq<bool>, i: nat)
    requires |before| == |cs| && i < |cs| && before[i]
    requires forall j | 0 <= j < |cs| :: cs[j].available == (before[j] && cs[j] != cs[i])
    ensures Distinct(cs) ==>
      AvailabilityOf(cs) == before[i := false] &&
      CountAvailable(AvailabilityOf(cs)) == CountAvailable(before) - 1
  {
    if Distinct(cs) {
      assert AvailabilityOf(cs) == before[i := false];
      CountAfterTaking(before, i);
    }
  }

  class DeliveryService {
    var couriers: seq<Courier>

    /** The service as the source constructs it: no couriers. */
    constructor ()
      ensures couriers == []
    {
      couriers := [];
    }

    /** A service over a given courier list. */
    constructor WithCouriers(couriers: seq<Courier>)
      ensures this.couriers == couriers
    {
      this.couriers := couriers;
    }

    /** Hands the order to the first available courier, who becomes busy;
        null when nobody is available. No other courier's flag changes. */
    method AssignCourier(order: Order) returns (d: Delivery?)
      modifies couriers
      ensures d == null <==> FirstAvailable(old(AvailabilityOf(couriers))) == None
      ensures d == null ==> AvailabilityOf(couriers) == old(AvailabilityOf(couriers))
      ensures d != null ==>
        fresh(d) && d.order == order &&
        d.courier == couriers[FirstAvailable(old(AvailabilityOf(couriers))).value]
      ensures d != null ==> forall j | 0 <= j < |couriers| ::
        couriers[j].available == (old(couriers[j].available) && couriers[j] != d.courier)
      ensures d != null && Distinct(couriers) ==>
        var k := FirstAvailable(old(AvailabilityOf(couriers))).value;
        AvailabilityOf(couriers) == old(AvailabilityOf(couriers))[k := false] &&
        CountAvailable(AvailabilityOf(couriers)) == old(CountAvailable(AvailabilityOf(couriers))) - 1
    {
      ghost var before := AvailabilityOf(couriers);
      var i := 0;
      while i < |couriers| && !couriers[i].available
        invariant 0 <= i <= |couriers|
        invariant forall j | 0 <= j < i :: !before[j]
      {
        i := i + 1;
      }
      if i == |couriers| {
        return null;
      }
      var courier := couriers[i];
      courier.available := false;
      d := new Delivery(order, courier);
      TakingOne(couriers, before, i);
    }

    /** The available couriers, in list order; nothing changes. */
    method GetAvailableCouriers() returns (available: seq<Courier>)
      ensures available == Select(couriers, AvailabilityOf(couriers))
    {
      ghost var av := AvailabilityOf(couriers);
      available := [];
      var i := 0;
      while i < |couriers|
        invariant 0 <= i <= |couriers|
        invariant available == Select(couriers[..i], av[..i])
      {
        assert couriers[..i + 1][..i] == couriers[..i];
        assert av[..i + 1][..i] == av[..i];
        if couriers[i].available {
          available := available + [couriers[i]];
        }
        i := i + 1;
      }
      assert couriers[..i] == couriers && av[..i] == av;
    }

    /** Sets the status; a missing delivery, or a missing or empty status,
        is rejected with the source's message and changes nothing. */
    method UpdateDeliveryStatus(delivery: Delivery?, newStatus: Option<string>) returns (outcome: Outcome<string>)
      modifies delivery
      ensures delivery == null ==> outcome == Fail("Delivery cannot be null.")
      ensures delivery != null && (newStatus == None || newStatus.value == "") ==>
        outcome == Fail("Status cannot be null or empty.") && delivery.status == old(delivery.status)
      ensures delivery != null && newStatus != None && newStatus.value != "" ==>
        outcome == Pass && delivery.status == newStatus.value
    {
      if delivery == null {
        return Fail("Delivery cannot be null.");
      }
      if newStatus == None || newStatus.value == "" {
        return Fail("Status cannot be null or empty.");
      }
      delivery.status := newStatus.value;
      outcome := Pass;
    }
  }

  /** A service built as the source builds it has nobody to assign. */
  method FreshServiceAssignsNobody(order: Order) returns (d: Delivery?)
    ensures d == null
  {
    var service := new DeliveryService();
    d := service.AssignCourier(order);
  }

  /** Of a busy and an idle courier, the idle one takes the order. */
  method IdleCourierTakesOrder(order: Order) returns (d: Delivery?, idle: Courier)
    ensures d != null && d.courier == idle && !idle.available
  {
    var busy := new Courier(false);
    idle := new Courier(true);
    var service := new DeliveryService.WithCouriers([busy, idle]);
    assert AvailabilityOf(service.couriers) == [false, true] by {
      assert service.couriers[..1] == [busy];
    }
    assert FirstAvailable([false, true]) == Some(1) by {
      assert [false, true][1..] == [true];
    }
    d := service.AssignCourier(order);
  }
}
