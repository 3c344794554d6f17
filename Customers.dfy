/** Customers and the process-wide id counter that numbers them
    (Customer.java). Java's `static int customerId` becomes an `IdCounter`
    object that every constructor call is handed; one such object exists per
    process. */
module Customers {
  import opened Wrappers

  /** The first id handed out in a process. */
  const FirstCustomerId: int := 100

  /** The process-wide source of customer ids. */
  class IdCounter {
    var next: int

    ghost predicate Valid()
      reads this
    {
      next >= FirstCustomerId
    }

    constructor ()
      ensures Valid() && next == FirstCustomerId
    {
      next := FirstCustomerId;
    }
  }

  /** A field value as Java reflection reports it: only the boxed-Boolean
      case matters to the VIP check; every other value (ints, strings, lists,
      null) is `OtherValue`. */
  datatype FieldValue = BoolValue(b: bool) | OtherValue

  /** One declared field of a class as seen through reflection: its name,
      whether it carries the `@VIP` annotation, and its value. */
  datatype Field = Field(name: string, vipAnnotated: bool, value: FieldValue)

  class Customer {
    var id: int
    var name: string
    var email: string
    var isVip: bool
    var favoriteCategories: Option<seq<string>>

    /** Takes the current counter value as the new customer's id and
        advances the counter by one. A new customer is not a VIP and has no
        favourite-category list. */
    constructor (name: string, email: string, counter: IdCounter)
      requires counter.Valid()
      modifies counter
      ensures counter.Valid() && counter.next == old(counter.next) + 1
      ensures id == old(counter.next)
      ensures this.name == name && this.email == email
      ensures !isVip && favoriteCategories == None
    {
      this.name := name;
      this.email := email;
      this.id := counter.next;
      this.isVip := false;
      this.favoriteCategories := None;
      counter.next := counter.next + 1;
    }

    method SetId(id: int)
      modifies this
      ensures this.id == id
      ensures name == old(name) && email == old(email) && isVip == old(isVip)
      ensures favoriteCategories == old(favoriteCategories)
    {
      this.id := id;
    }

    method SetName(name: string)
      modifies this
      ensures this.name == name
      ensures id == old(id) && email == old(email) && isVip == old(isVip)
      ensures favoriteCategories == old(favoriteCategories)
    {
      this.name := name;
    }

    method SetEmail(email: string)
      modifies this
      ensures this.email == email
      ensures id == old(id) && name == old(name) && isVip == old(isVip)
      ensures favoriteCategories == old(favoriteCategories)
    {
      this.email := email;
    }

    method SetVip(vip: bool)
      modifies this
      ensures isVip == vip
      ensures id == old(id) && name == old(name) && email == old(email)
      ensures favoriteCategories == old(favoriteCategories)
    {
      this.isVip := vip;
    }

    method SetFavoriteCategories(categories: Option<seq<string>>)
      modifies this
      ensures favoriteCategories == categories
      ensures id == old(id) && name == old(name) && email == old(email) && isVip == old(isVip)
    {
      this.favoriteCategories := categories;
    }

    /** The fields reflection finds on a customer, in declaration order,
        including the static counter (an int, so never a Boolean). The flag
        `vipAnnotated` says whether the `isVip` field carries `@VIP`; as the
        class is written it does not. */
    function DeclaredFields(vipAnnotated: bool): (fs: seq<Field>)
      reads this
      ensures |fs| == 6 && fs[3] == Field("isVip", vipAnnotated, BoolValue(isVip))
      ensures forall i | 0 <= i < |fs| && i != 3 :: !fs[i].vipAnnotated && fs[i].value == OtherValue
    {
      [ Field("id", false, OtherValue),
        Field("name", false, OtherValue),
        Field("email", false, OtherValue),
        Field("isVip", vipAnnotated, BoolValue(isVip)),
        Field("favoriteCategories", false, OtherValue),
        Field("customerId", false, OtherValue) ]
    }
  }

  /** Two customers constructed one after the other in a fresh process get
      ids 100 and 101; overriding the first id with `SetId` leaves the counter
      alone, so the next customer still gets 102. */
  method CustomersInSequence() returns (first: int, second: int, overridden: int, third: int)
    ensures first == 100 && second == 101 && first < second
    ensures overridden == 101 && third == 102
  {
    var counter := new IdCounter();
    var alice := new Customer("Alice", "alice@example.com", counter);
    var bob := new Customer("Bob", "bob@example.com", counter);
    first, second := alice.id, bob.id;
    alice.SetId(101);
    overridden := alice.id;
    var carol := new Customer("Carol", "carol@example.com", counter);
    third := carol.id;
  }
}
