/** The id-keyed customer store (CustomerManager.java). */
module CustomerRegistry {
  import opened Customers

  class CustomerManager {
    var customers: map<int, Customer>

    constructor ()
      ensures customers == map[]
    {
      customers := map[];
    }

    /** Stores a non-null customer under its current id, replacing whatever
        was stored under that id; a null customer changes nothing. */
    method RegisterCustomer(customer: Customer?)
      modifies this
      ensures customer == null ==> customers == old(customers)
      ensures customer != null ==> customers == old(customers)[customer.id := customer]
    {
      if customer != null {
        customers := customers[customer.id := customer];
      }
    }

    /** The customer stored under `id`, or null when there is none. */
    method GetCustomerById(id: int) returns (customer: Customer?)
      ensures id in customers ==> customer == customers[id]
      ensures id !in customers ==> customer == null
    {
      if id in customers {
        customer := customers[id];
      } else {
        customer := null;
      }
    }

    /** A copy of the whole store. The store is a map value, so nothing a
        caller does to the copy reaches the store. */
    method GetAllCustomers() returns (all: map<int, Customer>)
      ensures all.Keys == customers.Keys
      ensures forall id | id in all :: all[id] == customers[id]
    {
      all := customers;
    }
  }

  /** Registering then looking up by the same id returns the registered
      customer; lookups for other ids are unaffected, and a registration under
      an id that is already present replaces the earlier customer. */
  method RegisterThenLookup(store: CustomerManager, c: Customer, other: int)
    returns (found: Customer?, before: Customer?, after: Customer?)
    requires other != c.id
    modifies store
    ensures found == c
    ensures before == after
  {
    before := store.GetCustomerById(other);
    store.RegisterCustomer(c);
    found := store.GetCustomerById(c.id);
    after := store.GetCustomerById(other);
  }

  /** A fresh store finds nothing under an id that was never registered. */
  method LookupInEmptyStore(id: int) returns (found: Customer?)
    ensures found == null
  {
    var store := new CustomerManager();
    found := store.GetCustomerById(id);
  }
}
