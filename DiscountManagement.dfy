/** The fixed discount computation of DiscountManager.java: start from the
    product's price, take 20% off for Shoes, then 10% off for a VIP. */
module DiscountManagement {
  import opened Wrappers
  import opened Products
  import opened Customers
  import opened Discounts

  /** Whether `Customer.isVip` carries `@VIP` in the class as shipped: it
      does not, so the reflective VIP check never succeeds there. */
  const VipAnnotatedAsShipped: bool := false

  /** The manager's rules, in the order it applies them. */
  const ManagerRules: seq<Discount> := [CategoryDiscount, VipDiscount]

  /** The manager's price for a product, given the customer's fields. */
  function DiscountedPrice(fields: seq<Field>, product: Product): real
  {
    Pipeline(ManagerRules, fields, product, product.price)
  }

  /** The manager's category check, written as the source writes it; it is
      the category rule's condition. */
  predicate IsCategoryDiscounted(product: Product)
    ensures IsCategoryDiscounted(product) == CategoryDiscount.Applies([], product)
  {
    product.category != None && EqualsIgnoreCase("Shoes", product.category.value)
  }

  /** The reflective VIP search: stops at the first `@VIP` field that holds
      Boolean true. It agrees with the VIP rule's check. */
  method IsVipUsingReflection(fields: seq<Field>) returns (vip: bool)
    ensures vip == IsVip(fields)
  {
    var i := 0;
    while i < |fields|
      invariant 0 <= i <= |fields|
      invariant forall j | 0 <= j < i :: !(fields[j].vipAnnotated && fields[j].value == BoolValue(true))
    {
      if fields[i].vipAnnotated {
        if fields[i].value.BoolValue? && fields[i].value.b {
          return true;
        }
      }
      i := i + 1;
    }
    return false;
  }

  /** The customer's price for the product: the category rule applied to the
      product's own price, then the VIP rule applied to that. */
  method ApplyDiscount(customer: Customer, product: Product, vipAnnotated: bool) returns (price: real)
    ensures price == VipDiscount.Apply(customer.DeclaredFields(vipAnnotated), product,
                       CategoryDiscount.Apply(customer.DeclaredFields(vipAnnotated), product, product.price))
    ensures price == DiscountedPrice(customer.DeclaredFields(vipAnnotated), product)
  {
    price := product.price;
    if IsCategoryDiscounted(product) {
      price := price * 0.80;
    }
    var fields := customer.DeclaredFields(vipAnnotated);
    var vip := IsVipUsingReflection(fields);
    if vip {
      price := price * 0.90;
    }
    assert ManagerRules[1..] == [VipDiscount];
  }

  /** The four cases of the manager's price: Shoes for a VIP 0.72 of the
      price (category first, then VIP), Shoes alone 0.80, VIP alone 0.90,
      neither the price unchanged. */
  lemma DiscountedPriceCases(fields: seq<Field>, product: Product)
    ensures var shoes, vip := IsDiscountedCategory(product.category), IsVip(fields);
      DiscountedPrice(fields, product)
        == if shoes && vip then product.price * 0.72
           else if shoes then product.price * 0.80
           else if vip then product.price * 0.90
           else product.price
  {
  }

  /** The four prices for a product priced 100.00. */
  lemma HundredExamples(vipFields: seq<Field>, plainFields: seq<Field>, shoes: Product, hat: Product)
    requires IsVip(vipFields) && !IsVip(plainFields)
    requires shoes.price == 100.0 && shoes.category == Some("Shoes")
    requires hat.price == 100.0 && hat.category == Some("Accessories")
    ensures DiscountedPrice(vipFields, shoes) == 72.0
    ensures DiscountedPrice(vipFields, hat) == 90.0
    ensures DiscountedPrice(plainFields, shoes) == 80.0
    ensures DiscountedPrice(plainFields, hat) == 100.0
  {
  }

  /** As shipped, no customer gets the VIP discount, whatever their flag;
      with the annotation in place, exactly the flagged customers do. */
  lemma CustomerPrices(c: Customer, product: Product)
    ensures DiscountedPrice(c.DeclaredFields(VipAnnotatedAsShipped), product)
         == CategoryDiscount.Apply(c.DeclaredFields(VipAnnotatedAsShipped), product, product.price)
    ensures c.isVip ==>
      DiscountedPrice(c.DeclaredFields(true), product)
        == CategoryDiscount.Apply(c.DeclaredFields(true), product, product.price) * 0.90
  {
  }
}
