/** The discount rules (Discount.java, CategoryDiscount.java,
    VipDiscount.java). The abstract `Discount` class becomes a closed datatype
    of its two rules with one `Apply` capability. The customer argument is
    taken as reflection sees it: the list of the customer's declared fields
    (see `Customers.Customer.DeclaredFields`). */
module Discounts {
  import opened Wrappers
  import opened Products
  import opened Customers

  /** The category that earns the category discount. */
  const DiscountedCategory: string := "Shoes"

  /** ASCII case folding: upper-case letters become lower-case. */
  function LowerAscii(c: char): (l: char)
    ensures 'A' <= c <= 'Z' ==> l != c && 'a' <= l <= 'z'
    ensures !('A' <= c <= 'Z') ==> l == c
  {
    if 'A' <= c <= 'Z' then (c as int - 'A' as int + 'a' as int) as char else c
  }

  /** Java's `equalsIgnoreCase`, for ASCII letters: same length, and equal
      characters after case folding. */
  predicate EqualsIgnoreCase(a: string, b: string)
  {
    |a| == |b| && forall i | 0 <= i < |a| :: LowerAscii(a[i]) == LowerAscii(b[i])
  }

  /** Whether a (nullable) category is "Shoes", ignoring case. */
  predicate IsDiscountedCategory(category: Option<string>)
  {
    category.Some? && EqualsIgnoreCase(DiscountedCategory, category.value)
  }

  /** Which categories qualify: any capitalisation of "Shoes", and not a null
      category, a prefix of it, or another category. */
  lemma DiscountedCategoryExamples()
    ensures IsDiscountedCategory(Some("Shoes"))
    ensures IsDiscountedCategory(Some("shoes")) && IsDiscountedCategory(Some("SHOES"))
    ensures !IsDiscountedCategory(None)
    ensures !IsDiscountedCategory(Some("Shoe")) && !IsDiscountedCategory(Some("Clothing"))
    ensures !IsDiscountedCategory(Some("Footwear"))
  {
  }

  /** The reflective VIP check: some field annotated `@VIP` holds Boolean
      true. With no annotated field it is false. */
  predicate IsVip(fields: seq<Field>)
    ensures (forall i | 0 <= i < |fields| :: !fields[i].vipAnnotated) ==> !IsVip(fields)
    ensures (forall i | 0 <= i < |fields| :: !fields[i].value.BoolValue?) ==> !IsVip(fields)
  {
    exists i | 0 <= i < |fields| :: fields[i].vipAnnotated && fields[i].value == BoolValue(true)
  }

  /** Both readings of the VIP check on a customer: when the `isVip` field
      carries `@VIP` the check is the customer's flag; as the class is
      written it carries none and the check is always false. */
  lemma VipReadings(c: Customer)
    ensures IsVip(c.DeclaredFields(true)) == c.isVip
    ensures !IsVip(c.DeclaredFields(false))
  {
  }

  /** A discount rule: a conditional price transform. */
  datatype Discount = CategoryDiscount | VipDiscount
  {
    /** The rule's price for `price`, given the customer's fields and the
        product. */
    function Apply(fields: seq<Field>, product: Product, price: real): (r: real)
      ensures r == price || r == price * Factor()
      ensures price >= 0.0 ==> 0.0 <= r <= price
    {
      match this
      case CategoryDiscount =>
        if IsDiscountedCategory(product.category) then price * 0.80 else price
      case VipDiscount =>
        if IsVip(fields) then price * 0.90 else price
    }

    /** The multiplier the rule applies when its condition holds. */
    function Factor(): (f: real)
      ensures 0.0 < f < 1.0
    {
      match this
      case CategoryDiscount => 0.80
      case VipDiscount => 0.90
    }

    /** Whether the rule's condition holds. */
    predicate Applies(fields: seq<Field>, product: Product)
    {
      match this
      case CategoryDiscount => IsDiscountedCategory(product.category)
      case VipDiscount => IsVip(fields)
    }
  }

  /** Each rule multiplies by its factor exactly when its condition holds and
      otherwise passes the price through. The category rule ignores the
      customer and the VIP rule ignores the product. */
  lemma ApplyMeaning(d: Discount, fields: seq<Field>, product: Product, price: real,
                     otherFields: seq<Field>, otherProduct: Product)
    ensures d.Apply(fields, product, price) == if d.Applies(fields, product) then price * d.Factor() else price
    ensures d.CategoryDiscount? ==> d.Apply(otherFields, product, price) == d.Apply(fields, product, price)
    ensures d.VipDiscount? ==> d.Apply(fields, otherProduct, price) == d.Apply(fields, product, price)
  {
  }

  /** The price after threading `price` through `rules` in order, each rule
      receiving the previous rule's output. */
  function Pipeline(rules: seq<Discount>, fields: seq<Field>, product: Product, price: real): (r: real)
    ensures price >= 0.0 ==> 0.0 <= r <= price
    decreases |rules|
  {
    if rules == [] then price
    else Pipeline(rules[1..], fields, product, rules[0].Apply(fields, product, price))
  }

  /** Running two pipelines one after the other is running their
      concatenation: each rule sees the previous rule's output. */
  lemma {:induction false} PipelineConcat(first: seq<Discount>, second: seq<Discount>,
                                          fields: seq<Field>, product: Product, price: real)
    ensures Pipeline(first + second, fields, product, price)
         == Pipeline(second, fields, product, Pipeline(first, fields, product, price))
    decreases |first|
  {
    if first == [] {
      assert first + second == second;
    } else {
      assert (first + second)[1..] == first[1..] + second;
      PipelineConcat(first[1..], second, fields, product, first[0].Apply(fields, product, price));
    }
  }

  /** With exact prices the two rules commute, so the order matters only
      under rounding. */
  lemma RulesCommute(fields: seq<Field>, product: Product, price: real)
    ensures Pipeline([CategoryDiscount, VipDiscount], fields, product, price)
         == Pipeline([VipDiscount, CategoryDiscount], fields, product, price)
  {
  }
}
