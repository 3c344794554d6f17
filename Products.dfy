/** The catalogue entities that the order, review and discount code read.
    `Product` and `OrderItem` are collaborators whose classes are not part of
    this model; only the attributes the core reads are kept. A product's stock
    is not a field here: it lives in the inventory, keyed by product id. */
module Products {
  import opened Wrappers

  /** A catalogue product: its id, name, free-text (nullable) category and
      unit price. */
  datatype Product = Product(id: int, name: string, category: Option<string>, price: real)

  /** One line of an order: a product and the quantity requested. */
  datatype OrderItem = OrderItem(product: Product, quantity: int)

  /** The line's contribution to the order total: unit price times quantity. */
  function Subtotal(item: OrderItem): (r: real)
    ensures item.product.price >= 0.0 && item.quantity >= 0 ==> r >= 0.0
    ensures item.quantity == 1 ==> r == item.product.price
  {
    item.product.price * item.quantity as real
  }
}
