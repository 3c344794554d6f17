/** The stock side of the inventory that the order workflow consults. The
    InventoryManager class itself is not part of this model; only what the
    order workflow calls on it is: "is a product with this id registered",
    "what is its stock" and "reduce its stock". Stock is kept per product id. */
module Inventory {

  class InventoryManager {
    var stock: map<int, int>

    constructor ()
      ensures stock == map[]
    {
      stock := map[];
    }

    /** Registers a product with the given stock, replacing any earlier entry
        under the same id. */
    method AddProduct(id: int, initialStock: int)
      modifies this
      ensures stock == old(stock)[id := initialStock]
    {
      stock := stock[id := initialStock];
    }

    /** Whether a product with this id is registered, whatever its stock. */
    predicate IsProductAvailable(id: int)
      reads this
    {
      id in stock
    }

    function StockOf(id: int): int
      requires IsProductAvailable(id)
      reads this
    {
      stock[id]
    }

    /** Decrements the stock without checking or clamping: callers validate
        first. */
    method ReduceStock(id: int, quantity: int)
      requires IsProductAvailable(id)
      modifies this
      ensures stock == old(stock)[id := old(stock)[id] - quantity]
    {
      stock := stock[id := stock[id] - quantity];
    }
  }
}
