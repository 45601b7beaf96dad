/** The one table every request of the handlers targets. */
module Inventory {
  const ProductTable := "product-inventory"
}
