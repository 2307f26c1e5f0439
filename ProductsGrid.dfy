/** The sales screen's product grid: the query it sends for the chosen
    category, the stock badge on each product, and adding a product to the
    cart, which out-of-stock products cannot be. */
module ProductsGrid {
  import opened Wrappers
  import opened Text
  import opened Schema
  import opened CartStore
  import Inventory

  const AllCategories: string := "all"
  const GridPageSize: nat := 50

  /** The product request the grid sends. */
  datatype ProductsQuery = ProductsQuery(perPage: nat, category: Option<string>)

  /** Fifty products, narrowed to the chosen category unless it is "all". */
  function QueryFor(category: string): (q: ProductsQuery)
    ensures q.perPage == GridPageSize
    ensures q.category.None? <==> category == AllCategories
    ensures q.category.Some? ==> q.category.value == category
  {
    ProductsQuery(GridPageSize, if category == AllCategories then None else Some(category))
  }

  /** `getStockBadge`: out of stock first; then a known quantity, shown as
      "N left" and marked urgent below ten; then plain "In stock". */
  datatype GridBadge = OutOfStock | Left(quantity: int, urgent: bool) | InStock

  function BadgeOf(p: CachedProduct): (b: GridBadge)
    ensures b.OutOfStock? <==> Inventory.IsOutOfStock(p)
    ensures b.Left? <==> !Inventory.IsOutOfStock(p) && p.stockQuantity.Some?
    ensures b.Left? ==> b.quantity == p.stockQuantity.value && (b.urgent <==> Inventory.IsLowStock(p))
  {
    if p.stockStatus == Some(Inventory.OutOfStockStatus) then OutOfStock
    else if p.stockQuantity.Some? && p.stockQuantity.value < 10 then Left(p.stockQuantity.value, true)
    else if p.stockQuantity.Some? then Left(p.stockQuantity.value, false)
    else InStock
  }

  /** The grid's badge is red (out of stock, or urgent) exactly when the
      inventory page's badge is Out of Stock or Low Stock. */
  lemma BadgesAgreeWithInventory(p: CachedProduct)
    ensures (BadgeOf(p).OutOfStock? || (BadgeOf(p).Left? && BadgeOf(p).urgent))
      <==> Inventory.BadgeOf(p) != Inventory.InStockBadge
  {
  }

  /** The text of a "N left" badge. */
  function LeftText(q: int): string {
    IntToString(q) + " left"
  }

  /** A negative quantity is shown as an urgent "-N left" badge, not as out of stock. */
  lemma NegativeQuantityShowsUrgent(p: CachedProduct)
    requires p.stockStatus != Some(Inventory.OutOfStockStatus)
    requires p.stockQuantity.Some? && p.stockQuantity.value < 0
    ensures BadgeOf(p) == Left(p.stockQuantity.value, true)
    ensures LeftText(BadgeOf(p).quantity)[0] == '-'
  {
  }

  /** `handleAddToCart`: an out-of-stock product is refused and the cart is
      left as it was; any other product is added as `addItem` adds it. */
  method HandleAddToCart(cart: Cart, p: CachedProduct) returns (added: bool)
    requires cart.Valid()
    modifies cart`items, cart`subtotal, cart`tax, cart`total
    ensures cart.Valid()
    ensures added <==> !Inventory.IsOutOfStock(p)
    ensures !added ==> cart.items == old(cart.items) && cart.total == old(cart.total)
    ensures added ==> var k := IndexOfId(old(cart.items), p.id);
      && (k < |old(cart.items)| ==> cart.items == WithQuantity(old(cart.items), p.id, old(cart.items)[k].quantity + 1))
      && (k == |old(cart.items)| ==> cart.items == old(cart.items) + [NewLine(p)])
  {
    if p.stockStatus == Some(Inventory.OutOfStockStatus) {
      return false;
    }
    cart.AddItem(p);
    return true;
  }
}
