/** The inventory page: the product list narrowed by a search query and a
    stock tab, the stock badge and stock level of each product, and the
    counts shown above the list. */
module Inventory {
  import opened Wrappers
  import opened Text
  import opened Collections
  import opened Schema
  import ServerStorage

  const AllTab: string := "all"
  const LowStockTab: string := "low-stock"
  const OutOfStockTab: string := "out-of-stock"
  const InStockTab: string := "in-stock"

  /** Below this many units a product counts as low on stock. */
  const LowStockThreshold: int := 10

  const OutOfStockStatus: string := "outofstock"
  const InStockStatus: string := "instock"

  predicate IsLowStock(p: CachedProduct) {
    p.stockQuantity.Some? && p.stockQuantity.value < LowStockThreshold
  }

  predicate IsOutOfStock(p: CachedProduct) {
    p.stockStatus == Some(OutOfStockStatus)
  }

  predicate IsInStock(p: CachedProduct) {
    p.stockStatus == Some(InStockStatus)
  }

  /** The page's search test: an empty query keeps everything; otherwise the
      lower-cased name or a non-empty lower-cased SKU contains the
      lower-cased query. */
  predicate MatchesSearch(p: CachedProduct, query: string) {
    query == ""
    || Contains(ToLower(p.name), ToLower(query))
    || (p.sku.Some? && p.sku.value != "" && Contains(ToLower(p.sku.value), ToLower(query)))
  }

  /** The page narrows the list exactly as the server's cached-product
      search does, the empty query included. */
  lemma SearchAgreesWithServer(p: CachedProduct, query: string)
    ensures MatchesSearch(p, query) <==> ServerStorage.ProductMatches(p, ToLower(query))
  {
    if query == "" {
      assert ToLower(query) == "";
      ContainsEmpty(ToLower(p.name));
    }
  }

  /** The tab's own test; a tab other than the two stock tabs keeps every product. */
  predicate TabKeeps(p: CachedProduct, tab: string) {
    if tab == LowStockTab then IsLowStock(p)
    else if tab == OutOfStockTab then IsOutOfStock(p)
    else true
  }

  predicate Visible(p: CachedProduct, query: string, tab: string) {
    MatchesSearch(p, query) && TabKeeps(p, tab)
  }

  /** `filteredProducts`: no products while the list is loading; otherwise
      the products that match the query and the tab, in list order. */
  function FilteredProducts(products: Option<seq<CachedProduct>>, query: string, tab: string): (r: seq<CachedProduct>)
    ensures products.None? ==> r == []
    ensures products.Some? ==> IsSubsequence(r, products.value)
    ensures forall p :: p in r <==> products.Some? && p in products.value && Visible(p, query, tab)
  {
    if products.None? then []
    else
      var keep := (p: CachedProduct) => Visible(p, query, tab);
      FilterIsSubsequence(products.value, keep);
      Filter(products.value, keep)
  }

  datatype InventoryStats = InventoryStats(total: nat, lowStock: nat, outOfStock: nat, inStock: nat)

  /** `inventoryStats`: every count is 0 while the list is loading;
      otherwise each count is the number of listed products passing its test. */
  function StatsOf(products: Option<seq<CachedProduct>>): (r: InventoryStats)
    ensures products.None? ==> r == InventoryStats(0, 0, 0, 0)
    ensures products.Some? ==> r.total == |products.value|
    ensures products.Some? ==> r.lowStock == |Filter(products.value, IsLowStock)|
    ensures products.Some? ==> r.outOfStock == |Filter(products.value, IsOutOfStock)|
    ensures products.Some? ==> r.inStock == |Filter(products.value, IsInStock)|
    ensures r.lowStock <= r.total
    ensures r.inStock + r.outOfStock <= r.total
  {
    if products.None? then InventoryStats(0, 0, 0, 0)
    else
      var ps := products.value;
      CountExclusive(ps, IsInStock, IsOutOfStock);
      InventoryStats(|ps|, Count(ps, IsLowStock), Count(ps, IsOutOfStock), Count(ps, IsInStock))
  }

  /** With no query, each tab lists exactly as many products as its count
      above the list says. */
  lemma {:induction false} TabsMatchStats(ps: seq<CachedProduct>)
    ensures |FilteredProducts(Some(ps), "", AllTab)| == StatsOf(Some(ps)).total
    ensures |FilteredProducts(Some(ps), "", LowStockTab)| == StatsOf(Some(ps)).lowStock
    ensures |FilteredProducts(Some(ps), "", OutOfStockTab)| == StatsOf(Some(ps)).outOfStock
  {
    FilterExtensional(ps, (p: CachedProduct) => Visible(p, "", AllTab), (p: CachedProduct) => true);
    FilterAll(ps);
    FilterExtensional(ps, (p: CachedProduct) => Visible(p, "", LowStockTab), IsLowStock);
    FilterExtensional(ps, (p: CachedProduct) => Visible(p, "", OutOfStockTab), IsOutOfStock);
  }

  /** The in-stock tab is labelled with the in-stock count but has no test of
      its own: with no query it lists every product, so as soon as one
      product is not in stock it lists more products than its label says. */
  lemma InStockTabListsEverything(ps: seq<CachedProduct>)
    ensures |FilteredProducts(Some(ps), "", InStockTab)| == StatsOf(Some(ps)).total
    ensures (exists i :: 0 <= i < |ps| && !IsInStock(ps[i])) ==>
      |FilteredProducts(Some(ps), "", InStockTab)| > StatsOf(Some(ps)).inStock
  {
    FilterExtensional(ps, (p: CachedProduct) => Visible(p, "", InStockTab), (p: CachedProduct) => true);
    FilterAll(ps);
    if i :| 0 <= i < |ps| && !IsInStock(ps[i]) {
      CountMissesOne(ps, IsInStock, i);
    }
  }

  lemma {:induction false} FilterAll(ps: seq<CachedProduct>)
    ensures Filter(ps, (p: CachedProduct) => true) == ps
  {
    if ps != [] {
      FilterAll(ps[1..]);
    }
  }

  datatype StockBadge = OutOfStockBadge | LowStockBadge | InStockBadge

  /** `getStockStatusBadge`: out of stock first, then low stock, then in stock. */
  function BadgeOf(p: CachedProduct): (b: StockBadge)
    ensures b == OutOfStockBadge <==> IsOutOfStock(p)
    ensures b == LowStockBadge <==> IsLowStock(p) && !IsOutOfStock(p)
    ensures b == InStockBadge <==> !IsLowStock(p) && !IsOutOfStock(p)
  {
    if IsOutOfStock(p) then OutOfStockBadge
    else if IsLowStock(p) then LowStockBadge
    else InStockBadge
  }

  /** `getStockLevel`: a known quantity as its decimal text (with a minus
      sign when negative), which never reads as a word; without a quantity,
      "Available" exactly for products in stock and "Unavailable" otherwise. */
  function StockLevel(p: CachedProduct): (r: string)
    ensures |r| > 0
    ensures p.stockQuantity.Some? && p.stockQuantity.value >= 0 ==>
      AllDigits(r) && DecimalValue(r) == p.stockQuantity.value
    ensures p.stockQuantity.Some? && p.stockQuantity.value < 0 ==>
      r[0] == '-' && AllDigits(r[1..]) && DecimalValue(r[1..]) == -p.stockQuantity.value
    ensures p.stockQuantity.Some? ==> r != "Available" && r != "Unavailable"
    ensures p.stockQuantity.None? ==> (r == "Available" <==> IsInStock(p))
    ensures p.stockQuantity.None? ==> (r == "Available" || r == "Unavailable")
  {
    if p.stockQuantity.None? then (if IsInStock(p) then "Available" else "Unavailable")
    else
      var s := IntToString(p.stockQuantity.value);
      assert s[0] != 'A' && s[0] != 'U';
      s
  }
}
