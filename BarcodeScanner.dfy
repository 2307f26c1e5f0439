/** The sales screen's scan box: a code or search text is looked up as a
    barcode first and as a product search second, and the product found is
    added to the cart. */
module BarcodeScanner {
  import opened Wrappers
  import opened Text
  import opened Schema
  import opened CartStore

  /** What the scan box reports after a search. */
  datatype ScanOutcome = Added(product: CachedProduct) | NotFound | SearchFailed | Ignored

  /** The outcome of a search for `query`. `byBarcode` is the barcode
      lookup's answer (`None` when it failed, for a missing product or any
      other reason); `bySearch` is the answer of the one-product search the
      box falls back to, which is made only when the barcode lookup failed. */
  function OutcomeFor(query: string, byBarcode: Option<CachedProduct>, bySearch: Result<seq<CachedProduct>>): (r: ScanOutcome)
    ensures r == Ignored <==> IsBlank(query)
    ensures !IsBlank(query) && byBarcode.Some? ==> r == Added(byBarcode.value)
    ensures r == SearchFailed <==> !IsBlank(query) && byBarcode.None? && bySearch.Err?
    ensures r.Added? && byBarcode.None? ==> bySearch.Ok? && |bySearch.value| > 0 && r.product == bySearch.value[0]
  {
    if IsBlank(query) then Ignored
    else if byBarcode.Some? then Added(byBarcode.value)
    else if bySearch.Err? then SearchFailed
    else if |bySearch.value| > 0 then Added(bySearch.value[0])
    else NotFound
  }

  /** A product is reported missing only when neither lookup found one. */
  lemma NotFoundMeansBothEmpty(query: string, byBarcode: Option<CachedProduct>, bySearch: Result<seq<CachedProduct>>)
    requires OutcomeFor(query, byBarcode, bySearch) == NotFound
    ensures !IsBlank(query) && byBarcode.None? && bySearch == Ok([])
  {
  }

  class Scanner {
    var searchQuery: string
    var isScanning: bool

    constructor ()
      ensures searchQuery == "" && !isScanning
    {
      searchQuery := "";
      isScanning := false;
    }

    method SetSearchQuery(q: string)
      modifies this`searchQuery
      ensures searchQuery == q
    {
      searchQuery := q;
    }

    /** `handleSearch`: a found product is added to the cart once and the
        box is emptied; in every other case the box and the cart stay. */
    method HandleSearch(cart: Cart, byBarcode: Option<CachedProduct>, bySearch: Result<seq<CachedProduct>>)
      returns (outcome: ScanOutcome)
      requires cart.Valid()
      modifies this`searchQuery, cart`items, cart`subtotal, cart`tax, cart`total
      ensures cart.Valid()
      ensures outcome == OutcomeFor(old(searchQuery), byBarcode, bySearch)
      ensures outcome.Added? ==> searchQuery == "" && var k := IndexOfId(old(cart.items), outcome.product.id);
        && (k < |old(cart.items)| ==> cart.items == WithQuantity(old(cart.items), outcome.product.id, old(cart.items)[k].quantity + 1))
        && (k == |old(cart.items)| ==> cart.items == old(cart.items) + [NewLine(outcome.product)])
      ensures !outcome.Added? ==> searchQuery == old(searchQuery) && cart.items == old(cart.items) && cart.total == old(cart.total)
    {
      if IsBlank(searchQuery) {
        return Ignored;
      }
      var product: Option<CachedProduct> := byBarcode;
      if product.None? {
        if bySearch.Err? {
          return SearchFailed;
        }
        if |bySearch.value| > 0 {
          product := Some(bySearch.value[0]);
        }
      }
      if product.Some? {
        cart.AddItem(product.value);
        searchQuery := "";
        return Added(product.value);
      }
      return NotFound;
    }

    /** `handleKeyPress`: only the Enter key starts a search. */
    method HandleKeyPress(key: string, cart: Cart, byBarcode: Option<CachedProduct>, bySearch: Result<seq<CachedProduct>>)
      returns (outcome: ScanOutcome)
      requires cart.Valid()
      modifies this`searchQuery, cart`items, cart`subtotal, cart`tax, cart`total
      ensures cart.Valid()
      ensures key == "Enter" ==> outcome == OutcomeFor(old(searchQuery), byBarcode, bySearch)
      ensures key != "Enter" ==> outcome == Ignored && searchQuery == old(searchQuery) && cart.items == old(cart.items)
    {
      if key == "Enter" {
        outcome := HandleSearch(cart, byBarcode, bySearch);
      } else {
        outcome := Ignored;
      }
    }

    /** `toggleScanner`: flips the scanning flag; no camera is driven. */
    method ToggleScanner()
      modifies this`isScanning
      ensures isScanning == !old(isScanning)
    {
      isScanning := !isScanning;
    }
  }
}
