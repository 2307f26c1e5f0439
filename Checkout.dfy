/** The cart panel's actions: applying a typed discount, changing a line's
    quantity, choosing the customer, and checking out, which turns the cart
    into an order request and empties the cart once the request succeeds. */
module Checkout {
  import opened Wrappers
  import opened Money
  import opened CartStore

  const WalkInName: string := "Walk-in Customer"
  const WalkInChoice: string := "walk-in"
  const CompletedStatus: string := "completed"
  const NoChange: string := "0.00"

  /** The placeholder customer the panel selects for any choice but walk-in. */
  const PlaceholderName: string := "Customer Name"
  const PlaceholderEmail: string := "customer@email.com"

  /** One line of the order request: the cart line without its image. */
  datatype CheckoutLine = CheckoutLine(id: int, name: string, sku: Option<string>, price: int, quantity: int, subtotal: int)

  /** The body of the order request; amounts are written as `toString` writes them. */
  datatype CheckoutOrder = CheckoutOrder(
    customerId: Option<string>,
    customerName: string,
    customerEmail: Option<string>,
    status: string,
    items: seq<CheckoutLine>,
    subtotal: string,
    discount: string,
    tax: string,
    total: string,
    paymentMethod: string,
    amountPaid: string,
    change: string,
    receiptPrinted: bool)

  /** `x || fallback` on an optional string: an absent or empty string gives the fallback. */
  function OrElse(s: Option<string>, fallback: Option<string>): (r: Option<string>)
    ensures s.Some? && s.value != "" ==> r == s
    ensures (s.None? || s.value == "") ==> r == fallback
  {
    if s.Some? && s.value != "" then s else fallback
  }

  function LineOf(item: CartItem): CheckoutLine {
    CheckoutLine(item.id, item.name, item.sku, item.price, item.quantity, item.subtotal)
  }

  function LinesOf(items: seq<CartItem>): (r: seq<CheckoutLine>)
    ensures |r| == |items|
    ensures forall i :: 0 <= i < |items| ==> r[i] == LineOf(items[i])
  {
    seq(|items|, i requires 0 <= i < |items| => LineOf(items[i]))
  }

  function IdOf(c: Option<SelectedCustomer>): Option<string> {
    if c.Some? then Some(c.value.id) else None
  }

  function NameOf(c: Option<SelectedCustomer>): Option<string> {
    if c.Some? then Some(c.value.name) else None
  }

  function EmailOf(c: Option<SelectedCustomer>): Option<string> {
    if c.Some? then Some(c.value.email) else None
  }

  /** The order request built from the cart's state: one line per cart
      line, a customer name always present, the paid amount equal to the
      total, and the payment method as chosen. */
  function OrderFor(items: seq<CartItem>, subtotal: int, discount: int, tax: int, total: int,
                    customer: Option<SelectedCustomer>, paymentMethod: string): (r: CheckoutOrder)
    ensures |r.items| == |items| && r.customerName != ""
    ensures r.amountPaid == r.total && r.paymentMethod == paymentMethod
  {
    CheckoutOrder(
      OrElse(IdOf(customer), None),
      OrElse(NameOf(customer), Some(WalkInName)).GetOr(WalkInName),
      OrElse(EmailOf(customer), None),
      CompletedStatus,
      LinesOf(items),
      FormatCents(subtotal), FormatCents(discount), FormatCents(tax), FormatCents(total),
      paymentMethod,
      FormatCents(total),
      NoChange,
      false)
  }

  /** Without a customer, or with one whose fields are empty, the order is
      a walk-in sale: no customer id, the walk-in name, no email. */
  lemma WalkInOrder(items: seq<CartItem>, subtotal: int, discount: int, tax: int, total: int,
                    customer: Option<SelectedCustomer>, paymentMethod: string)
    requires customer.None? || (customer.value.id == "" && customer.value.name == "" && customer.value.email == "")
    ensures var o := OrderFor(items, subtotal, discount, tax, total, customer, paymentMethod);
      o.customerId.None? && o.customerName == WalkInName && o.customerEmail.None?
  {
  }

  /** A selected customer's non-empty fields are sent as they are. */
  lemma SelectedCustomerOrder(items: seq<CartItem>, subtotal: int, discount: int, tax: int, total: int,
                              c: SelectedCustomer, paymentMethod: string)
    requires c.id != "" && c.name != "" && c.email != ""
    ensures var o := OrderFor(items, subtotal, discount, tax, total, Some(c), paymentMethod);
      o.customerId == Some(c.id) && o.customerName == c.name && o.customerEmail == Some(c.email)
  {
  }

  /** The server reads back every amount of the request exactly, the paid
      amount is the total, and the amounts read back still satisfy
      total = subtotal - discount + tax whenever the cart's totals did. */
  lemma {:induction false} OrderAmountsRoundTrip(items: seq<CartItem>, subtotal: int, discount: int, tax: int, total: int,
                                                 customer: Option<SelectedCustomer>, paymentMethod: string)
    requires total == subtotal - discount + tax
    ensures var o := OrderFor(items, subtotal, discount, tax, total, customer, paymentMethod);
      && ParseCents(o.subtotal) == Some(subtotal)
      && ParseCents(o.discount) == Some(discount)
      && ParseCents(o.tax) == Some(tax)
      && ParseCents(o.total) == Some(total)
      && ParseCents(o.amountPaid) == ParseCents(o.total)
      && o.status == CompletedStatus && o.change == NoChange && !o.receiptPrinted
      && ParseCents(o.total).value == ParseCents(o.subtotal).value - ParseCents(o.discount).value + ParseCents(o.tax).value
  {
    FormatParseRoundTrip(subtotal);
    FormatParseRoundTrip(discount);
    FormatParseRoundTrip(tax);
    FormatParseRoundTrip(total);
  }

  /** The request lists the cart's lines in order, and the line subtotals
      it carries add up to the cart's subtotal. */
  lemma {:induction false} OrderLinesMatchCart(items: seq<CartItem>)
    ensures |LinesOf(items)| == |items|
    ensures forall i :: 0 <= i < |items| ==>
      LinesOf(items)[i].id == items[i].id && LinesOf(items)[i].quantity == items[i].quantity
    ensures LineSubtotals(LinesOf(items)) == LinesTotal(items)
    decreases |items|
  {
    if items != [] {
      var n := |items| - 1;
      OrderLinesMatchCart(items[..n]);
      assert LinesOf(items)[..n] == LinesOf(items[..n]);
    }
  }

  /** The sum of the subtotals a request carries. */
  function LineSubtotals(lines: seq<CheckoutLine>): int
    decreases |lines|
  {
    if lines == [] then 0 else LineSubtotals(lines[..|lines| - 1]) + lines[|lines| - 1].subtotal
  }

  /** `applyDiscount`: the typed text read as an amount, 0 when it is not one. */
  method ApplyDiscount(cart: Cart, input: string)
    requires cart.Valid()
    modifies cart`discount, cart`subtotal, cart`tax, cart`total
    ensures cart.Valid()
    ensures cart.discount == ParseCentsOrZero(input) && cart.items == old(cart.items)
  {
    cart.SetDiscount(ParseCentsOrZero(input));
  }

  /** Typing an amount as it is displayed applies exactly that amount. */
  lemma TypedDiscountIsApplied(d: int)
    ensures ParseCentsOrZero(FormatCents(d)) == d
  {
    FormatParseRoundTrip(d);
  }

  /** `handleQuantityChange`: a quantity below 1 is ignored, so the panel
      never removes a line through this control. */
  method HandleQuantityChange(cart: Cart, id: int, q: int)
    requires cart.Valid()
    modifies cart`items, cart`subtotal, cart`tax, cart`total
    ensures cart.Valid()
    ensures q < 1 ==> cart.items == old(cart.items)
    ensures q >= 1 ==> cart.items == WithQuantity(old(cart.items), id, q)
    ensures |cart.items| == |old(cart.items)|
    ensures forall i :: 0 <= i < |cart.items| ==> cart.items[i].id == old(cart.items)[i].id
  {
    if q < 1 {
      return;
    }
    cart.UpdateQuantity(id, q);
  }

  /** `handleCustomerChange`: the walk-in choice clears the customer; any
      other choice selects a placeholder customer with that id. */
  method HandleCustomerChange(cart: Cart, choice: string)
    requires cart.Valid()
    modifies cart`selectedCustomer
    ensures cart.Valid()
    ensures choice == WalkInChoice ==> cart.selectedCustomer.None?
    ensures choice != WalkInChoice ==> cart.selectedCustomer == Some(SelectedCustomer(choice, PlaceholderName, PlaceholderEmail))
  {
    if choice == WalkInChoice {
      cart.SetCustomer(None);
    } else {
      cart.SetCustomer(Some(SelectedCustomer(choice, PlaceholderName, PlaceholderEmail)));
    }
  }

  /** `processCheckout`. An empty cart sends nothing and changes nothing.
      Otherwise the order built from the cart is sent; `outcome` is the
      server's answer (the new order's number, or the failure). The cart is
      cleared when the order was accepted and kept as it was otherwise, so
      a failed checkout can be retried. */
  method ProcessCheckout(cart: Cart, outcome: Result<string>) returns (sent: Option<CheckoutOrder>)
    requires cart.Valid()
    modifies cart
    ensures cart.Valid()
    ensures old(cart.items) == [] ==> sent.None?
    ensures old(cart.items) != [] ==> sent == Some(OrderFor(old(cart.items), old(cart.subtotal), old(cart.discount),
      old(cart.tax), old(cart.total), old(cart.selectedCustomer), old(cart.paymentMethod)))
    ensures (old(cart.items) == [] || outcome.Err?) ==> unchanged(cart)
    ensures old(cart.items) != [] && outcome.Ok? ==>
      && cart.items == [] && cart.total == 0 && cart.discount == 0 && cart.selectedCustomer.None?
      && cart.paymentMethod == DefaultPaymentMethod
  {
    if cart.items == [] {
      return None;
    }
    sent := Some(OrderFor(cart.items, cart.subtotal, cart.discount, cart.tax, cart.total,
      cart.selectedCustomer, cart.paymentMethod));
    if outcome.Ok? {
      cart.ClearCart();
    }
  }
}
