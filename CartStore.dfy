/** The point-of-sale cart: its lines, the discount, the totals derived from
    them, the chosen customer and payment method. Amounts are in cents. */
module CartStore {
  import opened Wrappers
  import opened Money
  import opened Collections
  import opened Schema

  /** One cart line; `price` and `subtotal` in cents. */
  datatype CartItem = CartItem(
    id: int, name: string, sku: Option<string>, price: int, quantity: int, subtotal: int,
    image: Option<string>)

  /** The customer the cart is rung up for. */
  datatype SelectedCustomer = SelectedCustomer(id: string, name: string, email: string)

  const DefaultPaymentMethod: string := "cash"

  /** The tax rate, in tenths. */
  const TaxTenths: int := 1

  /** `parseFloat(product.price) || 0`, in cents. */
  function PriceOf(p: CachedProduct): int {
    ParseCentsOrZero(p.price.GetOr(""))
  }

  /** `product.images?.[0]?.src` */
  function FirstImage(p: CachedProduct): Option<string> {
    if p.images.Some? && |p.images.value| > 0 then Some(p.images.value[0].src) else None
  }

  /** The line a product starts with: one unit at its price. */
  function NewLine(p: CachedProduct): (r: CartItem)
    ensures r.id == p.id && r.quantity == 1 && r.price == PriceOf(p) && r.subtotal == r.price
  {
    CartItem(p.id, p.name, p.sku, PriceOf(p), 1, PriceOf(p), FirstImage(p))
  }

  /** The sum of the line subtotals: 0 for no lines, and with no negative
      subtotal it is at least each line's subtotal. */
  function LinesTotal(items: seq<CartItem>): (r: int)
    ensures items == [] ==> r == 0
    ensures (forall i :: 0 <= i < |items| ==> items[i].subtotal >= 0) ==>
      r >= 0 && forall i :: 0 <= i < |items| ==> items[i].subtotal <= r
    decreases |items|
  {
    if items == [] then 0 else LinesTotal(items[..|items| - 1]) + items[|items| - 1].subtotal
  }

  /** `Math.round((subtotal - discount) * 0.1 * 100) / 100`, in cents. */
  function TaxOf(base: int): (t: int)
    ensures 20 * t <= 2 * base + 10 < 20 * (t + 1)
  {
    RoundHalfUp(base * TaxTenths, 10)
  }

  /** `Math.round((subtotal - discount + unrounded tax) * 100) / 100`, in cents. */
  function TotalOf(base: int): (t: int)
    ensures 20 * t <= 22 * base + 10 < 20 * (t + 1)
  {
    RoundHalfUp(base * (10 + TaxTenths), 10)
  }

  /** The total is the discounted subtotal plus the rounded tax, to the cent:
      rounding the unrounded sum gives the same as adding the rounded tax. */
  lemma TotalIsBasePlusTax(base: int)
    ensures TotalOf(base) == base + TaxOf(base)
  {
    var t := TaxOf(base);
    assert 20 * (base + t) <= 22 * base + 10 < 20 * (base + t + 1);
  }

  /** No clamp: a discount more than five cents above the subtotal makes both
      the tax and the total negative. */
  lemma DiscountAboveSubtotalGoesNegative(subtotal: int, discount: int)
    requires discount > subtotal + 5
    ensures TaxOf(subtotal - discount) < 0 && TotalOf(subtotal - discount) < 0
  {
    TotalIsBasePlusTax(subtotal - discount);
  }

  /** $30.00 of goods with a $5.00 discount: $2.50 tax, $27.50 total. */
  lemma ThirtyLessFiveExample()
    ensures TaxOf(3000 - 500) == 250 && TotalOf(3000 - 500) == 2750
  {
  }

  /** No two lines share a product id. */
  ghost predicate DistinctIds(items: seq<CartItem>) {
    forall i, j :: 0 <= i < j < |items| ==> items[i].id != items[j].id
  }

  /** Every line holds at least one unit and its subtotal is price times quantity. */
  ghost predicate WellFormedLines(items: seq<CartItem>) {
    forall i :: 0 <= i < |items| ==> items[i].quantity >= 1 && items[i].subtotal == items[i].price * items[i].quantity
  }

  /** `items.filter(item => item.id !== productId)` */
  function Without(items: seq<CartItem>, id: int): (r: seq<CartItem>)
    ensures |r| <= |items|
    ensures forall x :: x in r <==> x in items && x.id != id
    decreases |items|
  {
    if items == [] then []
    else (if items[0].id != id then [items[0]] else []) + Without(items[1..], id)
  }

  /** Removing keeps the remaining lines in their order, and no id appears twice. */
  lemma {:induction false} WithoutKeepsOrder(items: seq<CartItem>, id: int)
    requires DistinctIds(items)
    ensures DistinctIds(Without(items, id))
    ensures IsSubsequence(Without(items, id), items)
    decreases |items|
  {
    if items != [] {
      WithoutKeepsOrder(items[1..], id);
      var rest := Without(items[1..], id);
      var r := Without(items, id);
      if items[0].id != id {
        assert r == [items[0]] + rest;
        assert items[0] !in rest by {
          forall x | x in rest ensures x != items[0] {
            assert x in items[1..];
            var k :| 0 <= k < |items[1..]| && items[1..][k] == x;
            assert items[k + 1] == x;
          }
        }
        forall i, j | 0 <= i < j < |r| ensures r[i].id != r[j].id {
          if i == 0 {
            assert r[j] == rest[j - 1];
            assert r[j] in items[1..];
            var k :| 0 <= k < |items[1..]| && items[1..][k] == r[j];
            assert items[k + 1] == r[j];
          } else {
            assert r[i] == rest[i - 1] && r[j] == rest[j - 1];
          }
        }
        assert r[1..] == rest;
      } else {
        assert r == rest;
        assert r != [] ==> r[0] != items[0];
      }
    }
  }

  /** The lines after `updateQuantity(id, q)` with `q > 0`: the lines with
      that id take the quantity and its subtotal, the others are unchanged. */
  function WithQuantity(items: seq<CartItem>, id: int, q: int): (r: seq<CartItem>)
    ensures |r| == |items|
    ensures forall i :: 0 <= i < |items| ==>
      r[i] == if items[i].id == id then items[i].(quantity := q, subtotal := items[i].price * q) else items[i]
  {
    seq(|items|, i requires 0 <= i < |items| =>
      if items[i].id == id then items[i].(quantity := q, subtotal := items[i].price * q) else items[i])
  }

  /** Removing lines keeps every remaining line well formed. */
  lemma WithoutKeepsWellFormed(items: seq<CartItem>, id: int)
    requires WellFormedLines(items)
    ensures WellFormedLines(Without(items, id))
  {
    var r := Without(items, id);
    forall i | 0 <= i < |r| ensures r[i].quantity >= 1 && r[i].subtotal == r[i].price * r[i].quantity {
      assert r[i] in r;
      var k :| 0 <= k < |items| && items[k] == r[i];
    }
  }

  /** Setting a positive quantity keeps the ids and keeps every line well formed. */
  lemma WithQuantityKeepsLines(items: seq<CartItem>, id: int, q: int)
    requires DistinctIds(items) && WellFormedLines(items) && q >= 1
    ensures DistinctIds(WithQuantity(items, id, q)) && WellFormedLines(WithQuantity(items, id, q))
  {
    var r := WithQuantity(items, id, q);
    assert forall i :: 0 <= i < |r| ==> r[i].id == items[i].id;
  }

  /** Appending a line for a new id keeps the lines distinct and well formed
      and adds its subtotal to the sum. */
  lemma AppendKeepsLines(items: seq<CartItem>, x: CartItem)
    requires DistinctIds(items) && WellFormedLines(items)
    requires forall i :: 0 <= i < |items| ==> items[i].id != x.id
    requires x.quantity >= 1 && x.subtotal == x.price * x.quantity
    ensures DistinctIds(items + [x]) && WellFormedLines(items + [x])
    ensures LinesTotal(items + [x]) == LinesTotal(items) + x.subtotal
  {
    assert (items + [x])[..|items|] == items;
  }

  /** `items.find(item => item.id === id)` as a position: the first line
      with that id, or `|items|` when there is none. */
  function IndexOfId(items: seq<CartItem>, id: int): (k: nat)
    ensures k <= |items|
    ensures forall i :: 0 <= i < k ==> items[i].id != id
    ensures k < |items| ==> items[k].id == id
    decreases |items|
  {
    if items == [] then 0 else if items[0].id == id then 0 else 1 + IndexOfId(items[1..], id)
  }

  /** With distinct ids, setting the quantity of a product in the cart
      rewrites its one line and leaves every other line as it was. */
  lemma WithQuantityRewritesOneLine(items: seq<CartItem>, id: int, q: int)
    requires DistinctIds(items) && IndexOfId(items, id) < |items|
    ensures var k := IndexOfId(items, id);
      WithQuantity(items, id, q) == items[k := items[k].(quantity := q, subtotal := items[k].price * q)]
  {
    var k := IndexOfId(items, id);
    assert forall i :: 0 <= i < |items| && i != k ==> items[i].id != id;
  }

  /** The cart store. */
  class Cart {
    var items: seq<CartItem>
    var subtotal: int
    var discount: int
    var tax: int
    var total: int
    var selectedCustomer: Option<SelectedCustomer>
    var paymentMethod: string

    /** Lines are distinct and well formed, and the totals are those of the
        lines and the discount. */
    ghost predicate Valid()
      reads this
    {
      && DistinctIds(items) && WellFormedLines(items)
      && subtotal == LinesTotal(items)
      && tax == TaxOf(subtotal - discount)
      && total == TotalOf(subtotal - discount)
    }

    constructor ()
      ensures Valid()
      ensures items == [] && subtotal == 0 && discount == 0 && tax == 0 && total == 0
      ensures selectedCustomer.None? && paymentMethod == DefaultPaymentMethod
    {
      items := [];
      subtotal := 0;
      discount := 0;
      tax := 0;
      total := 0;
      selectedCustomer := None;
      paymentMethod := DefaultPaymentMethod;
    }

    /** `calculateTotals`: subtotal, tax and total from the lines and the discount. */
    method CalculateTotals()
      modifies this`subtotal, this`tax, this`total
      ensures subtotal == LinesTotal(items)
      ensures tax == TaxOf(subtotal - discount) && total == TotalOf(subtotal - discount)
      ensures total == subtotal - discount + tax
    {
      subtotal := LinesTotal(items);
      tax := TaxOf(subtotal - discount);
      total := TotalOf(subtotal - discount);
      TotalIsBasePlusTax(subtotal - discount);
    }

    /** `removeItem`: every line with that id goes, the rest keep their order. */
    method RemoveItem(id: int)
      requires Valid()
      modifies this`items, this`subtotal, this`tax, this`total
      ensures Valid()
      ensures items == Without(old(items), id)
      ensures forall x :: x in items <==> x in old(items) && x.id != id
      ensures IsSubsequence(items, old(items))
    {
      WithoutKeepsOrder(items, id);
      WithoutKeepsWellFormed(items, id);
      items := Without(items, id);
      CalculateTotals();
    }

    /** `updateQuantity`: a quantity of 0 or less removes the line; any
        other quantity is set on the line, with its subtotal, and nothing
        else changes. */
    method UpdateQuantity(id: int, q: int)
      requires Valid()
      modifies this`items, this`subtotal, this`tax, this`total
      ensures Valid()
      ensures q <= 0 ==> items == Without(old(items), id)
      ensures q > 0 ==> items == WithQuantity(old(items), id, q)
    {
      if q <= 0 {
        RemoveItem(id);
        return;
      }
      WithQuantityKeepsLines(items, id, q);
      items := WithQuantity(items, id, q);
      CalculateTotals();
    }

    /** `addItem`: a product already in the cart gets one more unit on its
        line (see `WithQuantityRewritesOneLine`) and no new line; any other
        product is appended as a line of one unit. */
    method AddItem(p: CachedProduct)
      requires Valid()
      modifies this`items, this`subtotal, this`tax, this`total
      ensures Valid()
      ensures var k := IndexOfId(old(items), p.id);
        && (k < |old(items)| ==> items == WithQuantity(old(items), p.id, old(items)[k].quantity + 1))
        && (k == |old(items)| ==> items == old(items) + [NewLine(p)] && subtotal == old(subtotal) + PriceOf(p))
    {
      var k := IndexOfId(items, p.id);
      if k < |items| {
        UpdateQuantity(p.id, items[k].quantity + 1);
      } else {
        AppendKeepsLines(items, NewLine(p));
        items := items + [NewLine(p)];
        CalculateTotals();
      }
    }

    /** `setDiscount`: the discount, then the totals again. */
    method SetDiscount(d: int)
      requires Valid()
      modifies this`discount, this`subtotal, this`tax, this`total
      ensures Valid()
      ensures discount == d && items == old(items)
      ensures total == LinesTotal(items) - d + TaxOf(LinesTotal(items) - d)
    {
      discount := d;
      CalculateTotals();
    }

    /** `setCustomer`: the totals are not recomputed and need not be. */
    method SetCustomer(c: Option<SelectedCustomer>)
      requires Valid()
      modifies this`selectedCustomer
      ensures Valid() && selectedCustomer == c
    {
      selectedCustomer := c;
    }

    method SetPaymentMethod(m: string)
      requires Valid()
      modifies this`paymentMethod
      ensures Valid() && paymentMethod == m
    {
      paymentMethod := m;
    }

    /** `clearCart`: no lines, every amount 0, no customer, paying cash. */
    method ClearCart()
      modifies this
      ensures Valid()
      ensures items == [] && subtotal == 0 && discount == 0 && tax == 0 && total == 0
      ensures selectedCustomer.None? && paymentMethod == DefaultPaymentMethod
    {
      items := [];
      subtotal := 0;
      discount := 0;
      tax := 0;
      total := 0;
      selectedCustomer := None;
      paymentMethod := DefaultPaymentMethod;
    }
  }
}
