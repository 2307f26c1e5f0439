/** The stock-adjustment dialog: it shows the product's current stock and
    the stock an adjustment would leave, and submits positive adjustments
    for the chosen product. */
module StockAdjustmentDialog {
  import opened Wrappers
  import opened Schema

  datatype AdjustmentKind = Add | Subtract

  /** The kind as the request writes it. */
  function KindText(k: AdjustmentKind): (s: string)
    ensures s == "add" || s == "subtract"
  {
    match k
    case Add => "add"
    case Subtract => "subtract"
  }

  /** The request body posted for a product. */
  datatype AdjustmentRequest = AdjustmentRequest(productId: int, kind: string, amount: int, notes: Option<string>)

  /** `product?.stockQuantity || 0`: no product, no quantity and a quantity of
      0 all show as 0. */
  function CurrentStock(product: Option<CachedProduct>): (r: int)
    ensures product.None? || product.value.stockQuantity.None? ==> r == 0
    ensures product.Some? && product.value.stockQuantity.Some? ==> r == product.value.stockQuantity.value
  {
    if product.Some? && product.value.stockQuantity.Some? then product.value.stockQuantity.value else 0
  }

  /** The other kind of adjustment. */
  function Opposite(k: AdjustmentKind): AdjustmentKind {
    match k
    case Add => Subtract
    case Subtract => Add
  }

  /** `calculateNewStock(amount)`: the preview of the stock after the
      adjustment, which moves the current stock by the amount, up for an
      addition and down for a subtraction. */
  function NewStock(current: int, kind: AdjustmentKind, amount: int): (r: int)
    ensures r - current == (if kind == Add then amount else -amount)
  {
    match kind
    case Add => current + amount
    case Subtract => current - amount
  }

  /** The opposite adjustment of the same amount restores the stock. */
  lemma OppositeAdjustmentRestores(current: int, kind: AdjustmentKind, amount: int)
    ensures NewStock(NewStock(current, kind, amount), Opposite(kind), amount) == current
  {
  }

  /** A positive adjustment moves the preview in its direction. */
  lemma PositiveAdjustmentMoves(current: int, kind: AdjustmentKind, amount: int)
    requires amount > 0
    ensures kind == Add ==> NewStock(current, kind, amount) > current
    ensures kind == Subtract ==> NewStock(current, kind, amount) < current
  {
  }

  /** Nothing keeps the preview from going below zero: subtracting more than
      is in stock shows a negative stock. */
  lemma PreviewCanGoNegative(current: int, amount: int)
    requires amount > current
    ensures NewStock(current, Subtract, amount) < 0
  {
  }

  /** The request a submission sends, if any: none for an amount of 0 or
      less, and none without a product (reading its id fails before
      anything is sent). */
  function RequestFor(product: Option<CachedProduct>, kind: AdjustmentKind, amount: int, notes: Option<string>): (r: Option<AdjustmentRequest>)
    ensures r.Some? <==> amount > 0 && product.Some?
    ensures r.Some? ==> (r.value.productId == product.value.id && r.value.amount == amount
      && r.value.kind == KindText(kind) && r.value.notes == notes)
  {
    if amount <= 0 || product.None? then None
    else Some(AdjustmentRequest(product.value.id, KindText(kind), amount, notes))
  }

  class Dialog {
    var open: bool
    var product: Option<CachedProduct>
    var adjustmentType: AdjustmentKind
    var amount: int
    var notes: Option<string>

    /** The dialog starts adding, with an amount of 0 and empty notes. */
    constructor (open: bool, product: Option<CachedProduct>)
      ensures this.open == open && this.product == product
      ensures adjustmentType == Add && amount == 0 && notes == Some("")
    {
      this.open := open;
      this.product := product;
      adjustmentType := Add;
      amount := 0;
      notes := Some("");
    }

    method SetAdjustmentType(k: AdjustmentKind)
      modifies this`adjustmentType
      ensures adjustmentType == k
    {
      adjustmentType := k;
    }

    /** `onSubmit` with the form's values; `accepted` is whether the server
        took the request. An accepted request closes the dialog and resets
        the form; the kind chosen stays. A rejected one leaves everything. */
    method OnSubmit(accepted: bool) returns (sent: Option<AdjustmentRequest>)
      modifies this`open, this`amount, this`notes
      ensures sent == RequestFor(product, adjustmentType, old(amount), old(notes))
      ensures sent.Some? && accepted ==> !open && amount == 0 && notes == Some("")
      ensures sent.None? || !accepted ==> open == old(open) && amount == old(amount) && notes == old(notes)
    {
      if amount <= 0 {
        return None;
      }
      if product.None? {
        return None;
      }
      sent := Some(AdjustmentRequest(product.value.id, KindText(adjustmentType), amount, notes));
      if accepted {
        open := false;
        amount := 0;
        notes := Some("");
      }
    }
  }
}
