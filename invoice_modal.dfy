/**
 * The figures printed on an invoice (components/InvoiceModal.tsx): the
 * subtotal recomputed from the lines, the discount, the paid amount with its
 * `??` default, the remaining balance (which may be negative) and the
 * "LUNAS" badge.
 */
module InvoiceModal {

  import opened Seqs
  import opened Types
  import opened Payment

  /** The value of one line, price times quantity. */
  function LineValue(i: TransactionItem): int
  {
    i.price * i.quantity
  }

  /** `items.reduce((acc, item) => acc + item.price * item.quantity, 0)`. */
  function LinesTotal(items: seq<TransactionItem>): (r: int)
    ensures (forall i :: 0 <= i < |items| ==> items[i].price >= 0 && items[i].quantity >= 0) ==> r >= 0
  {
    assert (forall i :: 0 <= i < |items| ==> items[i].price >= 0 && items[i].quantity >= 0) ==>
      SumOf(items, LineValue) >= 0 by {
      if forall i :: 0 <= i < |items| ==> items[i].price >= 0 && items[i].quantity >= 0 {
        SumOfAtLeast(items, LineValue, 0);
      }
    }
    SumOf(items, LineValue)
  }

  /** What the invoice shows. */
  datatype InvoiceFigures = InvoiceFigures(
    subtotal: int,
    discount: int,
    total: int,
    paid: int,
    remaining: int,
    showDiscountRows: bool,
    badge: Badge)

  /**
   * The invoice of a transaction. A missing discount reads as 0; a missing
   * paid amount reads as the total for a Lunas transaction and 0 otherwise,
   * while a recorded 0 is kept. The subtotal and discount rows appear only
   * for a positive discount; "LUNAS" appears exactly when the paid amount
   * reaches the total, and for a consistent transaction exactly when its
   * status is Lunas.
   */
  function Figures(t: Transaction): (f: InvoiceFigures)
    ensures f.subtotal == LinesTotal(t.items) && f.total == t.totalAmount
    ensures t.discount.None? ==> f.discount == 0
    ensures t.discount.Some? ==> f.discount == t.discount.value
    ensures t.paidAmount.Some? ==> f.paid == t.paidAmount.value
    ensures t.paidAmount.None? ==> f.paid == (if t.status == Lunas then t.totalAmount else 0)
    ensures f.remaining == t.totalAmount - f.paid
    ensures f.showDiscountRows <==> t.discount.Some? && t.discount.value > 0
    ensures f.badge == Settled <==> f.paid >= t.totalAmount
    ensures f.badge.Outstanding? ==> f.badge.amount == f.remaining
    ensures Consistent(t) ==> (f.badge == Settled <==> t.status == Lunas)
  {
    var discount := OrElse(t.discount, 0);
    var paid := EffectivePaid(t);
    var remaining := t.totalAmount - paid;
    InvoiceFigures(LinesTotal(t.items), discount, t.totalAmount, paid, remaining, discount > 0, PaymentBadge(remaining))
  }
}
