/**
 * The payment rules shared by the cart, the ledger, the invoice and the
 * transaction editor: how a status follows from total and paid amount,
 * the `??` default of a missing paid amount, the `||` reading of an
 * optional number, and the settled / outstanding badge.
 */
module Payment {

  import opened Seqs
  import opened Types

  /**
   * The status rule of checkout and of the transaction edit: paid in full
   * when the paid amount reaches the total (so also when both are 0), a down
   * payment when something but not all is paid, otherwise pending.
   */
  function DeriveStatus(total: int, paid: int): (s: Status)
    ensures s == Lunas <==> paid >= total
    ensures s == DP <==> 0 < paid < total
    ensures s == Pending <==> paid < total && paid <= 0
  {
    if paid >= total then Lunas
    else if paid > 0 then DP
    else Pending
  }

  /** Paying more never lowers the status (Pending, then DP, then Lunas). */
  lemma DeriveStatusMonotone(total: int, paid: int, more: int)
    requires paid <= more
    ensures Rank(DeriveStatus(total, paid)) <= Rank(DeriveStatus(total, more))
  {
  }

  function Rank(s: Status): nat
  {
    match s
    case Pending => 0
    case DP => 1
    case Lunas => 2
  }

  /** `o || d` for an optional number: 0 and absence are both falsy. */
  function OrElse(o: Option<int>, d: int): (r: int)
    ensures o.Some? && o.value != 0 ==> r == o.value
    ensures (o.None? || o.value == 0) ==> r == d
  {
    if o.Some? && o.value != 0 then o.value else d
  }

  /**
   * The amount a transaction counts as paid when shown or edited:
   * `paidAmount ?? (status === 'Lunas' ? totalAmount : 0)`, so a recorded 0 is kept.
   */
  function EffectivePaid(t: Transaction): (r: int)
    ensures t.paidAmount.Some? ==> r == t.paidAmount.value
    ensures t.paidAmount.None? && t.status == Lunas ==> r == t.totalAmount
    ensures t.paidAmount.None? && t.status != Lunas ==> r == 0
  {
    match t.paidAmount
    case Some(p) => p
    case None => if t.status == Lunas then t.totalAmount else 0
  }

  /** The stored status is the one the status rule gives for the amounts shown. */
  predicate Consistent(t: Transaction)
  {
    t.status == DeriveStatus(t.totalAmount, EffectivePaid(t))
  }

  /** The payment line of the invoice and of the edit form. */
  datatype Badge = Settled | Outstanding(amount: int)

  /** "LUNAS" when nothing remains (or too much was paid), else the amount still owed. */
  function PaymentBadge(remaining: int): (b: Badge)
    ensures b == Settled <==> remaining <= 0
    ensures b.Outstanding? ==> b.amount == remaining && b.amount > 0
  {
    if remaining > 0 then Outstanding(remaining) else Settled
  }

  /** For a consistent transaction, the badge says "LUNAS" exactly when the status is Lunas. */
  lemma BadgeAgreesWithStatus(t: Transaction)
    requires Consistent(t)
    ensures PaymentBadge(t.totalAmount - EffectivePaid(t)) == Settled <==> t.status == Lunas
  {
  }
}
