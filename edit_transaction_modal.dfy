/**
 * The form that corrects the total and the paid amount of a recorded
 * transaction (components/EditTransactionModal.tsx): its two number fields,
 * the balance panel with its overpayment notice, and saving back to the
 * ledger, where the status is derived again.
 */
module EditTransactionModal {

  import opened Seqs
  import opened Types
  import opened Payment
  import opened App

  /** What the balance panel shows: an amount still owed or "LUNAS", and the overpayment notice. */
  datatype BalancePanel = BalancePanel(badge: Badge, overpayment: Option<int>)

  /**
   * The panel for the current inputs: `remaining = total - paid`, never
   * clamped. "LUNAS" exactly when nothing remains; otherwise the amount
   * owed. The notice shows |remaining| exactly when the payment exceeds the
   * total.
   */
  function Panel(total: int, paid: int): (p: BalancePanel)
    ensures p.badge == Settled <==> paid >= total
    ensures p.badge.Outstanding? ==> p.badge.amount == total - paid
    ensures p.overpayment.Some? <==> paid > total
    ensures p.overpayment.Some? ==> p.overpayment.value == paid - total && p.overpayment.value > 0
  {
    var remaining := total - paid;
    BalancePanel(PaymentBadge(remaining), if remaining < 0 then Some(-remaining) else None)
  }

  /** The panel says "LUNAS" exactly when saving these numbers records a Lunas transaction. */
  lemma PanelAgreesWithSavedStatus(t: Transaction, total: int, paid: int)
    ensures Panel(total, paid).badge == Settled <==> EditedTransaction(t, total, paid).status == Lunas
    ensures Panel(total, paid).overpayment.Some? ==> EditedTransaction(t, total, paid).status == Lunas
  {
  }

  /**
   * Opening the form and saving it untouched keeps a consistent transaction
   * as it was, except that a missing paid amount is now written out.
   */
  lemma UntouchedSaveKeepsConsistent(t: Transaction)
    requires Consistent(t)
    ensures EditedTransaction(t, t.totalAmount, EffectivePaid(t)) == t.(paidAmount := Some(EffectivePaid(t)))
    ensures t.paidAmount.Some? ==> EditedTransaction(t, t.totalAmount, EffectivePaid(t)) == t
  {
  }

  /**
   * Examples of the panel: 1000 owed and 1000 paid is "LUNAS" with nothing
   * to return; 1500 paid is "LUNAS" with 500 overpaid; 400 paid leaves 600
   * owed and saves as a down payment.
   */
  lemma PanelExamples(t: Transaction)
    ensures Panel(1000, 1000) == BalancePanel(Settled, None)
    ensures Panel(1000, 1500) == BalancePanel(Settled, Some(500))
    ensures Panel(1000, 400) == BalancePanel(Outstanding(600), None)
    ensures EditedTransaction(t, 1000, 400).status == DP
    ensures EditedTransaction(t, 1000, 0).status == Pending
    ensures EditedTransaction(t, 0, 0).status == Lunas
  {
  }

  class EditTransactionForm {
    /** The transaction being edited. */
    const transaction: Transaction
    var totalAmount: int
    var paidAmount: int

    /**
     * The effect that loads a transaction: the total as recorded, the paid
     * amount by the `??` rule (a recorded 0 is kept).
     */
    constructor (t: Transaction)
      ensures transaction == t
      ensures totalAmount == t.totalAmount && paidAmount == EffectivePaid(t)
    {
      transaction := t;
      totalAmount := t.totalAmount;
      paidAmount := EffectivePaid(t);
    }

    /** The total input, already read as a number. */
    method SetTotal(v: int)
      modifies this`totalAmount
      ensures totalAmount == v
    {
      totalAmount := v;
    }

    /** The paid input, already read as a number; nothing bounds it by the total. */
    method SetPaid(v: int)
      modifies this`paidAmount
      ensures paidAmount == v
    {
      paidAmount := v;
    }

    /**
     * `remaining`: total less paid, which goes negative on overpayment. It is
     * at most 0 exactly when saving would record a Lunas transaction, and
     * positive with something paid exactly when it would record a DP.
     */
    function Remaining(): (r: int)
      reads this
      ensures r <= 0 <==> DeriveStatus(totalAmount, paidAmount) == Lunas
      ensures r > 0 && paidAmount > 0 <==> DeriveStatus(totalAmount, paidAmount) == DP
      ensures r < 0 <==> paidAmount > totalAmount
    {
      totalAmount - paidAmount
    }

    /** The panel for the current inputs. */
    function CurrentPanel(): (p: BalancePanel)
      reads this
      ensures p.badge == Settled <==> Remaining() <= 0
      ensures p.overpayment.Some? <==> Remaining() < 0
      ensures p.overpayment.Some? ==> p.overpayment.value == -Remaining()
    {
      Panel(totalAmount, paidAmount)
    }

    /**
     * `handleSave`: hands the original id and the two numbers, as entered,
     * to the ledger, which edits that transaction and derives its status.
     */
    method Save(store: Store)
      modifies store`transactions
      ensures store.transactions == LedgerAfterEdit(old(store.transactions), transaction.id, totalAmount, paidAmount)
    {
      store.UpdateTransaction(transaction.id, totalAmount, paidAmount);
    }
  }
}
