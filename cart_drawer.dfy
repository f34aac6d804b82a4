/**
 * The cart drawer (components/CartDrawer.tsx): the running totals, the
 * "Bayar Lunas" shortcut and checkout, which validates the contact fields,
 * derives the payment status, hands a new transaction to the ledger and then
 * clears the cart.
 */
module CartDrawer {

  import opened Seqs
  import opened Types
  import opened Payment
  import opened App
  import opened InvoiceModal

  /** The value of one cart row, price times quantity. */
  function RowValue(c: CartItem): int
  {
    c.product.price * c.quantity
  }

  /** `subtotal`: the sum of price times quantity over the cart. */
  function Subtotal(cart: seq<CartItem>): (r: int)
    ensures (forall i :: 0 <= i < |cart| ==> cart[i].product.price >= 0 && cart[i].quantity >= 0) ==> r >= 0
  {
    assert (forall i :: 0 <= i < |cart| ==> cart[i].product.price >= 0 && cart[i].quantity >= 0) ==>
      SumOf(cart, RowValue) >= 0 by {
      if forall i :: 0 <= i < |cart| ==> cart[i].product.price >= 0 && cart[i].quantity >= 0 {
        SumOfAtLeast(cart, RowValue, 0);
      }
    }
    SumOf(cart, RowValue)
  }

  /** A number input: `parseInt(input || '0', 10)`, where an empty input is `None`. */
  function InputValue(input: Option<int>): int
  {
    match input
    case None => 0
    case Some(v) => v
  }

  /** `finalTotal`: the subtotal less the discount, floored at 0 (the discount itself is not clamped). */
  function FinalTotal(subtotal: int, discount: int): (r: int)
    ensures r >= 0 && r >= subtotal - discount
    ensures r == 0 || r == subtotal - discount
  {
    if subtotal - discount > 0 then subtotal - discount else 0
  }

  /** `remainingAmount`: what is still owed, floored at 0; it is 0 exactly when the payment covers the total. */
  function RemainingAmount(finalTotal: int, paid: int): (r: int)
    ensures r >= 0 && r >= finalTotal - paid
    ensures r == 0 || r == finalTotal - paid
    ensures r == 0 <==> paid >= finalTotal
  {
    if finalTotal - paid > 0 then finalTotal - paid else 0
  }

  /** The transaction lines copied from the cart: name, quantity and price of each row, in order. */
  function LineItems(cart: seq<CartItem>): (r: seq<TransactionItem>)
    ensures |r| == |cart|
    ensures forall i :: 0 <= i < |cart| ==>
      r[i] == TransactionItem(cart[i].product.name, cart[i].quantity, cart[i].product.price)
  {
    Map(cart, (c: CartItem) => TransactionItem(c.product.name, c.quantity, c.product.price))
  }

  /** The invoice recomputes the cart's subtotal from the copied lines. */
  lemma {:induction false} LinesTotalOfCart(cart: seq<CartItem>)
    ensures LinesTotal(LineItems(cart)) == Subtotal(cart)
  {
    if cart != [] {
      var init := cart[..|cart| - 1];
      LinesTotalOfCart(init);
      var lines := LineItems(cart);
      assert lines[..|lines| - 1] == LineItems(init);
      assert LineValue(lines[|lines| - 1]) == RowValue(cart[|cart| - 1]);
    }
  }

  /**
   * The record built at checkout: the phone number as customer name, the
   * final total, the discount only when positive, the paid amount as given,
   * the derived status and the cart lines in cart order.
   */
  function CheckoutTransaction(cart: seq<CartItem>, phone: string, address: string,
                               discount: int, paid: int, id: string, date: string): (t: Transaction)
    ensures t.id == id && t.date == date
    ensures t.customerName == phone && t.customerAddress == Some(address)
    ensures t.totalAmount == FinalTotal(Subtotal(cart), discount) && t.totalAmount >= 0
    ensures t.discount == (if discount > 0 then Some(discount) else None)
    ensures t.paidAmount == Some(paid)
    ensures t.status == Lunas <==> paid >= t.totalAmount
    ensures t.status == DP <==> 0 < paid < t.totalAmount
    ensures t.items == LineItems(cart)
    ensures Consistent(t)
  {
    var total := FinalTotal(Subtotal(cart), discount);
    Transaction(id, date, phone, Some(address), total,
                if discount > 0 then Some(discount) else None,
                Some(paid), DeriveStatus(total, paid), LineItems(cart))
  }

  /**
   * The invoice of a checkout agrees with the drawer: same subtotal, the paid
   * amount entered, "LUNAS" exactly for a Lunas status, the drawer's remaining
   * amount as the positive part of the invoice's, and, for a discount that is
   * not negative, total = max(0, subtotal - discount) as printed.
   */
  lemma CheckoutInvoiceAgrees(cart: seq<CartItem>, phone: string, address: string,
                              discount: int, paid: int, id: string, date: string)
    ensures var t := CheckoutTransaction(cart, phone, address, discount, paid, id, date);
      var f := Figures(t);
      && f.subtotal == Subtotal(cart)
      && f.paid == paid
      && (f.badge == Settled <==> t.status == Lunas)
      && RemainingAmount(t.totalAmount, paid) == (if f.remaining > 0 then f.remaining else 0)
      && (discount >= 0 ==> t.totalAmount == FinalTotal(f.subtotal, f.discount))
  {
    LinesTotalOfCart(cart);
  }

  /** "Bayar Lunas" followed by checkout always records a Lunas transaction with nothing remaining. */
  lemma FullPaymentSettles(cart: seq<CartItem>, phone: string, address: string,
                           discount: int, id: string, date: string)
    ensures var total := FinalTotal(Subtotal(cart), discount);
      var t := CheckoutTransaction(cart, phone, address, discount, total, id, date);
      t.status == Lunas && RemainingAmount(total, total) == 0 && Figures(t).badge == Settled
  {
  }

  /** The progress of a checkout. */
  datatype CheckoutStatus = Idle | Processing | Success

  class CheckoutForm {
    var customerPhone: string
    var customerAddress: string
    var dpInput: Option<int>
    var discountInput: Option<int>
    var checkoutStatus: CheckoutStatus
    var orderId: string
    var completedOrder: Option<Transaction>
    var showInvoice: bool

    constructor ()
      ensures customerPhone == "" && customerAddress == ""
      ensures dpInput == None && discountInput == None
      ensures checkoutStatus == Idle && orderId == "" && completedOrder == None && !showInvoice
    {
      customerPhone := "";
      customerAddress := "";
      dpInput := None;
      discountInput := None;
      checkoutStatus := Idle;
      orderId := "";
      completedOrder := None;
      showInvoice := false;
    }

    /** `discount`: the discount input, 0 when empty. */
    function Discount(): (d: int)
      reads this
      ensures discountInput.None? ==> d == 0
      ensures discountInput.Some? ==> d == discountInput.value
    {
      InputValue(discountInput)
    }

    /** `paidAmount`: the payment input, 0 when empty. */
    function Paid(): (p: int)
      reads this
      ensures dpInput.None? ==> p == 0
      ensures dpInput.Some? ==> p == dpInput.value
    {
      InputValue(dpInput)
    }

    /**
     * `handleCheckout`, with the delayed callback taken as one atomic step.
     * An empty phone or address changes nothing. Otherwise the new transaction
     * is built from the cart as it was, put first in the ledger, remembered
     * for the invoice, and only then is the cart cleared.
     */
    method HandleCheckout(store: Store, newOrderId: string, today: string)
      requires store.Valid()
      modifies this`checkoutStatus, this`orderId, this`completedOrder
      modifies store`transactions, store`cartItems
      ensures store.Valid()
      ensures customerPhone == "" || customerAddress == "" ==>
        unchanged(this) && unchanged(store)
      ensures customerPhone != "" && customerAddress != "" ==>
        var t := CheckoutTransaction(old(store.cartItems), customerPhone, customerAddress,
                                     Discount(), Paid(), newOrderId, today);
        && store.transactions == [t] + old(store.transactions)
        && store.cartItems == []
        && completedOrder == Some(t)
        && orderId == newOrderId
        && checkoutStatus == Success
    {
      if customerPhone == "" || customerAddress == "" {
        return;
      }
      checkoutStatus := Processing;
      var t := CheckoutTransaction(store.cartItems, customerPhone, customerAddress,
                                   Discount(), Paid(), newOrderId, today);
      completedOrder := Some(t);
      orderId := newOrderId;
      store.AddTransaction(t);
      checkoutStatus := Success;
      store.ClearCart();
    }

    /** "Bayar Lunas": fills the payment input with the final total, so the status becomes Lunas. */
    method SetFullPayment(items: seq<CartItem>)
      modifies this`dpInput
      ensures dpInput == Some(FinalTotal(Subtotal(items), Discount()))
      ensures DeriveStatus(FinalTotal(Subtotal(items), Discount()), Paid()) == Lunas
    {
      dpInput := Some(FinalTotal(Subtotal(items), Discount()));
    }

    /** `resetForm`: empties every input, returns to idle and closes the drawer. */
    method ResetForm(store: Store)
      modifies this, store`isCartOpen
      ensures customerPhone == "" && customerAddress == ""
      ensures dpInput == None && discountInput == None
      ensures checkoutStatus == Idle && completedOrder == None && !showInvoice
      ensures orderId == old(orderId)
      ensures !store.isCartOpen
    {
      customerPhone := "";
      customerAddress := "";
      dpInput := None;
      discountInput := None;
      checkoutStatus := Idle;
      completedOrder := None;
      showInvoice := false;
      store.CloseCart();
    }
  }
}
