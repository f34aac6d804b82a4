/**
 * The records the storefront passes around. Money amounts are integers in
 * the smallest currency unit (rupiah); dates are `YYYY-MM-DD` strings.
 * A TypeScript optional field (`discount?: number`) is an `Option`.
 */
module Types {

  import opened Seqs

  /** A catalogue entry. `displayPrice` is the formatted price with a unit suffix. */
  datatype Product = Product(
    id: string,
    name: string,
    category: string,
    price: int,
    displayPrice: string,
    image: string,
    description: string,
    stock: int)

  /** A cart row: a product and how many of it, nothing else. */
  datatype CartItem = CartItem(product: Product, quantity: int)

  /** A line of a transaction: a snapshot with no link back to a product id. */
  datatype TransactionItem = TransactionItem(name: string, quantity: int, price: int)

  /** Payment status of a transaction: paid in full, nothing paid, down payment. */
  datatype Status = Lunas | Pending | DP

  /**
   * A sale. `totalAmount` is the final total (subtotal minus discount);
   * `customerAddress`, `discount` and `paidAmount` may be absent.
   */
  datatype Transaction = Transaction(
    id: string,
    date: string,
    customerName: string,
    customerAddress: Option<string>,
    totalAmount: int,
    discount: Option<int>,
    paidAmount: Option<int>,
    status: Status,
    items: seq<TransactionItem>)

  /** The page the application shows. */
  datatype ViewState = HomeView | ProductsView | AiAssistantView | ContactView | AdminView

  /** Who is logged in; `SignedOut` is the `null` role. */
  datatype UserRole = Admin | Manager | SignedOut
}
