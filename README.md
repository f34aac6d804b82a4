# Safati storefront ledger — a Dafny model

Safati is a single-page storefront for wedding invitations, souvenirs and
printed goods. Visitors fill a cart and check out with a down payment (DP)
or in full (Lunas). Staff sign in as `admin` or `manager` to use a
dashboard. The dashboard keeps the product catalogue and its categories,
edits recorded transactions, and prints daily, range, monthly and annual
sales reports, receivables and stock figures.

This project models the engine beneath the markup. Money is integer rupiah
and dates are `YYYY-MM-DD` strings. The model has one Dafny module per
source file:

| module | file | form |
|---|---|---|
| `Types` | `types.dfy` | the records: `Product`, `CartItem`, `TransactionItem`, `Transaction`, `Status`, `ViewState`, `UserRole` |
| `App` | `app.dfy` | the root state as class `Store`; every handler is a method, specified by a function over the old value |
| `AdminDashboard` | `admin_dashboard.dfy` | searches, period filters with a stable newest-first sort, revenue, receivables and stock, all as functions; the annual recap as a method that fills a 12-element array in a loop |
| `CartDrawer` | `cart_drawer.dfy` | the totals as functions; the checkout form as class `CheckoutForm` |
| `InvoiceModal` | `invoice_modal.dfy` | the invoice figures as a function |
| `EditTransactionModal` | `edit_transaction_modal.dfy` | the balance panel as a function; the form as class `EditTransactionForm` |
| `ProductList` | `product_list.dfy` | the catalogue search and the low-stock badge |
| `EditProductModal` | `edit_product_modal.dfy` | the suffix, defaults and saved record as functions; the form as class `ProductForm` |
| `LoginModal` | `login_modal.dfy` | the credential table as a function; the dialog as class `LoginForm` |

Three support modules hold what several components share:
- `Seqs` holds `filter`, `map`, the left-fold `reduce` (`SumOf`) and `Option`.
- `Text` holds ASCII `toLowerCase`, `includes`, `substring`, `parseInt` without a radix (a leading decimal run, or hexadecimal after `0x`), and JavaScript's string `<`.
- `Payment` holds the status rule shared by checkout and the edit handler, the `||` and `??` paid-amount defaults, and the "LUNAS" badge.

Where the code departs from what one would expect, the model follows the code:
- The checkout discount is not clamped at 0; only the final total is. The paid amount is not clamped either.
- Revenue reads the paid amount with `||`, so a recorded 0 counts as absent. The invoice and the edit form use `??` and keep it. `MoneyInMatchesInvoice` shows the two agree on every consistent Lunas or DP transaction with a total that is not negative.
- Units sold takes only the first line with the product's name in each transaction (`find`). `UnitsSoldCountsFirstLineOnly` exhibits a case where this differs from counting all lines. `UnitsSoldCountsAllLines` shows the two agree when no transaction repeats a name.
- `handleCheckout` does not check the cart; only an empty phone number or address stops it. The drawer offers the checkout button only for a non-empty cart (components/CartDrawer.tsx line 365), which is rendering and not modelled. So `CartDrawer.CheckoutForm.HandleCheckout` accepts an empty cart, which the program never passes it.
- A new product's category falls back to "Undangan Pernikahan" both when there are no categories and when the first one is the empty string (`categories[0] || …`).
- A successful sign-in leaves the dialog's loading flag on; only a failure turns it off.
- Range and sort compare date strings with JavaScript's string order. For well-formed ISO dates that is the order of `new Date(...)`, which the sort uses.
- In the source a cart row is the product's fields plus a quantity. The model keeps the product as one field of the row. Rows are matched by product id, as the source matches them by the row's id.

## Model

| member | source | states |
|---|---|---|
| Seqs.Filter | components/ProductList.tsx:14-17 | `Array.filter`: keeps exactly the elements passing the test, in order (an order-preserving subsequence), each with its full multiplicity, and drops every other |
| Seqs.Map | App.tsx:188-192 | `Array.map`: same length, each element transformed in place |
| Seqs.FilterAll | components/ProductList.tsx:14-17 | a filter that every element passes returns the whole list |
| Seqs.FilterCongruent | components/ProductList.tsx:14-17 | filters whose tests agree on the list give the same result |
| Seqs.FilterAppend | components/AdminDashboard.tsx:130-132 | filtering a concatenation filters each part |
| Seqs.SumOfAppend | App.tsx:283 | a `reduce` sum over a concatenation is the sum of the parts |
| Seqs.SumOfCons | App.tsx:283 | prepending an element adds its value to the sum |
| Seqs.SumOfAtLeast | App.tsx:283 | a sum of terms each at least k is at least k times their number |
| Seqs.SumOfZero | components/AdminDashboard.tsx:427-430 | a sum of zero terms is 0 |
| Seqs.SumOfCongruent | components/AdminDashboard.tsx:427-430 | summing two functions that agree on the list gives the same total |
| Text.ToLower | components/ProductList.tsx:15-16 | `toLowerCase` (ASCII): same length, each letter lowered, no capital left |
| Text.ToLowerIdempotent | components/ProductList.tsx:15-16 | lowering twice is lowering once |
| Text.Substring | components/AdminDashboard.tsx:120-121 | `substring` with clamped bounds: the slice when in range, the tail when only the end is past the text, empty past the end, never longer than requested |
| Text.DigitValue | components/AdminDashboard.tsx:121 | the digit value `parseInt` gives a character, below 10 exactly for the decimal digits |
| Text.ParseInt | components/AdminDashboard.tsx:121 | `parseInt` without a radix gives NaN exactly when the text does not start with a decimal digit, or starts with `0x`/`0X` not followed by a hexadecimal digit |
| Text.LeadingDigitCount | components/AdminDashboard.tsx:121 | the digit run `parseInt` reads in a radix: all digits of that radix, followed by a non-digit or the end |
| Text.TwoDigits | components/AdminDashboard.tsx:121 | two digits read as tens then units, so a leading zero is dropped |
| Text.ParseShort | components/AdminDashboard.tsx:121 | on a slice of at most two characters: NaN without a leading digit and for a bare `0x`/`0X`, tens and units for two digits, the one digit when the end or another non-digit follows |
| Text.ParseIntExamples | components/AdminDashboard.tsx:121 | "0x" reads as NaN, "0x1F" as 31, "0b" as 0 |
| Text.LexLessIrreflexive | components/AdminDashboard.tsx:117 | no date string is before itself |
| Text.LexLessAsymmetric | components/AdminDashboard.tsx:117 | string order is asymmetric |
| Text.LexLessTransitive | components/AdminDashboard.tsx:117 | string order is transitive |
| Text.LexLessTotal | components/AdminDashboard.tsx:117 | of two different strings one is before the other |
| Text.LexLeTransitive | components/AdminDashboard.tsx:117 | `<=` on strings is transitive |
| Text.LexLeAntisymmetric | components/AdminDashboard.tsx:117 | `<=` both ways means equal strings |
| Payment.DeriveStatus | App.tsx:225-230 | Lunas exactly when paid ≥ total (also 0/0), DP exactly when 0 < paid < total, Pending otherwise |
| Payment.DeriveStatusMonotone | components/CartDrawer.tsx:62-67 | paying more never lowers the status |
| Payment.OrElse | components/AdminDashboard.tsx:132 | `x || d` on an optional number: the value unless it is absent or 0 |
| Payment.EffectivePaid | components/InvoiceModal.tsx:22 | `paidAmount ?? (Lunas ? total : 0)`: a recorded amount, even 0, is kept |
| Payment.PaymentBadge | components/InvoiceModal.tsx:114-118 | "LUNAS" exactly when remaining ≤ 0, else the positive remaining amount |
| Payment.BadgeAgreesWithStatus | components/InvoiceModal.tsx:114-118 | for a transaction whose status follows the rule, "LUNAS" shows exactly for status Lunas |
| App.CartAfterAdd | App.tsx:186-194 | an existing row gains 1 and nothing else changes; otherwise one row of quantity 1 is appended; ids stay unique, quantities positive |
| App.CartAfterSetQuantity | App.tsx:199-206 | matching rows get max(1, n); other rows and the length are unchanged; uniqueness and positivity kept |
| App.CartAfterRemove | App.tsx:208-210 | exactly the rows with that id are gone; the rest keep their order and multiplicity; ids stay unique |
| App.SubsequenceKeepsUniqueIds | App.tsx:208-210 | removing rows cannot create duplicate ids |
| App.SubsequenceMembers | App.tsx:208-210 | every element of a kept subsequence was in the original |
| App.CartCount | App.tsx:283 | the item count is the sum of quantities, at least the number of rows when quantities are positive |
| App.CartCountCons | App.tsx:283 | a first row adds its quantity to the count |
| App.Occurrences | App.tsx:186 | the number of rows with an id is 0 exactly when the product is not in the cart |
| App.CountAfterBump | App.tsx:188-192 | incrementing the matching rows raises the count by their number |
| App.UniqueOccurrence | App.tsx:186-192 | with unique ids a product in the cart has exactly one row |
| App.AddToCartCountsOne | App.tsx:184-196 | adding to a cart with unique ids raises the item count by exactly 1 |
| App.AddThenRemove | App.tsx:184-210 | adding a new product then removing it restores the cart |
| App.EditedTransaction | App.tsx:232-237 | new total and paid, status derived from them, every other field kept, result consistent |
| App.LedgerAfterEdit | App.tsx:221-241 | only transactions with that id are edited; order and length kept; unknown id leaves the ledger unchanged; consistency kept |
| App.EditIdempotent | App.tsx:221-241 | saving the same edit twice equals saving it once |
| App.CatalogueAfterUpdate | App.tsx:248-250 | every product with the id becomes the new record; nothing else changes |
| App.CategoriesAfterAdd | App.tsx:253-257 | an existing category is a no-op, a new one is appended at the end; no duplicates arise |
| App.CategoriesAfterDelete | App.tsx:259-261 | every equal entry is removed; the others keep their order and multiplicity |
| App.SubsequenceKeepsNoDuplicates | App.tsx:259-261 | deleting cannot create duplicate categories |
| App.AddThenDeleteCategory | App.tsx:253-261 | adding a new category then deleting it restores the list |
| App.Store.constructor | App.tsx:14-30 | home view, empty closed cart, signed out, login closed, the six seed categories |
| App.Store.AddToCart | App.tsx:184-197 | the cart becomes `CartAfterAdd`, its count grows by 1, the drawer opens |
| App.Store.UpdateQuantity | App.tsx:199-206 | the cart becomes `CartAfterSetQuantity`; invariants kept |
| App.Store.RemoveItem | App.tsx:208-210 | the cart becomes `CartAfterRemove`; invariants kept |
| App.Store.ClearCart | App.tsx:212-214 | the cart is empty |
| App.Store.CloseCart | App.tsx:298 | the drawer is closed |
| App.Store.AddTransaction | App.tsx:217-219 | the transaction is put first in the ledger |
| App.Store.UpdateTransaction | App.tsx:221-241 | the ledger becomes `LedgerAfterEdit` |
| App.Store.AddProduct | App.tsx:244-246 | the product is put first in the catalogue |
| App.Store.UpdateProduct | App.tsx:248-250 | the catalogue becomes `CatalogueAfterUpdate` |
| App.Store.AddCategory | App.tsx:253-257 | the categories become `CategoriesAfterAdd`; no duplicates |
| App.Store.DeleteCategory | App.tsx:259-261 | the categories become `CategoriesAfterDelete`; no duplicates |
| App.Store.SetView | App.tsx:264-270 | the admin view while signed out opens the login and keeps the view; any other request changes the view |
| App.Store.LoginSuccess | App.tsx:272-276 | the role is recorded, the login closes, the admin view opens |
| App.Store.CartItemCount | App.tsx:283 | the cart badge: 0 for an empty cart, at least the number of rows while the store's invariant holds |
| App.Store.Logout | App.tsx:278-281 | signed out and back on the home view |
| ProductList.SearchProducts | components/ProductList.tsx:14-17 | exactly the products whose lower-cased name or category contains the lower-cased term, in order and with their multiplicity; an empty term keeps all; the dashboard's inventory search (components/AdminDashboard.tsx lines 93-99) is the same filter |
| ProductList.SearchIgnoresCase | components/ProductList.tsx:14-17 | terms that lower-case alike give the same list |
| ProductList.SearchLowerCasedTerm | components/ProductList.tsx:14-17 | searching the lower-cased term gives the same list |
| ProductList.ShowsLowStockBadge | components/ProductList.tsx:61 | the low-stock badge shows exactly below 20 units, so on every sold-out card |
| InvoiceModal.LinesTotal | components/InvoiceModal.tsx:20 | the subtotal of lines with non-negative price and quantity is non-negative |
| InvoiceModal.Figures | components/InvoiceModal.tsx:20-118 | missing discount is 0, a recorded one is shown as recorded; paid by `??`; remaining = total − paid, unclamped; discount rows exactly for a positive discount; "LUNAS" exactly when paid ≥ total, and for a consistent record exactly when Lunas |
| CartDrawer.Subtotal | components/CartDrawer.tsx:39 | the sum of price × quantity, non-negative for non-negative rows |
| CartDrawer.FinalTotal | components/CartDrawer.tsx:41 | max(0, subtotal − discount): never negative, never below subtotal − discount |
| CartDrawer.RemainingAmount | components/CartDrawer.tsx:44 | max(0, total − paid), which is 0 exactly when paid covers the total |
| CartDrawer.LineItems | components/CartDrawer.tsx:79-83 | one line per cart row in cart order with its name, quantity and price |
| CartDrawer.LinesTotalOfCart | components/CartDrawer.tsx:39 | the invoice subtotal (components/InvoiceModal.tsx line 20) of the copied lines equals the drawer subtotal |
| CartDrawer.CheckoutTransaction | components/CartDrawer.tsx:62-84 | phone as customer name, final total (≥ 0), discount only when positive, paid as entered, status by the rule, cart lines, consistent |
| CartDrawer.CheckoutInvoiceAgrees | components/CartDrawer.tsx:39-44 | the invoice (components/InvoiceModal.tsx lines 20-23) of a checkout shows the drawer's subtotal, paid amount and remaining balance; "LUNAS" exactly for Lunas |
| CartDrawer.FullPaymentSettles | components/CartDrawer.tsx:105-107 | "Bayar Lunas" then checkout records Lunas with nothing remaining |
| CartDrawer.CheckoutForm.Discount | components/CartDrawer.tsx:40 | the discount is 0 for an empty input and the number entered otherwise |
| CartDrawer.CheckoutForm.Paid | components/CartDrawer.tsx:43 | the paid amount is 0 for an empty input and the number entered otherwise |
| CartDrawer.CheckoutForm.constructor | components/CartDrawer.tsx:25-36 | empty inputs, idle, no order, invoice hidden |
| CartDrawer.CheckoutForm.HandleCheckout | components/CartDrawer.tsx:49-92 | an empty phone or address changes nothing; otherwise the transaction is put first in the ledger, remembered for the invoice, and then the cart is cleared; status ends in success |
| CartDrawer.CheckoutForm.SetFullPayment | components/CartDrawer.tsx:105-107 | the payment input becomes the final total, so the status would be Lunas |
| CartDrawer.CheckoutForm.ResetForm | components/CartDrawer.tsx:94-103 | every input emptied, idle, no order, drawer closed |
| AdminDashboard.FilteredCategories | components/AdminDashboard.tsx:102-104 | exactly the categories containing the term case-insensitively, in order and with their multiplicity; an empty term keeps all |
| AdminDashboard.YearOf | components/AdminDashboard.tsx:120 | the year is the first four characters, or the whole date when it is shorter |
| AdminDashboard.MonthOf | components/AdminDashboard.tsx:121 | NaN exactly when character 5 is missing or not a digit, or characters 5-6 are `0x`/`0X`; otherwise two digits read as tens and units, one digit followed by a non-digit or the end as itself; always below 100 |
| AdminDashboard.IsoDateParts | components/AdminDashboard.tsx:120-121 | on a `YYYY-MM-DD` date the year is characters 0–3 and the month is characters 5–6 as a number |
| AdminDashboard.MonthOfExamples | components/AdminDashboard.tsx:121 | "05" reads as 5, "5-" also reads as 5, "0x" and a date too short read as NaN |
| AdminDashboard.InPeriod | components/AdminDashboard.tsx:110-124 | annual mode admits nothing; a range admits something only when start ≤ end; a monthly match has a digit at position 5 |
| AdminDashboard.InsertByDate | components/AdminDashboard.tsx:125 | one insertion step of the sort: adds exactly one element and keeps newest-first order |
| AdminDashboard.SortNewestFirst | components/AdminDashboard.tsx:125 | a permutation sorted by date, newest first |
| AdminDashboard.InsertKeepsDayOrder | components/AdminDashboard.tsx:125 | an insertion puts the new element before the others of its day |
| AdminDashboard.SortKeepsDayOrder | components/AdminDashboard.tsx:125 | the sort is stable: same-day transactions keep ledger order |
| AdminDashboard.NewestFirstPairwise | components/AdminDashboard.tsx:125 | in the sorted list every earlier entry is at least as new as every later one |
| AdminDashboard.FilteredTransactions | components/AdminDashboard.tsx:109-126 | exactly the transactions of the period, a permutation of them, newest first, same-day in ledger order; annual mode lists none |
| AdminDashboard.AllOnDate | components/AdminDashboard.tsx:113-114 | a list all of one day is its own same-day list |
| AdminDashboard.DailyMatchingIsOnDate | components/AdminDashboard.tsx:113-114 | the daily filter keeps exactly the transactions of that date |
| AdminDashboard.DailyReportIsThatDay | components/AdminDashboard.tsx:109-126 | the daily report is that day's transactions in ledger order |
| AdminDashboard.InvertedRangeIsEmpty | components/AdminDashboard.tsx:116-117 | a range with end before start is empty |
| AdminDashboard.MoneyIn | components/AdminDashboard.tsx:132 | a recorded non-zero paid amount; otherwise (absent or 0) the total for Lunas and 0 for any other status |
| AdminDashboard.FilteredSumOne | components/AdminDashboard.tsx:130-132 | one transaction, filtered and summed, adds its contribution |
| AdminDashboard.FilteredSumIsContributionSum | components/AdminDashboard.tsx:130-132 | keeping Lunas and DP and summing their money in is summing every transaction's contribution |
| AdminDashboard.Revenue | components/AdminDashboard.tsx:129-133 | revenue is the sum over all transactions of `paid || (Lunas ? total : 0)` for Lunas and DP, 0 for Pending; an all-pending list has revenue 0 |
| AdminDashboard.ContributionsIgnoreOrder | components/AdminDashboard.tsx:125-133 | sorting does not change the revenue total |
| AdminDashboard.InsertAdds | components/AdminDashboard.tsx:125-133 | one insertion adds exactly the inserted transaction's contribution |
| AdminDashboard.ReportRevenue | components/AdminDashboard.tsx:109-133 | the revenue shown is the total contribution of the period's transactions |
| AdminDashboard.MoneyInMatchesInvoice | components/AdminDashboard.tsx:132 | against the invoice's `??` (components/InvoiceModal.tsx line 22): on a consistent Lunas or DP record with a total that is not negative, `||` and `??` count the same money |
| AdminDashboard.Recap | components/AdminDashboard.tsx:137-146 | twelve rows with ids 1..12 and the Indonesian month names |
| AdminDashboard.AnnualRecap | components/AdminDashboard.tsx:137-163 | the in-place bucket loop yields, for each month, the count and money in of that year's Lunas and DP sales of that month; other months ignored |
| AdminDashboard.RecapSuffixTotals | components/AdminDashboard.tsx:165-166 | the footer sums over the rows from month k are sums over those months |
| AdminDashboard.MonthsFromAppend | components/AdminDashboard.tsx:148-160 | a further transaction adds to exactly the month it falls in |
| AdminDashboard.MonthsAddUpToYear | components/AdminDashboard.tsx:148-160 | over the twelve months each sale of the year in months 1–12 is counted once |
| AdminDashboard.MonthsFromEmpty | components/AdminDashboard.tsx:137-146 | an empty ledger gives zero rows |
| AdminDashboard.TotalRevenue | components/AdminDashboard.tsx:165 | the footer revenue: 0 without rows, non-negative when every row is |
| AdminDashboard.TotalTransactions | components/AdminDashboard.tsx:166 | the footer count: 0 without rows, non-negative when every row is |
| AdminDashboard.AnnualTotals | components/AdminDashboard.tsx:165-166 | the footer totals are the count and money in of the year's Lunas and DP sales in months 1–12 |
| AdminDashboard.MonthlyContributionOne | components/AdminDashboard.tsx:119-157 | one transaction adds the same to a monthly report as to that month's recap row |
| AdminDashboard.MonthlyContributions | components/AdminDashboard.tsx:119-157 | the monthly report's revenue before sorting equals that month's recap revenue |
| AdminDashboard.RecapRowMatchesMonthlyReport | components/AdminDashboard.tsx:129-163 | each recap row shows the revenue of the monthly report for that month |
| AdminDashboard.DpTransactions | components/AdminDashboard.tsx:169 | exactly the DP transactions, in ledger order and with their multiplicity |
| AdminDashboard.Owed | components/AdminDashboard.tsx:170 | total less `paid || 0`: the total when nothing (or 0) is recorded; on a consistent DP record a positive amount below its total |
| AdminDashboard.TotalReceivable | components/AdminDashboard.tsx:169-170 | 0 without DP records; with consistent records at least the number of DP records |
| AdminDashboard.FindByName | components/AdminDashboard.tsx:428 | `find`: the first line with that name, or none exactly when no line has it |
| AdminDashboard.SoldIn | components/AdminDashboard.tsx:428-429 | the quantity of the first line with the name, 0 when no line has it, non-negative with non-negative quantities |
| AdminDashboard.UnitsSold | components/AdminDashboard.tsx:427-430 | 0 for a product on no line; non-negative when every quantity is |
| AdminDashboard.EstimatedOriginalStock | components/AdminDashboard.tsx:433 | the stock itself for a product nobody bought; never below the stock when quantities are non-negative |
| AdminDashboard.FirstLineIsAllLines | components/AdminDashboard.tsx:428-429 | with no repeated name, the first matching line is all there is |
| AdminDashboard.UnitsSoldCountsAllLines | components/AdminDashboard.tsx:427-430 | without repeated names per transaction, units sold counts every line |
| AdminDashboard.UnitsSoldCountsFirstLineOnly | components/AdminDashboard.tsx:427-430 | with two lines of the same name only the first is counted (3, not 7) |
| AdminDashboard.StockLevelOf | components/AdminDashboard.tsx:473 | Aman exactly above 50, Menipis exactly in 11..50, Kritis exactly at 10 or below |
| AdminDashboard.BadgeAgreesWithLevel | components/AdminDashboard.tsx:473 | every Kritis product shows the catalogue's low-stock badge (components/ProductList.tsx line 61) and no Aman product does |
| EditTransactionModal.Panel | components/EditTransactionModal.tsx:28-89 | "LUNAS" exactly when paid ≥ total, else the amount owed; the overpayment notice shows paid − total exactly when that is positive |
| EditTransactionModal.PanelAgreesWithSavedStatus | components/EditTransactionModal.tsx:75-89 | the panel shows "LUNAS" exactly when saving records Lunas through the ledger's status rule (App.tsx lines 225-230) |
| EditTransactionModal.UntouchedSaveKeepsConsistent | components/EditTransactionModal.tsx:15-25 | opening and saving untouched keeps a consistent record, only writing out a missing paid amount |
| EditTransactionModal.PanelExamples | components/EditTransactionModal.tsx:75-89 | 1000/1000 is LUNAS, 1000/1500 is LUNAS with 500 overpaid, 1000/400 owes 600 and saves as DP |
| EditTransactionModal.EditTransactionForm.constructor | components/EditTransactionModal.tsx:15-20 | the form starts with the recorded total and the `??` paid amount |
| EditTransactionModal.EditTransactionForm.SetTotal | components/EditTransactionModal.tsx:53 | the total input takes the number entered |
| EditTransactionModal.EditTransactionForm.SetPaid | components/EditTransactionModal.tsx:67 | the paid input takes the number entered, unbounded |
| EditTransactionModal.EditTransactionForm.Remaining | components/EditTransactionModal.tsx:28 | at most 0 exactly when saving records Lunas, positive with something paid exactly when it records DP, negative exactly on overpayment |
| EditTransactionModal.EditTransactionForm.CurrentPanel | components/EditTransactionModal.tsx:28-89 | the panel says "LUNAS" exactly when remaining ≤ 0, the notice shows exactly when remaining < 0 |
| EditTransactionModal.EditTransactionForm.Save | components/EditTransactionModal.tsx:22-25 | the original id and the two numbers as entered go to the ledger edit |
| LoginModal.Authenticate | components/LoginModal.tsx:27-38 | admin/admin is admin, manager/manager is manager, every other pair is refused |
| LoginModal.LoginForm.constructor | components/LoginModal.tsx:12-16 | empty fields, no error, not loading |
| LoginModal.LoginForm.HandleSubmit | components/LoginModal.tsx:20-40 | a known pair signs the store in as its role and clears both fields; any other pair leaves the store alone, sets the error and stops loading |
| EditProductModal.UnitSuffix | components/EditProductModal.tsx:81-82 | "/ pcs" exactly for Undangan or Buku, "/ Box" exactly for Kartu without those, "" otherwise |
| EditProductModal.DefaultCategory | components/EditProductModal.tsx:16 | the first category unless none or empty, then "Undangan Pernikahan"; never empty |
| EditProductModal.ImageInputFor | components/EditProductModal.tsx:33-37 | the file tab exactly for a `data:` image |
| EditProductModal.NewProductForm | components/EditProductModal.tsx:40-49 | id from the clock, default category, placeholder picture, zero price and stock, empty texts |
| EditProductModal.StartsWithConcat | components/EditProductModal.tsx:46 | the placeholder address is a prefix of the chosen picture |
| EditProductModal.WithField | components/EditProductModal.tsx:53-59 | the changed field takes the number for price and stock, the text otherwise; no other field changes |
| EditProductModal.SameFieldsSameProduct | components/EditProductModal.tsx:53-59 | products equal field by field are equal |
| EditProductModal.ChangeCoercesOnlyNumbers | components/EditProductModal.tsx:57 | only price and stock read the number; every other field stores the text |
| EditProductModal.FinalProduct | components/EditProductModal.tsx:75-87 | the saved record equals the form except the display price, which is the formatted price, a space and the suffix |
| EditProductModal.SubmitIsIdempotent | components/EditProductModal.tsx:84-87 | submitting a saved record again changes nothing |
| EditProductModal.TypedDisplayPriceIsIgnored | components/EditProductModal.tsx:84-87 | a typed display price never reaches the catalogue |
| EditProductModal.ProductForm.constructor | components/EditProductModal.tsx:13-24 | a blank form in the default category on the file tab |
| EditProductModal.ProductForm.Load | components/EditProductModal.tsx:29-51 | an existing product is copied and its picture chooses the tab; otherwise the new-product form, tab unchanged |
| EditProductModal.ProductForm.HandleChange | components/EditProductModal.tsx:53-59 | the form becomes `WithField` of the old form |
| EditProductModal.ProductForm.HandleSubmit | components/EditProductModal.tsx:75-91 | through the dashboard's `handleSaveProduct` (components/AdminDashboard.tsx lines 63-69): editing replaces the products with that id by the final record; adding puts it first |

## Left out

- Currency formatting (`Intl.NumberFormat`) is a parameter `format: int -> string`. The clock (`new Date()`, `Date.now()`) and `Math.random` order ids and picture numbers are parameters too. The PDF, print and date-display strings are not modelled.
- The `setTimeout` delays in checkout and sign-in are treated as one atomic step each, since nothing else runs in between. The transient "processing" status of checkout is set and overwritten within that step.
- `parseInt` and `Number` on arbitrary input, including NaN and fractions, are not modelled. Number inputs are integers already parsed, and an empty input is `None`. The one `parseInt` the reports depend on, the month of a date, is modelled on decimal digit runs and the radix-less `0x`/`0X` hexadecimal prefix; leading spaces and signs are not read.
- `toLowerCase` lowers ASCII letters only. Full Unicode case mapping is not modelled.
- JavaScript compares strings by UTF-16 code unit. The model compares Dafny characters, which is the same order for the ASCII dates used here.
- `new Date(...)` on a malformed date string (an invalid date, NaN in the sort) is not modelled. The sort is by the date string, which agrees with `new Date` on well-formed ISO dates.
- The PDF export (jsPDF, autoTable), `window.print`, `alert`, the `FileReader` image upload and clipboard access are browser or library calls.
- The AI assistant and its network service are outside the engine.
- Header, Hero, Footer and the contact section are static markup.
- React rendering, styling, `useMemo`/`useEffect` scheduling and the state-setter mechanics are not modelled beyond the new value each setter computes. The role checks that disable buttons in the dashboard are markup and are not modelled.
- AdminDashboard.AnnualRecap: the buckets are a Dafny array of immutable row records replaced one at a time. The source mutates fields of row objects. The resulting values are the same.
- CartDrawer.CheckoutForm.HandleCheckout: the cart lines are read from the store when checkout runs. The source reads the cart its drawer was rendered with, which is the same cart when nothing changes during the delay.
