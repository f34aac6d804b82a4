/**
 * The root state of the storefront (App.tsx): the cart, the ledger of
 * transactions, the catalogue, the category list, the logged-in role and the
 * current page. Each handler replaces one piece of state with a new value;
 * the new values are the pure functions below, and the `Store` class holds
 * the state and applies them.
 */
module App {

  import opened Seqs
  import opened Types
  import opened Payment

  // ---------------------------------------------------------------- cart

  /** Some row of the cart holds the product with this id. */
  predicate InCart(cart: seq<CartItem>, id: string)
  {
    exists i :: 0 <= i < |cart| && cart[i].product.id == id
  }

  /** No product id occurs in two rows. */
  predicate UniqueIds(cart: seq<CartItem>)
  {
    forall i, j :: 0 <= i < j < |cart| ==> cart[i].product.id != cart[j].product.id
  }

  /** Every row holds at least one unit. */
  predicate PositiveQuantities(cart: seq<CartItem>)
  {
    forall i :: 0 <= i < |cart| ==> cart[i].quantity >= 1
  }

  /** Raises by one the quantity of every row whose product has this id. */
  function BumpRows(cart: seq<CartItem>, id: string): seq<CartItem>
  {
    Map(cart, (c: CartItem) => if c.product.id == id then c.(quantity := c.quantity + 1) else c)
  }

  /**
   * `addToCart`: a product already in the cart has its row's quantity raised
   * by one (the row keeps its own product data); a new product is appended
   * with quantity 1.
   */
  function CartAfterAdd(cart: seq<CartItem>, p: Product): (r: seq<CartItem>)
    ensures InCart(cart, p.id) ==>
      |r| == |cart| &&
      forall i :: 0 <= i < |cart| ==>
        r[i].product == cart[i].product &&
        r[i].quantity == cart[i].quantity + (if cart[i].product.id == p.id then 1 else 0)
    ensures !InCart(cart, p.id) ==> r == cart + [CartItem(p, 1)]
    ensures InCart(r, p.id)
    ensures UniqueIds(cart) ==> UniqueIds(r)
    ensures PositiveQuantities(cart) ==> PositiveQuantities(r)
  {
    if InCart(cart, p.id) then BumpRows(cart, p.id)
    else
      var r := cart + [CartItem(p, 1)];
      assert r[|cart|].product.id == p.id;
      r
  }

  /**
   * `updateQuantity`: the rows with this id get quantity `max(1, n)`; every
   * other row, and the length, stay as they were.
   */
  function CartAfterSetQuantity(cart: seq<CartItem>, id: string, n: int): (r: seq<CartItem>)
    ensures |r| == |cart|
    ensures forall i :: 0 <= i < |cart| ==>
      r[i].product == cart[i].product &&
      r[i].quantity == (if cart[i].product.id == id then (if n < 1 then 1 else n) else cart[i].quantity)
    ensures UniqueIds(cart) ==> UniqueIds(r)
    ensures PositiveQuantities(cart) ==> PositiveQuantities(r)
  {
    Map(cart, (c: CartItem) => if c.product.id == id then c.(quantity := if n < 1 then 1 else n) else c)
  }

  /** `removeItem`: drops exactly the rows with this id and keeps the others in order. */
  function CartAfterRemove(cart: seq<CartItem>, id: string): (r: seq<CartItem>)
    ensures !InCart(r, id)
    ensures forall c :: c in r <==> c in cart && c.product.id != id
    ensures forall c :: multiset(r)[c] == if c.product.id != id then multiset(cart)[c] else 0
    ensures IsSubsequence(r, cart)
    ensures UniqueIds(cart) ==> UniqueIds(r)
  {
    var r := Filter(cart, (c: CartItem) => c.product.id != id);
    assert UniqueIds(cart) ==> UniqueIds(r) by {
      if UniqueIds(cart) { SubsequenceKeepsUniqueIds(r, cart); }
    }
    r
  }

  lemma {:induction false} SubsequenceKeepsUniqueIds(r: seq<CartItem>, s: seq<CartItem>)
    requires IsSubsequence(r, s) && UniqueIds(s)
    ensures UniqueIds(r)
  {
    if r != [] && s != [] {
      assert UniqueIds(s[1..]);
      if r[0] == s[0] {
        SubsequenceKeepsUniqueIds(r[1..], s[1..]);
        forall j | 0 < j < |r| ensures r[0].product.id != r[j].product.id {
          assert r[j] in r[1..];
          SubsequenceMembers(r[1..], s[1..]);
        }
      } else {
        SubsequenceKeepsUniqueIds(r, s[1..]);
      }
    }
  }

  lemma {:induction false} SubsequenceMembers<T>(r: seq<T>, s: seq<T>)
    requires IsSubsequence(r, s)
    ensures forall x :: x in r ==> x in s
  {
    if r != [] && s != [] {
      assert r == [r[0]] + r[1..];
      if r[0] == s[0] {
        SubsequenceMembers(r[1..], s[1..]);
      } else {
        SubsequenceMembers(r, s[1..]);
      }
    }
  }

  /** `cartItemCount`: the sum of the rows' quantities. */
  function CartCount(cart: seq<CartItem>): (n: int)
    ensures cart == [] ==> n == 0
    ensures PositiveQuantities(cart) ==> n >= |cart|
  {
    var quantity := (c: CartItem) => c.quantity;
    assert PositiveQuantities(cart) ==> SumOf(cart, quantity) >= |cart| by {
      if PositiveQuantities(cart) { SumOfAtLeast(cart, quantity, 1); }
    }
    SumOf(cart, quantity)
  }

  lemma CartCountCons(c: CartItem, cart: seq<CartItem>)
    ensures CartCount([c] + cart) == c.quantity + CartCount(cart)
  {
    SumOfCons(c, cart, (c: CartItem) => c.quantity);
  }

  /** The number of rows holding this product id. */
  function Occurrences(cart: seq<CartItem>, id: string): (k: nat)
    ensures k <= |cart|
    ensures k == 0 <==> !InCart(cart, id)
  {
    if cart == [] then 0
    else (if cart[0].product.id == id then 1 else 0) + Occurrences(cart[1..], id)
  }

  /** Raising the matching rows by one raises the item count by the number of such rows. */
  lemma {:induction false} CountAfterBump(cart: seq<CartItem>, id: string)
    ensures CartCount(BumpRows(cart, id)) == CartCount(cart) + Occurrences(cart, id)
  {
    if cart != [] {
      CountAfterBump(cart[1..], id);
      var b := BumpRows(cart, id);
      assert b == [b[0]] + BumpRows(cart[1..], id);
      assert cart == [cart[0]] + cart[1..];
      CartCountCons(b[0], BumpRows(cart[1..], id));
      CartCountCons(cart[0], cart[1..]);
    }
  }

  lemma {:induction false} UniqueOccurrence(cart: seq<CartItem>, id: string)
    requires UniqueIds(cart) && InCart(cart, id)
    ensures Occurrences(cart, id) == 1
  {
    if cart[0].product.id == id {
      assert !InCart(cart[1..], id);
    } else {
      assert UniqueIds(cart[1..]);
      UniqueOccurrence(cart[1..], id);
    }
  }

  /** Adding a product to a cart with unique ids raises the badge count by exactly one. */
  lemma AddToCartCountsOne(cart: seq<CartItem>, p: Product)
    requires UniqueIds(cart)
    ensures CartCount(CartAfterAdd(cart, p)) == CartCount(cart) + 1
  {
    if InCart(cart, p.id) {
      CountAfterBump(cart, p.id);
      UniqueOccurrence(cart, p.id);
    } else {
      SumOfAppend(cart, [CartItem(p, 1)], (c: CartItem) => c.quantity);
    }
  }

  /** Adding a product that is not in the cart and then removing it gives the cart back. */
  lemma AddThenRemove(cart: seq<CartItem>, p: Product)
    requires !InCart(cart, p.id)
    ensures CartAfterRemove(CartAfterAdd(cart, p), p.id) == cart
  {
    var keep := (c: CartItem) => c.product.id != p.id;
    FilterAppend(cart, [CartItem(p, 1)], keep);
    FilterAll(cart, keep);
  }

  // -------------------------------------------------------------- ledger

  /** The edited record: new total and paid amount, status recomputed, all else kept. */
  function EditedTransaction(t: Transaction, newTotal: int, newPaid: int): (r: Transaction)
    ensures r.totalAmount == newTotal && r.paidAmount == Some(newPaid)
    ensures r.status == DeriveStatus(newTotal, newPaid)
    ensures r.(totalAmount := t.totalAmount, paidAmount := t.paidAmount, status := t.status) == t
    ensures Consistent(r)
  {
    t.(totalAmount := newTotal, paidAmount := Some(newPaid), status := DeriveStatus(newTotal, newPaid))
  }

  /**
   * `handleUpdateTransaction`: every transaction with this id is replaced by
   * its edited record; the others, and the order, are untouched.
   */
  function LedgerAfterEdit(ts: seq<Transaction>, id: string, newTotal: int, newPaid: int): (r: seq<Transaction>)
    ensures |r| == |ts|
    ensures forall i :: 0 <= i < |ts| ==>
      r[i] == (if ts[i].id == id then EditedTransaction(ts[i], newTotal, newPaid) else ts[i])
    ensures (forall i :: 0 <= i < |ts| ==> ts[i].id != id) ==> r == ts
    ensures forall i :: 0 <= i < |ts| && (Consistent(ts[i]) || ts[i].id == id) ==> Consistent(r[i])
  {
    Map(ts, (t: Transaction) => if t.id == id then EditedTransaction(t, newTotal, newPaid) else t)
  }

  /** Saving the same edit twice is the same as saving it once. */
  lemma EditIdempotent(ts: seq<Transaction>, id: string, newTotal: int, newPaid: int)
    ensures LedgerAfterEdit(LedgerAfterEdit(ts, id, newTotal, newPaid), id, newTotal, newPaid)
         == LedgerAfterEdit(ts, id, newTotal, newPaid)
  {
  }

  // ----------------------------------------------------------- catalogue

  /** `handleUpdateProduct`: every product with the same id becomes the new record. */
  function CatalogueAfterUpdate(ps: seq<Product>, p: Product): (r: seq<Product>)
    ensures |r| == |ps|
    ensures forall i :: 0 <= i < |ps| ==> r[i] == (if ps[i].id == p.id then p else ps[i])
  {
    Map(ps, (q: Product) => if q.id == p.id then p else q)
  }

  /** No string occurs twice. */
  predicate NoDuplicates(cs: seq<string>)
  {
    forall i, j :: 0 <= i < j < |cs| ==> cs[i] != cs[j]
  }

  /** `handleAddCategory`: appended unless already present. */
  function CategoriesAfterAdd(cs: seq<string>, c: string): (r: seq<string>)
    ensures c in r
    ensures forall x :: x in r <==> x in cs || x == c
    ensures c in cs ==> r == cs
    ensures c !in cs ==> r == cs + [c]
    ensures NoDuplicates(cs) ==> NoDuplicates(r)
  {
    if c in cs then cs else cs + [c]
  }

  /** `handleDeleteCategory`: removes every entry equal to `c`, keeping the order of the rest. */
  function CategoriesAfterDelete(cs: seq<string>, c: string): (r: seq<string>)
    ensures c !in r
    ensures forall x :: x in r <==> x in cs && x != c
    ensures forall x :: multiset(r)[x] == if x != c then multiset(cs)[x] else 0
    ensures IsSubsequence(r, cs)
  {
    Filter(cs, (x: string) => x != c)
  }

  lemma {:induction false} SubsequenceKeepsNoDuplicates(r: seq<string>, s: seq<string>)
    requires IsSubsequence(r, s) && NoDuplicates(s)
    ensures NoDuplicates(r)
  {
    if r != [] && s != [] {
      assert NoDuplicates(s[1..]);
      if r[0] == s[0] {
        SubsequenceKeepsNoDuplicates(r[1..], s[1..]);
        SubsequenceMembers(r[1..], s[1..]);
        forall j | 0 < j < |r| ensures r[0] != r[j] {
          assert r[j] in r[1..];
        }
      } else {
        SubsequenceKeepsNoDuplicates(r, s[1..]);
      }
    }
  }

  /** Adding a new category and deleting it again gives the list back. */
  lemma AddThenDeleteCategory(cs: seq<string>, c: string)
    requires c !in cs
    ensures CategoriesAfterDelete(CategoriesAfterAdd(cs, c), c) == cs
  {
    var keep := (x: string) => x != c;
    FilterAppend(cs, [c], keep);
    FilterAll(cs, keep);
  }

  /** The category list the application starts with. */
  const InitialCategories: seq<string> :=
    ["Undangan Pernikahan", "Office", "Promosi", "Packaging", "Buku", "Digital"]

  // --------------------------------------------------------------- store

  class Store {
    var currentView: ViewState
    var cartItems: seq<CartItem>
    var isCartOpen: bool
    var userRole: UserRole
    var isLoginOpen: bool
    var categories: seq<string>
    var products: seq<Product>
    var transactions: seq<Transaction>

    /** The cart never holds two rows for one product or an empty row; categories are distinct. */
    ghost predicate Valid()
      reads this
    {
      UniqueIds(cartItems) && PositiveQuantities(cartItems) && NoDuplicates(categories)
    }

    /** The initial state: home page, empty cart, nobody logged in, the given catalogue and ledger. */
    constructor (seedProducts: seq<Product>, seedTransactions: seq<Transaction>)
      ensures Valid()
      ensures currentView == HomeView && cartItems == [] && !isCartOpen
      ensures userRole == SignedOut && !isLoginOpen
      ensures categories == InitialCategories
      ensures products == seedProducts && transactions == seedTransactions
    {
      currentView := HomeView;
      cartItems := [];
      isCartOpen := false;
      userRole := SignedOut;
      isLoginOpen := false;
      categories := InitialCategories;
      products := seedProducts;
      transactions := seedTransactions;
    }

    method AddToCart(p: Product)
      requires Valid()
      modifies this`cartItems, this`isCartOpen
      ensures Valid()
      ensures cartItems == CartAfterAdd(old(cartItems), p)
      ensures CartItemCount() == old(CartItemCount()) + 1
      ensures isCartOpen
    {
      AddToCartCountsOne(cartItems, p);
      cartItems := CartAfterAdd(cartItems, p);
      isCartOpen := true;
    }

    method UpdateQuantity(id: string, n: int)
      requires Valid()
      modifies this`cartItems
      ensures Valid()
      ensures cartItems == CartAfterSetQuantity(old(cartItems), id, n)
    {
      cartItems := CartAfterSetQuantity(cartItems, id, n);
    }

    method RemoveItem(id: string)
      requires Valid()
      modifies this`cartItems
      ensures Valid()
      ensures cartItems == CartAfterRemove(old(cartItems), id)
    {
      cartItems := CartAfterRemove(cartItems, id);
    }

    method ClearCart()
      requires Valid()
      modifies this`cartItems
      ensures Valid()
      ensures cartItems == []
    {
      cartItems := [];
    }

    /** The drawer's close button. */
    method CloseCart()
      modifies this`isCartOpen
      ensures !isCartOpen
    {
      isCartOpen := false;
    }

    /**
     * The number shown on the cart badge: the units in the cart, 0 for an
     * empty cart, and never fewer than the rows while every row holds one.
     */
    function CartItemCount(): (n: int)
      reads this
      ensures cartItems == [] ==> n == 0
      ensures Valid() ==> n >= |cartItems|
    {
      CartCount(cartItems)
    }

    /** `handleAddTransaction`: the new transaction goes first. */
    method AddTransaction(t: Transaction)
      modifies this`transactions
      ensures transactions == [t] + old(transactions)
    {
      transactions := [t] + transactions;
    }

    method UpdateTransaction(id: string, newTotal: int, newPaid: int)
      modifies this`transactions
      ensures transactions == LedgerAfterEdit(old(transactions), id, newTotal, newPaid)
    {
      transactions := LedgerAfterEdit(transactions, id, newTotal, newPaid);
    }

    /** `handleAddProduct`: the new product goes first. */
    method AddProduct(p: Product)
      modifies this`products
      ensures products == [p] + old(products)
    {
      products := [p] + products;
    }

    method UpdateProduct(p: Product)
      modifies this`products
      ensures products == CatalogueAfterUpdate(old(products), p)
    {
      products := CatalogueAfterUpdate(products, p);
    }

    method AddCategory(c: string)
      requires Valid()
      modifies this`categories
      ensures Valid()
      ensures categories == CategoriesAfterAdd(old(categories), c)
    {
      categories := CategoriesAfterAdd(categories, c);
    }

    method DeleteCategory(c: string)
      requires Valid()
      modifies this`categories
      ensures Valid()
      ensures categories == CategoriesAfterDelete(old(categories), c)
    {
      SubsequenceKeepsNoDuplicates(CategoriesAfterDelete(categories, c), categories);
      categories := CategoriesAfterDelete(categories, c);
    }

    /** `handleSetView`: asking for the admin page while signed out opens the login instead. */
    method SetView(view: ViewState)
      modifies this`currentView, this`isLoginOpen
      ensures view == AdminView && userRole == SignedOut ==>
        isLoginOpen && currentView == old(currentView)
      ensures !(view == AdminView && userRole == SignedOut) ==>
        currentView == view && isLoginOpen == old(isLoginOpen)
    {
      if view == AdminView && userRole == SignedOut {
        isLoginOpen := true;
      } else {
        currentView := view;
      }
    }

    /** `handleLoginSuccess`: records the role, closes the login and opens the admin page. */
    method LoginSuccess(role: UserRole)
      modifies this`userRole, this`isLoginOpen, this`currentView
      ensures userRole == role && !isLoginOpen && currentView == AdminView
    {
      userRole := role;
      isLoginOpen := false;
      currentView := AdminView;
    }

    /** `handleLogout`: forgets the role and returns to the home page. */
    method Logout()
      modifies this`userRole, this`currentView
      ensures userRole == SignedOut && currentView == HomeView
    {
      userRole := SignedOut;
      currentView := HomeView;
    }
  }
}
