/**
 * The records the storefront reads from its json-server store and from local storage.
 * Numbers that may be missing are `Option<int>`; strings that are only tested for
 * truthiness use "" for "missing".
 */
module Records {
  import opened Wrappers
  import opened Seqs

  /** A catalog entry (`/products`). */
  datatype Product = Product(id: string, name: string, price: int, gender: string)

  /** The logged-in user as stored under `loggedInUser`. */
  datatype User = User(id: string, name: Option<string>, email: Option<string>, isAdmin: Option<bool>)

  /** `user?.email`: absent when nobody is logged in or the record has no email. */
  function EmailOf(user: Option<User>): Option<string> {
    if user.Some? then user.value.email else None
  }

  /** `user?.isAdmin` is truthy. */
  predicate IsAdmin(user: Option<User>) {
    user.Some? && user.value.isAdmin == Some(true)
  }

  /** JavaScript `Number(x) || d`: a missing number and 0 both fall back to `d`. */
  function NumOr(x: Option<int>, d: int): int {
    if x.Some? && x.value != 0 then x.value else d
  }

  /** One line of an order in the `/orders` store; `dbId` stands for the `_id` field. */
  datatype LineItem = LineItem(
    id: Option<string>, productId: Option<string>, dbId: Option<string>,
    price: Option<int>, quantity: Option<int>)

  /** An order in the `/orders` store, as the admin pages read it. */
  datatype StoreOrder = StoreOrder(
    id: string, date: string, amount: Option<int>, total: Option<int>,
    items: Option<seq<LineItem>>,
    customer: string, name: string, userEmail: string, email: string, status: string)

  /** `o.items || []`. */
  function ItemsOf(o: StoreOrder): seq<LineItem> {
    o.items.GetOr([])
  }

  /** `o.amount || 0`. */
  function AmountOrZero(o: StoreOrder): int {
    NumOr(o.amount, 0)
  }

  /** `orders.reduce((s, o) => s + (o.amount || 0), 0)`. */
  function TotalRevenue(orders: seq<StoreOrder>): int {
    Sum(orders, AmountOrZero)
  }

  /** Revenue is order-level: two order lists that agree on every `amount` have the same revenue, whatever their items and totals. */
  lemma {:induction false} TotalRevenueOnlyReadsAmounts(a: seq<StoreOrder>, b: seq<StoreOrder>)
    requires |a| == |b|
    requires forall i :: 0 <= i < |a| ==> a[i].amount == b[i].amount
    ensures TotalRevenue(a) == TotalRevenue(b)
  {
    if a != [] {
      TotalRevenueOnlyReadsAmounts(a[..|a| - 1], b[..|b| - 1]);
    }
  }

  /** Each order adds its amount, or nothing when the amount is missing. */
  lemma TotalRevenueAppend(orders: seq<StoreOrder>, o: StoreOrder)
    ensures TotalRevenue(orders + [o]) == TotalRevenue(orders) + (if o.amount.Some? then o.amount.value else 0)
  {
    assert (orders + [o])[..|orders|] == orders;
  }

  /** A cart entry: the product's fields spread, plus the owner and a quantity (`CartContext.jsx`). */
  datatype CartItem = CartItem(product: Product, userId: string, quantity: int)

  function CartItemId(c: CartItem): string { c.product.id }

  /**
   * An order the payment page saves under the `orders` local-storage key. The cart and total come
   * from the page's navigation state and may be missing.
   */
  datatype PlacedOrder = PlacedOrder(
    userEmail: Option<string>, name: string, phone: string, address: string, state: string,
    pincode: string, paymentMethod: string, items: Option<seq<CartItem>>, total: Option<int>, date: string)
}
