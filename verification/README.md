# F-Project storefront, modelled in Dafny

A model of the core of a React clothing storefront. The shop side covers:

- a product listing with a gender filter, four sort orders and pages of ten;
- a shared cart and wishlist backed by a json-server store;
- a cart page with quantity buttons and "Buy All";
- a payment form that saves orders to local storage, and an order history;
- a registration form.

The admin side covers:

- a dashboard with totals, recent orders and top sellers;
- an analytics page with a 30-day revenue trend and the top products by revenue;
- a user editor that guards unsaved changes.

The application shell routes paths to screens and gates the admin screens on `isAdmin`.

One module per source file:

- `Analytics`: `src/Admin/AdminAnalytics.jsx`
- `Dashboard`: `src/Admin/AdminDashboard.jsx`
- `Catalog`: `src/pages/Products.jsx`
- `CartContext`: `src/pages/CartContext.jsx`
- `CartPage`: `src/pages/Cart.jsx`
- `Registration`: `src/pages/Registration.jsx`
- `Payment`: `src/pages/Payment.jsx`
- `Orders`: `src/pages/Order.jsx`
- `AdminUsers`: `src/Admin/AdminUsers.jsx`
- `App`: `src/App.jsx`

Shared modules:

- `Wrappers`: `Option`.
- `Seqs`: filter, sums, duplicate-freedom and slices.
- `Sorting`: an in-place insertion sort on an array.
- `Text`: the default string order, whitespace, trimming and prefixes.
- `Records`: the stored records.
- `Grouping`: the `forEach` loops that total values per key into an object, written as loops over maps.
- `Ranking`: `Object.entries(...).sort(desc).slice(0, n)`.

How JavaScript and the outside world are represented:

- JavaScript values are modelled explicitly:
  - A number that may be missing is an `Option<int>`.
  - `Number(x) || d` is `NumOr`, so 0 and a missing value both fall back to `d`.
  - `?.` and `??` are matches on `Option`.
  - A string that is only tested for truthiness is a `string`, with "" for absent.
- The network, local storage and the browser are fields and parameters:
  - The json-server collections are class fields (`remoteCart`, `sent`, `storedOrders`, `users`).
  - Whether a request succeeds is an input (`ok`, `fetched`, `status`, `failAt`).
  - A confirmation dialog's answer is an input (`confirmDiscard`, `confirmed`).
  - The clock is an input (`now`).
- Two platform functions are parameters:
  - the conversion of an order date to its calendar day (`dayKey`: `None` where `new Date(..).toISOString()` throws);
  - `localeCompare` (`nameLe`, required to be a total preorder).

An order date that does not parse is not skipped. `toISOString()` throws inside the `forEach` (`src/Admin/AdminAnalytics.jsx:44`), and the `catch` at :76 swallows it. So the summary cards are set, but neither chart is. `Analytics.AnalyticsPage.FetchData` states exactly this.

The model also assumes one thing about json-server. It refuses to create a record whose id it already holds, so a second `POST` of a product id does not duplicate it (`CartContext.CartStore.AddToCart`).

## Model

| member | source | states |
|---|---|---|
| Records.TotalRevenueOnlyReadsAmounts | src/Admin/AdminAnalytics.jsx:36 | revenue depends on the orders' `amount` fields only |
| Records.TotalRevenueAppend | src/Admin/AdminAnalytics.jsx:36 | each order adds its amount to the revenue, or nothing when it has none |
| Analytics.SummaryOfNewOrder | src/Admin/AdminAnalytics.jsx:33-38 | one more order raises the order count by one and the revenue by its amount; product and user counts stay |
| Analytics.TrendRevenueCases | src/Admin/AdminAnalytics.jsx:45 | a day's revenue from an order is a nonzero amount, else a nonzero total, else 0 |
| Analytics.DayCountsPartitionOrders | src/Admin/AdminAnalytics.jsx:47 | the per-day order counts add up to the number of orders |
| Analytics.DayRevenuesPartitionRevenue | src/Admin/AdminAnalytics.jsx:45-46 | the per-day revenues add up to the revenue of all orders |
| Analytics.DayTablesNext | src/Admin/AdminAnalytics.jsx:43-48 | one loop step keeps both day tables exact for the orders seen so far |
| Analytics.DayTableNext | src/Admin/AdminAnalytics.jsx:46-47 | adding an order to its day keeps a day table exact |
| Analytics.AllDatesValidNext | src/Admin/AdminAnalytics.jsx:44 | a converting date extends the run of converting dates |
| Analytics.AggregateByDay | src/Admin/AdminAnalytics.jsx:41-48 | succeeds exactly when every date converts; then `byDate`/`byDateCount` hold each day's revenue and count, keyed by exactly the occurring days |
| Analytics.TrendFrom | src/Admin/AdminAnalytics.jsx:51 | one point per day, carrying that day's revenue and its count (0 when absent) |
| Analytics.LastAscending | src/Admin/AdminAnalytics.jsx:50 | the last n of a sorted duplicate-free day list are strictly ascending |
| Analytics.LastAreGreatest | src/Admin/AdminAnalytics.jsx:50 | every day left out by `slice(-30)` sorts before every day kept |
| Analytics.TrendDatesOfSorted | src/Admin/AdminAnalytics.jsx:50-51 | the trend's dates are at most 30 distinct occurring days, ascending, and the latest ones |
| Analytics.TrendValuesOfTables | src/Admin/AdminAnalytics.jsx:51 | each trend point carries its day's revenue and order count |
| Analytics.TrendOfSortedDays | src/Admin/AdminAnalytics.jsx:50-51 | sorting the grouped days and keeping 30 yields a trend satisfying both the date and value conditions |
| Analytics.ComputeTrend | src/Admin/AdminAnalytics.jsx:41-51 | a trend exists exactly when all dates convert, and it is the latest ≤30 days, ascending, with their revenues and counts |
| Analytics.ItemRevenueCases | src/Admin/AdminAnalytics.jsx:58 | a missing or zero quantity counts as 1, a missing or zero price as 0, otherwise price × quantity |
| Analytics.ProductRevenuesPartition | src/Admin/AdminAnalytics.jsx:54-61 | the per-product revenues add up to the revenue of all line items |
| Analytics.FindById | src/Admin/AdminAnalytics.jsx:69 | `None` exactly when no product has the id, else the first product with it |
| Analytics.ProductName | src/Admin/AdminAnalytics.jsx:70 | the first matching product's name when non-empty, else "Product " + id |
| Analytics.WithNames | src/Admin/AdminAnalytics.jsx:68-71 | keeps each ranked id and revenue and adds its catalog name |
| Analytics.WithPercents | src/Admin/AdminAnalytics.jsx:73-74 | keeps ids, names and revenues; each percent is revenue / (subtotal, or 1 when 0) × 100 |
| Analytics.PercentTotalScaled | src/Admin/AdminAnalytics.jsx:74 | the percents add up to subtotal / divisor × 100 |
| Analytics.PercentsSumTo100 | src/Admin/AdminAnalytics.jsx:73-74 | with a nonzero subtotal the shares add up to exactly 100 |
| Analytics.ZeroSubtotalPercents | src/Admin/AdminAnalytics.jsx:73 | with a zero subtotal each percent is revenue × 100 |
| Analytics.ComputeTopProducts | src/Admin/AdminAnalytics.jsx:54-74 | at most 6 distinct product keys with their exact revenues, non-increasing, none left out earning more than one kept, named and with percents |
| Analytics.AnalyticsPage.constructor | src/Admin/AdminAnalytics.jsx:20-22 | zero summary, empty charts |
| Analytics.AnalyticsPage.FetchData | src/Admin/AdminAnalytics.jsx:24-79 | a failed fetch changes nothing; a good fetch sets the summary, and the two charts only when every date converts |
| Grouping.AddItems | src/Admin/AdminAnalytics.jsx:56-60 | the inner loop extends the per-key totals by one order's items |
| Grouping.AccumulateItems | src/Admin/AdminAnalytics.jsx:54-61 | the per-key table holds, for exactly the occurring keys, the sum of the values of the items with that key, with a duplicate-free key list |
| Ranking.TopEntries | src/Admin/AdminAnalytics.jsx:63-66 | min(n, keys) distinct entries with their table values, non-increasing, and no left-out key exceeds a kept one |
| Text.LexLeIsTotalPreorder | src/Admin/AdminAnalytics.jsx:50 | the default `sort()` order on strings is total and transitive |
| Dashboard.StatsOfNewOrder | src/Admin/AdminDashboard.jsx:34-42 | one more order raises the order count by one and the revenue by its amount |
| Dashboard.RecentOrders | src/Admin/AdminDashboard.jsx:45 | the last min(5, n) orders, newest first |
| Dashboard.CountsReadOnlyKeys | src/Admin/AdminDashboard.jsx:52 | item counts depend only on the items' ids |
| Dashboard.CountsSkipOrdersWithoutItems | src/Admin/AdminDashboard.jsx:50 | an order without items changes no count |
| Dashboard.SumOfUnits | src/Admin/AdminDashboard.jsx:52 | each item counts once |
| Dashboard.CountsPartitionItems | src/Admin/AdminDashboard.jsx:48-55 | the per-id counts add up to the number of line items |
| Dashboard.TopProductIds | src/Admin/AdminDashboard.jsx:48-61 | min(6, ids) distinct occurring ids, by non-increasing count, none left out counted more than one kept |
| Dashboard.TopCatalogEntries | src/Admin/AdminDashboard.jsx:64-66 | catalog products whose id is a top id, in catalog order: exactly the first min(6, n) of the n such products |
| Dashboard.TopCatalogEntriesOfAppend | src/Admin/AdminDashboard.jsx:64-66 | once 6 catalog products match, later catalog entries do not change the list |
| Dashboard.CustomerLabel | src/Admin/AdminDashboard.jsx:183 | the first non-empty of customer, name, userEmail, email, else "-"; each step of the chain is stated |
| Dashboard.DashboardPage.constructor | src/Admin/AdminDashboard.jsx:9-18 | zero stats, loading, no error, empty lists |
| Dashboard.DashboardPage.FetchData | src/Admin/AdminDashboard.jsx:21-75 | loading ends; a failure records the message and keeps the data; success sets stats and recent orders, and the catalog entries of some six distinct ordered ids ranked by count, none left out that is ordered more often |
| Sorting.SortInPlace | src/pages/Products.jsx:50-53 | the array ends sorted by the comparison and is a permutation of its old contents |
| Sorting.SortedCopy | src/pages/Products.jsx:49 | a sorted permutation of the input; the input is untouched (stability not stated, see Left out) |
| Catalog.GenderFilter | src/pages/Products.jsx:38-41 | "All" keeps the catalog; any other value keeps exactly the products of that gender, each as often as before |
| Catalog.GenderFilterKeepsOrder | src/pages/Products.jsx:41 | filtering keeps catalog order |
| Catalog.NameOrdersArePreorders | src/pages/Products.jsx:52-53 | A→Z and Z→A by `localeCompare` are total preorders |
| Catalog.SortProducts | src/pages/Products.jsx:48-55 | a permutation of the items, sorted for the chosen option; an unknown option leaves the order |
| Catalog.PriceLowHighEnds | src/pages/Products.jsx:50 | after "priceLowHigh" the first product is the cheapest and the last the dearest |
| Catalog.TotalPages | src/pages/Products.jsx:84 | the least page count covering the list; 0 exactly for an empty list |
| Catalog.PageItems | src/pages/Products.jsx:81-83 | page p holds items 10(p−1) .. 10p−1 that exist |
| Catalog.EachItemOnOnePage | src/pages/Products.jsx:81-84 | every item is on exactly one page |
| Catalog.PagesArePrefix | src/pages/Products.jsx:81-83 | the first k pages together are the first 10k items |
| Catalog.PagesCoverList | src/pages/Products.jsx:81-84 | all pages together are the whole list |
| Catalog.NextEnabledOnEmptyList | src/pages/Products.jsx:207 | with no products, page 1 is empty and Next stays enabled |
| Catalog.ProductsPage.constructor | src/pages/Products.jsx:10-14 | empty lists, filter "All", page 1, no sort |
| Catalog.ProductsPage.Load | src/pages/Products.jsx:21-33 | a successful fetch sets both lists to the catalog; a failure changes nothing |
| Catalog.ProductsPage.HandleFilter | src/pages/Products.jsx:35-46 | page 1, the whole catalog filtered afresh and sorted by the active option; with no known option the filtered list as it is |
| Catalog.ProductsPage.HandleSortChange | src/pages/Products.jsx:57-61 | the shown list is re-sorted as a permutation; the placeholder or an unknown option keeps it as it is; catalog, filter and page stay |
| Catalog.ProductsPage.Prev | src/pages/Products.jsx:180-182 | one page back unless on page 1 |
| Catalog.ProductsPage.Next | src/pages/Products.jsx:206-208 | one page on unless on the page numbered `totalPages` |
| Catalog.ProductsPage.GoToPage | src/pages/Products.jsx:192-195 | jumps to any page 1..totalPages |
| Catalog.ProductsPage.HandleAddToCart | src/pages/Products.jsx:149-160 | no user: to the login page, cart untouched; else the product is added and the browser goes to the cart |
| Catalog.ProductsPage.HandleAddToWishlist | src/pages/Products.jsx:63-78 | no user: to the login page; an id already listed: nothing; else the product is added |
| CartContext.DeleteIdsKeepsOthers | src/pages/CartContext.jsx:70-73 | the store keeps exactly the records whose id is not among the deleted items |
| CartContext.DeleteIdsNext | src/pages/CartContext.jsx:71-72 | each delete in the loop removes one more id |
| CartContext.DeleteIdsKeepsUnique | src/pages/CartContext.jsx:70-73 | deleting records one id at a time never leaves two records with the same id |
| CartContext.WithQuantity | src/pages/Cart.jsx:17-32 | only the quantity of items with the id changes; ids stay unique |
| CartContext.WithQuantityAt | src/pages/Cart.jsx:17-32 | with unique ids, exactly one item changes |
| CartContext.CartStore.constructor | src/pages/CartContext.jsx:7-9 | empty local lists over the given store |
| CartContext.CartStore.Load | src/pages/CartContext.jsx:12-30 | with a user and a good fetch, the lists become the user's records; otherwise nothing changes |
| CartContext.CartStore.AddToCart | src/pages/CartContext.jsx:33-51 | no user or a held id: nothing; else an item with quantity 1 and the user's id is stored and appended |
| CartContext.CartStore.RemoveFromCart | src/pages/CartContext.jsx:54-64 | a held id is deleted remotely first; then the id leaves the cart; a failed delete changes nothing |
| CartContext.CartStore.ClearCart | src/pages/CartContext.jsx:67-78 | the user's items are deleted one by one; a failure keeps the cart and the earlier deletes; success empties the whole cart |
| CartContext.CartStore.SetQuantity | src/pages/Cart.jsx:17-32 | both lists get the new quantity for the id, unique ids kept |
| CartContext.CartStore.AddToWishlist | src/pages/CartContext.jsx:81-99 | as AddToCart, for wishlist entries |
| CartContext.CartStore.RemoveFromWishlist | src/pages/CartContext.jsx:102-111 | on success the id leaves both wishlists; otherwise nothing changes |
| CartPage.TotalAmountAppend | src/pages/Cart.jsx:11-14 | an empty cart costs 0 and each item adds price × quantity |
| CartPage.Increased | src/pages/Cart.jsx:18 | the same product and owner with one more unit |
| CartPage.IncreaseStep | src/pages/Cart.jsx:17-21 | "+" asks to remove the item and add it back with one more unit |
| CartPage.DecreaseStep | src/pages/Cart.jsx:24-32 | "−" only removes at quantity 1, else re-adds with one unit less |
| CartPage.IncreaseAddsOnePrice | src/pages/Cart.jsx:11-21 | one more unit raises the total by one unit price |
| CartPage.DecreaseRemovesOnePrice | src/pages/Cart.jsx:24-32 | one unit less lowers the total by one unit price |
| CartPage.QuantityButtonsDropItemAsWritten | src/pages/Cart.jsx:17-32 | as written, both buttons remove the item from the cart |
| CartPage.IncreaseEmptiesCartAsWritten | src/pages/Cart.jsx:17-21 | as written, "+" on a one-item cart leaves it empty |
| CartPage.HandleIncrease | src/pages/Cart.jsx:17-21 | corrected: the quantity rises by one in place in the local and the stored cart, and the total by one unit price; a failure changes neither |
| CartPage.HandleDecrease | src/pages/Cart.jsx:24-32 | corrected: removal from both carts at quantity 1, else one unit less in place in both and the total down by one unit price; a failure changes neither |
| CartPage.HandleBuyAll | src/pages/Cart.jsx:34-37 | an empty cart gives a notice; otherwise the payment page with the cart and its total |
| Registration.IsEmailHasShape | src/pages/Registration.jsx:18 | the matcher accepts only strings of the pattern's shape |
| Registration.ShapeIsEmail | src/pages/Registration.jsx:18 | every string of the pattern's shape is accepted |
| Registration.IsEmailMatchesPattern | src/pages/Registration.jsx:18 | the matcher accepts exactly `^[^\s@]+@[^\s@]+\.[^\s@]+$` |
| Registration.ValidateRules | src/pages/Registration.jsx:9-30 | per field: blank means required; a non-blank email must match; a non-blank password needs ≥6 characters; no errors exactly when all hold |
| Registration.RegistrationForm.constructor | src/pages/Registration.jsx:4-8 | empty fields, message and errors |
| Registration.RegistrationForm.ValidateForm | src/pages/Registration.jsx:9-30 | records the error object and is true exactly when it holds no message |
| Registration.RegistrationForm.HandleSubmit | src/pages/Registration.jsx:32-52 | an invalid form posts nothing and shows its errors; a failed post shows the server error; 201 stores the user and clears the form; another status stores the user and leaves message and fields as they were |
| App.InitialUser | src/App.jsx:26-32 | the stored user when it parses to a record, else none |
| App.Route | src/App.jsx:40-102 | no match exactly off the route table; an admin path without an admin user redirects to login |
| App.RouteTablesDisjoint | src/App.jsx:41-101 | no path is both public and admin; admin paths start with "/admin" |
| App.AdminGate | src/App.jsx:52-101 | an admin screen renders only for an admin, and always for one |
| App.PublicRoutesIgnoreUser | src/App.jsx:41-50 | a public path renders the same non-admin screen for every user |
| App.NavbarFollowsRoutes | src/App.jsx:111-117 | admin screens hide the public navbar; public screens show it |
| App.PrefixHidesNavbarOffRoute | src/App.jsx:115 | "/administrator" matches no route yet hides the navbar |
| Orders.UserOrders | src/pages/Order.jsx:10-14 | exactly the saved orders whose `userEmail` equals the user's email, in saved order; none when nothing is saved |
| Orders.UserOrdersAfterSave | src/pages/Order.jsx:10-13 | saving an order appends it to its owner's history and leaves other histories unchanged |
| Orders.HistoriesAreSeparate | src/pages/Order.jsx:11-13 | users with different emails see disjoint histories |
| Orders.DisplayQuantity | src/pages/Order.jsx:54 | the quantity, or 1 when it is 0 |
| Payment.TargetsAsWrittenMatchNoRoute | src/pages/Payment.jsx:71 | as written, "/orders" and "/products" match no route |
| Payment.TargetsRender | src/pages/Payment.jsx:69-82 | corrected, the targets render the product list and the order history |
| Payment.RedirectOnLoad | src/pages/Payment.jsx:77-82 | a missing or empty cart redirects, as written, to "/products", which matches no route |
| Payment.PhoneInput | src/pages/Payment.jsx:107-109 | the phone keeps its first min(10, n) characters |
| Payment.PaymentPage.constructor | src/pages/Payment.jsx:9-18 | the name from the user or "", other fields empty, the as-written empty-cart redirect |
| Payment.PaymentPage.Type | src/pages/Payment.jsx:93-128 | typing sets one field, the phone truncated to 10 characters |
| Payment.PaymentPage.SelectState | src/pages/Payment.jsx:131-140 | the state becomes the chosen option |
| Payment.PaymentPage.SelectPaymentMethod | src/pages/Payment.jsx:164-181 | the method becomes "Online" or "COD" |
| Payment.PaymentPage.HandlePayment | src/pages/Payment.jsx:40-74 | an order is placed exactly when all six fields are non-empty; it is appended to the stored orders, ends the user's history, and the browser goes to the as-written "/orders", which matches no route |
| AdminUsers.InitialForm | src/Admin/AdminUsers.jsx:22-27 | the selected user's fields with "" and false for missing ones, or the empty form |
| AdminUsers.DirtyIffDifferent | src/Admin/AdminUsers.jsx:29-36 | dirty exactly when the form differs from the initial form |
| AdminUsers.ApplyChange | src/Admin/AdminUsers.jsx:58-62 | an input changes its own field only; the checkbox sets `isAdmin` |
| AdminUsers.ChangeBackIsClean | src/Admin/AdminUsers.jsx:29-36 | typing back the one differing field's initial value makes the form clean |
| AdminUsers.EditFormCleanIff | src/Admin/AdminUsers.jsx:102-111 | an edit form starts clean exactly when the user has a name, an email and a phone |
| AdminUsers.SubmitRequest | src/Admin/AdminUsers.jsx:79-92 | PUT of the form for a selected user, else POST with password "default123" and unblocked |
| AdminUsers.ToggleBlockRequest | src/Admin/AdminUsers.jsx:126-130 | PATCH of the negated flag, a missing flag counting as unblocked |
| AdminUsers.ToggleTwiceRestores | src/Admin/AdminUsers.jsx:126-130 | toggling twice restores the flag |
| AdminUsers.UsersPage.constructor | src/Admin/AdminUsers.jsx:10-19 | no selection, closed modal, empty form, nothing sent |
| AdminUsers.UsersPage.HandleInputChange | src/Admin/AdminUsers.jsx:58-62 | only the form changes, by the input |
| AdminUsers.UsersPage.ResetForm | src/Admin/AdminUsers.jsx:65-73 | empty form, no selection, clean |
| AdminUsers.UsersPage.HandleEdit | src/Admin/AdminUsers.jsx:102-111 | selects the user, copies its fields, opens the modal; clean exactly when name, email and phone exist |
| AdminUsers.UsersPage.OpenAdd | src/Admin/AdminUsers.jsx:151-156 | a clean empty form in an open modal |
| AdminUsers.UsersPage.Close | src/Admin/AdminUsers.jsx:311-320 | a dirty form with the discard declined keeps everything; otherwise the modal closes clean and the unload guard is off |
| AdminUsers.UsersPage.HandleSubmit | src/Admin/AdminUsers.jsx:76-99 | sends the request; on success the modal closes and the form resets; on failure the form stays |
| AdminUsers.UsersPage.HandleDelete | src/Admin/AdminUsers.jsx:114-123 | a DELETE is sent exactly when confirmed |
| AdminUsers.UsersPage.ToggleBlock | src/Admin/AdminUsers.jsx:126-135 | sends the block toggle; the form stays |

## Left out

- Network, timers and the browser:
  - HTTP requests (axios) are left out. Each request is one atomic step whose success is an input, and `Promise.all` fetches are one step.
  - Concurrency between pending requests is not modelled.
  - The payment page's two `setTimeout` delays, its loading flag and its popup collapse into one step.
- Geolocation and the map on the payment page are left out, along with the `location` field of a saved order, because they are a browser API and floating-point coordinates.
- Number formatting is left out: `toLocaleString`, `toLocaleString()` of dates, and the chart libraries.
- Analytics.WithPercents: percents are exact rationals. The source uses floating point, so its shares only approximately add up to 100.
- Several JavaScript coercions are left out:
  - `Number(...)` of a non-numeric string, which gives `NaN`;
  - `toString()` of numeric ids, so ids are strings throughout;
  - JSON round-trips of non-string names.
- Strings are sequences of characters, not UTF-16 code units. The whitespace of `\s` and `trim` is JavaScript's list written out, and case folding is left out.
- Route matching is exact. React Router also ignores case and a trailing slash; that is left out.
- Ranking.TopEntries: the order among equal values is not stated. The source keeps `Object.entries` order through a stable sort.
- Dashboard.TopProductIds: ties are left unordered, for the same reason as Ranking.TopEntries.
- Analytics.ComputeTopProducts: ties are left unordered, for the same reason as Ranking.TopEntries.
- Catalog.SortProducts: equal keys are not kept in their input order. The model's insertion sort is stable, but the contract does not say so.
- Sorting.SortInPlace: stability is not part of its contract.
- Sorting.SortedCopy: stability is not part of its contract. JavaScript's `Array.prototype.sort` is stable, and `SortProducts` and `TopEntries` sort through this copy.
- Dashboard.CountKey: an item whose id is `null` is counted under "null" and one without an id under "undefined". The model has one absent case, so both fall under "undefined".
- Catalog entries without an id are not representable, since `Product.id` is a string. The source's `p.id.toString()` (`src/Admin/AdminAnalytics.jsx:69`) and `product.id.toString()` (`src/Admin/AdminDashboard.jsx:65`) throw for such an entry; that error path is left out.
- AdminUsers.UsersPage.HandleSubmit: the `fetchUsers` refresh after a request is left out, as are the user list, the view modal and the loading flag. The store's user collection is not modelled.
- The `beforeunload` listener of `src/hooks/useUnsavedChanges.jsx` is reduced to the predicate `UnloadGuardArmed`.
- The Login, Home, Wishlist, ProductDetails, Navbar, AdminNavbar, AdminOrders and AdminProducts screens are not part of this model.
- The order history page reads `order.items.map`, which throws for an order saved without items. That crash is left out.
- The registration form's browser-side `type="email"` check is left out, because it is not part of the page's own code.

## Findings

| source | as written | input that shows it | evidently intended | confidence | as-written member | corrected member |
|---|---|---|---|---|---|---|
| src/pages/Payment.jsx:71 | after an order, `navigate("/orders")`; the route table only has "/order" | any completed payment: "/orders" matches no route and renders nothing | go to the order history at "/order" | not executed | Payment.TargetsAsWrittenMatchNoRoute | Payment.TargetsRender |
| src/pages/Payment.jsx:80 | on an empty cart, `navigate("/products")`; the route table only has "/product" | open the payment page with an empty cart: "/products" matches no route | go to the product list at "/product" | not executed | Payment.TargetsAsWrittenMatchNoRoute | Payment.TargetsRender |
| src/pages/Cart.jsx:17-21 | "+" calls `removeFromCart(item.id)` then `addToCart(updatedItem)`. `addToCart` checks the cart captured at render, which still holds the id, so the add is refused. Were it not refused, it would reset the quantity to 1 | a cart of one item priced 500 with quantity 1: "+" leaves an empty cart, where a total of 1000 was meant | raise the quantity by one in place | not executed | CartPage.IncreaseEmptiesCartAsWritten | CartPage.HandleIncrease |
| src/pages/Cart.jsx:29-31 | "−" above quantity 1 removes the item and re-adds it the same way, so the add is refused | an item with quantity 2: "−" removes it from the cart | lower the quantity by one in place | not executed | CartPage.QuantityButtonsDropItemAsWritten | CartPage.HandleDecrease |
