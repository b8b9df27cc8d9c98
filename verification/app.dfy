/**
 * The application shell (`App.jsx`): the logged-in user read from local storage, the route
 * table with its admin gate, and the rule that hides the public navbar on admin pages.
 */
module App {
  import opened Wrappers
  import opened Text
  import opened Records

  /** What `localStorage.getItem("loggedInUser")` holds. */
  datatype Stored = Missing | Unparseable | StoredNull | Parsed(u: User)

  /** The initial `user` state: the parsed record, or `null` when nothing usable is stored. */
  function InitialUser(stored: Stored): (user: Option<User>)
    ensures user.Some? <==> stored.Parsed?
    ensures stored.Parsed? ==> user.value == stored.u
  {
    if stored.Parsed? then Some(stored.u) else None
  }

  datatype Screen =
    | Home | Products | Cart | Wishlist | Login | Registration | Payment | Order | ProductDetails
    | AdminDashboard | AdminAnalytics | AdminOrders | AdminProducts | AdminUsers

  /** What the router shows for a path: a screen, a redirect to the login page, or nothing. */
  datatype Outcome = Render(screen: Screen) | RedirectToLogin | NoMatch

  const HomePath := "/"
  const HomeAliasPath := "/home"
  const ProductsPath := "/product"
  const CartPath := "/cart"
  const WishlistPath := "/wishlist"
  const LoginPath := "/login"
  const RegistrationPath := "/registration"
  const PaymentPath := "/payment"
  const OrdersPath := "/order"
  const ProductDetailsPath := "/productdetails"
  const AdminPath := "/admin"
  const AdminAnalyticsPath := "/admin/analytics"
  const AdminOrdersPath := "/admin/orders"
  const AdminProductsPath := "/admin/products"
  const AdminUsersPath := "/admin/users"

  /** The public routes, open to anybody. */
  function PublicScreen(path: string): Option<Screen> {
    if path == HomePath || path == HomeAliasPath then Some(Home)
    else if path == ProductsPath then Some(Products)
    else if path == CartPath then Some(Cart)
    else if path == WishlistPath then Some(Wishlist)
    else if path == LoginPath then Some(Login)
    else if path == RegistrationPath then Some(Registration)
    else if path == PaymentPath then Some(Payment)
    else if path == OrdersPath then Some(Order)
    else if path == ProductDetailsPath then Some(ProductDetails)
    else None
  }

  /** The five admin routes. */
  function AdminScreen(path: string): Option<Screen> {
    if path == AdminPath then Some(AdminDashboard)
    else if path == AdminAnalyticsPath then Some(AdminAnalytics)
    else if path == AdminOrdersPath then Some(AdminOrders)
    else if path == AdminProductsPath then Some(AdminProducts)
    else if path == AdminUsersPath then Some(AdminUsers)
    else None
  }

  predicate IsAdminScreen(s: Screen) {
    s.AdminDashboard? || s.AdminAnalytics? || s.AdminOrders? || s.AdminProducts? || s.AdminUsers?
  }

  /** `<Routes>`: an admin route renders only for an admin user and otherwise redirects to the login page. */
  function Route(path: string, user: Option<User>): (r: Outcome)
    ensures r.NoMatch? <==> PublicScreen(path).None? && AdminScreen(path).None?
    ensures r.RedirectToLogin? <==> AdminScreen(path).Some? && !IsAdmin(user)
  {
    var pub := PublicScreen(path);
    if pub.Some? then Render(pub.value)
    else
      var adm := AdminScreen(path);
      if adm.None? then NoMatch
      else if IsAdmin(user) then Render(adm.value)
      else RedirectToLogin
  }

  /** No path is both public and admin, and every admin path starts with "/admin". */
  lemma RouteTablesDisjoint(path: string)
    ensures PublicScreen(path).None? || AdminScreen(path).None?
    ensures AdminScreen(path).Some? ==> StartsWith(path, AdminPath)
  {
  }

  /** An admin screen is shown only to an admin user, and every admin screen is shown to one. */
  lemma AdminGate(path: string, user: Option<User>)
    ensures Route(path, user).Render? && IsAdminScreen(Route(path, user).screen) ==> IsAdmin(user)
    ensures IsAdmin(user) && AdminScreen(path).Some? ==> Route(path, user) == Render(AdminScreen(path).value)
  {
  }

  /** A public route shows the same screen whoever is logged in. */
  lemma PublicRoutesIgnoreUser(path: string, u1: Option<User>, u2: Option<User>)
    requires PublicScreen(path).Some?
    ensures Route(path, u1) == Route(path, u2) == Render(PublicScreen(path).value)
    ensures !IsAdminScreen(Route(path, u1).screen)
  {
  }

  /** `ConditionalNavbar`: the public navbar is hidden on any path starting with "/admin". */
  predicate ShowNavbar(path: string) {
    !StartsWith(path, AdminPath)
  }

  /** Every admin screen is rendered without the public navbar, and every public screen with it. */
  lemma NavbarFollowsRoutes(path: string, user: Option<User>)
    ensures AdminScreen(path).Some? ==> !ShowNavbar(path)
    ensures PublicScreen(path).Some? ==> ShowNavbar(path)
  {
    if StartsWith(path, AdminPath) {
      assert path[1] == path[..|AdminPath|][1] == 'a';
    }
  }

  /** The prefix test is textual: "/administrator" is no route yet hides the navbar. */
  lemma PrefixHidesNavbarOffRoute()
    ensures Route("/administrator", None) == NoMatch && !ShowNavbar("/administrator")
  {
    assert StartsWith("/administrator", AdminPath);
  }
}
