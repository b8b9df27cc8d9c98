/**
 * The payment page (`Payment.jsx`): a delivery form prefilled with the user's name, the
 * all-fields-filled rule, the order it appends to local storage, and where it sends the browser.
 */
module Payment {
  import opened Wrappers
  import opened Seqs
  import opened Records
  import opened Orders
  import App

  /** `location.state`: what the cart page passed along, either part possibly missing. */
  datatype Checkout = Checkout(cart: Option<seq<CartItem>>, totalAmount: Option<int>)

  const PhoneMaxLength := 10
  const States := ["Kerala", "Tamil Nadu", "Karnataka"]
  const PaymentMethods := ["Online", "COD"]

  /** The two places the page sends the browser to. */
  datatype Leave = CartWasEmpty | OrderPlaced

  /** The paths the page navigates to, as the source writes them. */
  function TargetAsWritten(why: Leave): string {
    match why
    case CartWasEmpty => "/products"
    case OrderPlaced => "/orders"
  }

  /** As written, both targets fall through the route table and render nothing. */
  lemma TargetsAsWrittenMatchNoRoute(why: Leave, user: Option<User>)
    ensures App.Route(TargetAsWritten(why), user) == App.NoMatch
  {
  }

  /** The paths the application actually serves the product list and the order history on. */
  function Target(why: Leave): string {
    match why
    case CartWasEmpty => App.ProductsPath
    case OrderPlaced => App.OrdersPath
  }

  /** Corrected, the empty-cart redirect shows the product list and a placed order shows the history, for anybody. */
  lemma TargetsRender(why: Leave, user: Option<User>)
    ensures why.CartWasEmpty? ==> App.Route(Target(why), user) == App.Render(App.Products)
    ensures why.OrderPlaced? ==> App.Route(Target(why), user) == App.Render(App.Order)
  {
  }

  /**
   * The load effect, as written: a missing or empty cart navigates to "/products", a path the
   * route table does not serve, so nothing renders.
   */
  function RedirectOnLoad(c: Checkout): (r: Option<string>)
    ensures r.Some? <==> c.cart.None? || c.cart.value == []
    ensures r.Some? ==> r.value == TargetAsWritten(CartWasEmpty)
    ensures r.Some? ==> forall u :: App.Route(r.value, u) == App.NoMatch
  {
    if c.cart.None? || |c.cart.value| == 0 then Some(TargetAsWritten(CartWasEmpty)) else None
  }

  /** `<input maxLength="10">`: the browser keeps at most ten characters. */
  function PhoneInput(typed: string): (r: string)
    ensures |r| == Min(PhoneMaxLength, |typed|)
    ensures r == typed[..|r|]
  {
    if |typed| <= PhoneMaxLength then typed else typed[..PhoneMaxLength]
  }

  datatype TextField = NameField | PhoneField | AddressField | PincodeField

  class PaymentPage {
    const user: Option<User>
    const checkout: Checkout
    var name: string
    var phone: string
    var address: string
    var pincode: string
    var state: string
    var paymentMethod: string
    /** The `orders` local-storage key; `None` when nothing is stored. */
    var storedOrders: Option<seq<PlacedOrder>>
    var navigatedTo: Option<string>

    /**
     * Mounting the page: the name is prefilled from the user, and an empty cart redirects at once,
     * to the as-written target of `RedirectOnLoad`.
     */
    constructor(user: Option<User>, checkout: Checkout, storedOrders: Option<seq<PlacedOrder>>)
      ensures this.user == user && this.checkout == checkout && this.storedOrders == storedOrders
      ensures name == (if user.Some? then user.value.name.GetOr("") else "")
      ensures phone == address == pincode == state == paymentMethod == ""
      ensures navigatedTo == RedirectOnLoad(checkout)
    {
      this.user, this.checkout, this.storedOrders := user, checkout, storedOrders;
      name := if user.Some? then user.value.name.GetOr("") else "";
      phone, address, pincode, state, paymentMethod := "", "", "", "", "";
      navigatedTo := RedirectOnLoad(checkout);
    }

    predicate AllFilled()
      reads this
    {
      name != "" && address != "" && phone != "" && state != "" && pincode != "" && paymentMethod != ""
    }

    /** Typing into one of the text inputs. */
    method Type(field: TextField, typed: string)
      modifies this
      ensures field == NameField ==> name == typed
      ensures field == PhoneField ==> phone == PhoneInput(typed)
      ensures field == AddressField ==> address == typed
      ensures field == PincodeField ==> pincode == typed
      ensures field != NameField ==> name == old(name)
      ensures field != PhoneField ==> phone == old(phone)
      ensures field != AddressField ==> address == old(address)
      ensures field != PincodeField ==> pincode == old(pincode)
      ensures state == old(state) && paymentMethod == old(paymentMethod)
      ensures storedOrders == old(storedOrders) && navigatedTo == old(navigatedTo)
    {
      match field
      case NameField => name := typed;
      case PhoneField => phone := PhoneInput(typed);
      case AddressField => address := typed;
      case PincodeField => pincode := typed;
    }

    /** The state drop-down: "" (the placeholder) or one of the listed states. */
    method SelectState(v: string)
      requires v == "" || v in States
      modifies this
      ensures state == v
      ensures name == old(name) && phone == old(phone) && address == old(address) && pincode == old(pincode)
      ensures paymentMethod == old(paymentMethod) && storedOrders == old(storedOrders) && navigatedTo == old(navigatedTo)
    {
      state := v;
    }

    /** The payment-method radio buttons. */
    method SelectPaymentMethod(v: string)
      requires v in PaymentMethods
      modifies this
      ensures paymentMethod == v && paymentMethod != ""
      ensures name == old(name) && phone == old(phone) && address == old(address) && pincode == old(pincode)
      ensures state == old(state) && storedOrders == old(storedOrders) && navigatedTo == old(navigatedTo)
    {
      paymentMethod := v;
    }

    /**
     * "Pay & Place Order": with every field filled, the order is appended to the stored orders and
     * the browser is sent to the as-written "/orders", which no route serves; otherwise the page
     * only warns. `Target(OrderPlaced)` is where it was meant to go.
     */
    method HandlePayment(now: string) returns (placed: Option<PlacedOrder>)
      modifies this
      ensures placed.Some? <==> old(AllFilled())
      ensures placed.Some? ==>
        && placed.value == PlacedOrder(EmailOf(user), name, phone, address, state, pincode, paymentMethod,
                                       checkout.cart, checkout.totalAmount, now)
        && storedOrders == Some(old(storedOrders).GetOr([]) + [placed.value])
        && UserOrders(storedOrders, user) == UserOrders(old(storedOrders), user) + [placed.value]
        && navigatedTo == Some(TargetAsWritten(OrderPlaced))
        && App.Route(navigatedTo.value, user) == App.NoMatch
      ensures placed.None? ==> storedOrders == old(storedOrders) && navigatedTo == old(navigatedTo)
      ensures name == old(name) && phone == old(phone) && address == old(address) && pincode == old(pincode)
      ensures state == old(state) && paymentMethod == old(paymentMethod)
    {
      if !AllFilled() {
        return None;
      }
      var order := PlacedOrder(EmailOf(user), name, phone, address, state, pincode, paymentMethod,
                               checkout.cart, checkout.totalAmount, now);
      UserOrdersAfterSave(storedOrders, order, user);
      storedOrders := Some(storedOrders.GetOr([]) + [order]);
      navigatedTo := Some(TargetAsWritten(OrderPlaced));
      TargetsAsWrittenMatchNoRoute(OrderPlaced, user);
      placed := Some(order);
    }
  }
}
