/**
 * The cart page (`Cart.jsx`): the order total, the item a quantity button builds, and the
 * "Buy All" decision.
 */
module CartPage {
  import opened Seqs
  import opened Records
  import opened CartContext

  /** `Number(item.price) * item.quantity`. */
  function LineTotal(c: CartItem): int { c.product.price * c.quantity }

  /** `cart.reduce((sum, item) => sum + Number(item.price) * item.quantity, 0)`. */
  function TotalAmount(cart: seq<CartItem>): int {
    Sum(cart, LineTotal)
  }

  /** The total grows by each item added to the cart, and an empty cart costs nothing. */
  lemma TotalAmountAppend(cart: seq<CartItem>, c: CartItem)
    ensures TotalAmount([]) == 0
    ensures TotalAmount(cart + [c]) == TotalAmount(cart) + c.product.price * c.quantity
  {
    assert (cart + [c])[..|cart|] == cart;
  }

  /** What a quantity button asks the cart to do: remove the item, and possibly add a rebuilt one. */
  datatype QuantityStep = RemoveOnly(id: string) | RemoveThenAdd(id: string, updated: CartItem)

  /** `{ ...item, quantity: item.quantity + 1 }`. */
  function Increased(item: CartItem): (r: CartItem)
    ensures r.product == item.product && r.userId == item.userId && r.quantity == item.quantity + 1
  {
    item.(quantity := item.quantity + 1)
  }

  /** `handleIncrease`: remove the item, add it back with one more unit. */
  function IncreaseStep(item: CartItem): (step: QuantityStep)
    ensures step.RemoveThenAdd? && step.id == CartItemId(item)
    ensures step.updated.product == item.product && step.updated.userId == item.userId
    ensures step.updated.quantity == item.quantity + 1
  {
    RemoveThenAdd(CartItemId(item), Increased(item))
  }

  /** `handleDecrease`: at quantity 1 the item is only removed; otherwise it comes back with one unit less. */
  function DecreaseStep(item: CartItem): (step: QuantityStep)
    ensures step.id == CartItemId(item)
    ensures step.RemoveOnly? <==> item.quantity == 1
    ensures step.RemoveThenAdd? ==>
      step.updated.product == item.product && step.updated.userId == item.userId && step.updated.quantity == item.quantity - 1
  {
    if item.quantity == 1 then RemoveOnly(CartItemId(item))
    else RemoveThenAdd(CartItemId(item), item.(quantity := item.quantity - 1))
  }

  /** Putting the increased item in its place raises the total by one unit price. */
  lemma IncreaseAddsOnePrice(cart: seq<CartItem>, i: nat)
    requires i < |cart|
    ensures TotalAmount(cart[i := IncreaseStep(cart[i]).updated]) == TotalAmount(cart) + cart[i].product.price
  {
    SumUpdate(cart, LineTotal, i, Increased(cart[i]));
  }

  /** Putting the decreased item in its place lowers the total by one unit price. */
  lemma DecreaseRemovesOnePrice(cart: seq<CartItem>, i: nat)
    requires i < |cart| && cart[i].quantity != 1
    ensures TotalAmount(cart[i := DecreaseStep(cart[i]).updated]) == TotalAmount(cart) - cart[i].product.price
  {
    SumUpdate(cart, LineTotal, i, DecreaseStep(cart[i]).updated);
  }

  /**
   * The cart list after a quantity button, as written: `removeFromCart` filters the id out, then
   * `addToCart(updated)` checks the cart captured when the page rendered, which still holds the id,
   * and adds nothing. (Were it not refused, it would re-add the item with quantity 1.)
   */
  function ApplyStepAsWritten(rendered: seq<CartItem>, step: QuantityStep, userId: string): (after: seq<CartItem>) {
    var removed := Filter(rendered, CartIdIsNot(step.id));
    if step.RemoveOnly? || CartHasId(rendered, CartItemId(step.updated)) then removed
    else removed + [CartItem(step.updated.product, userId, 1)]
  }

  /** As written, "+" and "-" on an item with quantity above 1 both take the item out of the cart. */
  lemma QuantityButtonsDropItemAsWritten(cart: seq<CartItem>, i: nat, userId: string)
    requires i < |cart|
    ensures var id := CartItemId(cart[i]);
      && ApplyStepAsWritten(cart, IncreaseStep(cart[i]), userId) == Filter(cart, CartIdIsNot(id))
      && ApplyStepAsWritten(cart, DecreaseStep(cart[i]), userId) == Filter(cart, CartIdIsNot(id))
      && !CartHasId(Filter(cart, CartIdIsNot(id)), id)
  {
    var id := CartItemId(cart[i]);
    assert CartHasId(cart, id);
    FilterDropsKey(cart, CartItemId, CartIdIsNot(id), id);
  }

  /** A cart of one shirt at 500: "+" leaves an empty cart with total 0, where 1000 was meant. */
  lemma IncreaseEmptiesCartAsWritten()
    ensures var item := CartItem(Product("1", "Shirt", 500, "Men"), "u1", 1);
      && ApplyStepAsWritten([item], IncreaseStep(item), "u1") == []
      && TotalAmount([item.(quantity := 2)]) == 1000
  {
    var item := CartItem(Product("1", "Shirt", 500, "Men"), "u1", 1);
    QuantityButtonsDropItemAsWritten([item], 0, "u1");
    assert Filter([item], CartIdIsNot("1")) == [];
    TotalAmountAppend([], item.(quantity := 2));
    assert [] + [item.(quantity := 2)] == [item.(quantity := 2)];
  }

  /** `handleIncrease`, corrected: the item's quantity goes up by one in place, and the total by one unit price. */
  method HandleIncrease(store: CartStore, i: nat, ok: bool)
    requires store.Valid() && i < |store.cart|
    modifies store
    ensures store.Valid()
    ensures store.user.Some? && ok ==>
      && store.cart == old(store.cart)[i := Increased(old(store.cart)[i])]
      && TotalAmount(store.cart) == TotalAmount(old(store.cart)) + old(store.cart)[i].product.price
      && store.remoteCart == WithQuantity(old(store.remoteCart), CartItemId(old(store.cart)[i]), old(store.cart)[i].quantity + 1)
    ensures store.user.None? || !ok ==> store.cart == old(store.cart) && store.remoteCart == old(store.remoteCart)
    ensures store.wishlist == old(store.wishlist) && store.remoteWishlist == old(store.remoteWishlist)
  {
    var item := store.cart[i];
    WithQuantityAt(store.cart, i, item.quantity + 1);
    IncreaseAddsOnePrice(store.cart, i);
    store.SetQuantity(CartItemId(item), item.quantity + 1, ok);
  }

  /**
   * `handleDecrease`, corrected: at quantity 1 the item is removed; otherwise its quantity goes
   * down by one in place, and the total by one unit price.
   */
  method HandleDecrease(store: CartStore, i: nat, ok: bool)
    requires store.Valid() && i < |store.cart|
    modifies store
    ensures store.Valid()
    ensures store.user.Some? && ok && old(store.cart)[i].quantity == 1 ==>
      var id := CartItemId(old(store.cart)[i]);
      && store.cart == Filter(old(store.cart), CartIdIsNot(id)) && !CartHasId(store.cart, id)
      && store.remoteCart == Filter(old(store.remoteCart), CartIdIsNot(id))
    ensures store.user.Some? && ok && old(store.cart)[i].quantity != 1 ==>
      && store.cart == old(store.cart)[i := DecreaseStep(old(store.cart)[i]).updated]
      && TotalAmount(store.cart) == TotalAmount(old(store.cart)) - old(store.cart)[i].product.price
      && store.remoteCart == WithQuantity(old(store.remoteCart), CartItemId(old(store.cart)[i]), old(store.cart)[i].quantity - 1)
    ensures store.user.None? || !ok ==> store.cart == old(store.cart) && store.remoteCart == old(store.remoteCart)
    ensures store.wishlist == old(store.wishlist) && store.remoteWishlist == old(store.remoteWishlist)
  {
    var item := store.cart[i];
    if item.quantity == 1 {
      assert CartHasId(store.cart, CartItemId(item));
      store.RemoveFromCart(CartItemId(item), ok);
    } else {
      WithQuantityAt(store.cart, i, item.quantity - 1);
      DecreaseRemovesOnePrice(store.cart, i);
      store.SetQuantity(CartItemId(item), item.quantity - 1, ok);
    }
  }

  /** What "Buy All" does: a notice for an empty cart, else the payment page with the cart and its total. */
  datatype BuyAllOutcome = EmptyCartNotice | GoToPayment(cart: seq<CartItem>, totalAmount: int)

  function HandleBuyAll(cart: seq<CartItem>): (r: BuyAllOutcome)
    ensures r.EmptyCartNotice? <==> cart == []
    ensures r.GoToPayment? ==> r.cart == cart && r.totalAmount == TotalAmount(cart)
  {
    if |cart| == 0 then EmptyCartNotice else GoToPayment(cart, TotalAmount(cart))
  }
}
