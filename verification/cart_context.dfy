/**
 * The shared cart and wishlist (`CartContext.jsx`). The json-server collections `/cart` and
 * `/wishlist` are the fields `remoteCart` and `remoteWishlist`; whether a request succeeds is the
 * input `ok`. The store refuses a record whose id it already holds, as json-server does.
 */
module CartContext {
  import opened Wrappers
  import opened Seqs
  import opened Records

  /** A wishlist entry: the product's fields spread, plus the owner. */
  datatype WishItem = WishItem(product: Product, userId: string)

  function WishItemId(w: WishItem): string { w.product.id }

  predicate CartHasId(cart: seq<CartItem>, id: string) { HasKey(cart, CartItemId, id) }
  predicate WishHasId(wishlist: seq<WishItem>, id: string) { HasKey(wishlist, WishItemId, id) }

  function CartOwnedBy(userId: string): CartItem -> bool { (c: CartItem) => c.userId == userId }
  function WishOwnedBy(userId: string): WishItem -> bool { (w: WishItem) => w.userId == userId }
  function CartIdIsNot(id: string): CartItem -> bool { (c: CartItem) => c.product.id != id }
  function WishIdIsNot(id: string): WishItem -> bool { (w: WishItem) => w.product.id != id }

  /** The store after deleting, one request at a time, the records with the ids of `items`. */
  function DeleteIds(store: seq<CartItem>, items: seq<CartItem>): seq<CartItem> {
    if items == [] then store
    else Filter(DeleteIds(store, items[..|items| - 1]), CartIdIsNot(CartItemId(items[|items| - 1])))
  }

  /** The deletes keep exactly the records whose id is not among the deleted items. */
  lemma {:induction false} DeleteIdsKeepsOthers(store: seq<CartItem>, items: seq<CartItem>)
    ensures forall x :: x in DeleteIds(store, items) <==> x in store && !CartHasId(items, CartItemId(x))
    decreases |items|
  {
    if items != [] {
      var init := items[..|items| - 1];
      var last := items[|items| - 1];
      DeleteIdsKeepsOthers(store, init);
      forall x ensures CartHasId(items, CartItemId(x)) <==>
        CartHasId(init, CartItemId(x)) || CartItemId(x) == CartItemId(last) {
        if CartHasId(items, CartItemId(x)) {
          var i :| 0 <= i < |items| && CartItemId(items[i]) == CartItemId(x);
          if i < |items| - 1 { assert init[i] == items[i]; }
        }
        if CartHasId(init, CartItemId(x)) {
          var i :| 0 <= i < |init| && CartItemId(init[i]) == CartItemId(x);
          assert items[i] == init[i];
        }
      }
    }
  }

  /** The list with every item whose id is `id` carrying quantity `q`; order, ids and owners stay. */
  function WithQuantity(s: seq<CartItem>, id: string, q: int): (r: seq<CartItem>)
    ensures |r| == |s|
    ensures forall i :: 0 <= i < |s| ==> r[i].product == s[i].product && r[i].userId == s[i].userId
    ensures forall i :: 0 <= i < |s| ==> r[i].quantity == if CartItemId(s[i]) == id then q else s[i].quantity
    ensures UniqueBy(s, CartItemId) ==> UniqueBy(r, CartItemId)
  {
    seq(|s|, i requires 0 <= i < |s| => if CartItemId(s[i]) == id then s[i].(quantity := q) else s[i])
  }

  /** With unique ids, setting the quantity of `s[i]`'s id changes that one item only. */
  lemma WithQuantityAt(s: seq<CartItem>, i: nat, q: int)
    requires UniqueBy(s, CartItemId) && i < |s|
    ensures WithQuantity(s, CartItemId(s[i]), q) == s[i := s[i].(quantity := q)]
  {
    var r := WithQuantity(s, CartItemId(s[i]), q);
    forall j | 0 <= j < |s| ensures r[j] == s[i := s[i].(quantity := q)][j] {
      if j != i {
        assert CartItemId(s[j]) != CartItemId(s[i]) by {
          if j < i { assert CartItemId(s[j]) != CartItemId(s[i]); } else { assert CartItemId(s[i]) != CartItemId(s[j]); }
        }
      }
    }
  }

  /** Deleting the records of one more item is one more filter step. */
  lemma DeleteIdsNext(store: seq<CartItem>, items: seq<CartItem>, i: nat)
    requires i < |items|
    ensures DeleteIds(store, items[..i + 1]) == Filter(DeleteIds(store, items[..i]), CartIdIsNot(CartItemId(items[i])))
  {
    assert items[..i + 1][..i] == items[..i];
  }

  /** Deleting records never introduces a duplicate id. */
  lemma {:induction false} DeleteIdsKeepsUnique(store: seq<CartItem>, items: seq<CartItem>)
    requires UniqueBy(store, CartItemId)
    ensures UniqueBy(DeleteIds(store, items), CartItemId)
    decreases |items|
  {
    if items != [] {
      var init := items[..|items| - 1];
      DeleteIdsKeepsUnique(store, init);
      UniqueByFilter(DeleteIds(store, init), CartItemId, CartIdIsNot(CartItemId(items[|items| - 1])));
    }
  }

  class CartStore {
    /** The `user` prop of the provider. */
    const user: Option<User>
    var cart: seq<CartItem>
    var wishlist: seq<WishItem>
    var remoteCart: seq<CartItem>
    var remoteWishlist: seq<WishItem>

    /** No list holds two entries with the same id. */
    ghost predicate Valid()
      reads this
    {
      && UniqueBy(cart, CartItemId) && UniqueBy(wishlist, WishItemId)
      && UniqueBy(remoteCart, CartItemId) && UniqueBy(remoteWishlist, WishItemId)
    }

    constructor(user: Option<User>, remoteCart: seq<CartItem>, remoteWishlist: seq<WishItem>)
      requires UniqueBy(remoteCart, CartItemId) && UniqueBy(remoteWishlist, WishItemId)
      ensures Valid()
      ensures this.user == user && cart == [] && wishlist == []
      ensures this.remoteCart == remoteCart && this.remoteWishlist == remoteWishlist
    {
      this.user := user;
      cart, wishlist := [], [];
      this.remoteCart, this.remoteWishlist := remoteCart, remoteWishlist;
    }

    /** The effect on login: the user's own records of both collections (`?userId=${user.id}`). */
    method Load(fetched: bool)
      requires Valid()
      modifies this
      ensures Valid()
      ensures user.Some? && fetched ==>
        cart == Filter(remoteCart, CartOwnedBy(user.value.id)) && wishlist == Filter(remoteWishlist, WishOwnedBy(user.value.id))
      ensures user.None? || !fetched ==> cart == old(cart) && wishlist == old(wishlist)
      ensures remoteCart == old(remoteCart) && remoteWishlist == old(remoteWishlist)
    {
      if user.None? || !fetched {
        return;
      }
      UniqueByFilter(remoteCart, CartItemId, CartOwnedBy(user.value.id));
      UniqueByFilter(remoteWishlist, WishItemId, WishOwnedBy(user.value.id));
      cart := Filter(remoteCart, CartOwnedBy(user.value.id));
      wishlist := Filter(remoteWishlist, WishOwnedBy(user.value.id));
    }

    /** The outcome `addToCart(product)` promises, from the lists `c0` and `rc0` it started with. */
    ghost predicate AddedToCart(c0: seq<CartItem>, rc0: seq<CartItem>, product: Product, ok: bool)
      reads this
    {
      if user.None? || CartHasId(c0, product.id) || !ok || CartHasId(rc0, product.id) then
        cart == c0 && remoteCart == rc0
      else
        var item := CartItem(product, user.value.id, 1);
        cart == c0 + [item] && remoteCart == rc0 + [item]
    }

    /**
     * `addToCart`: nothing without a user or when the cart already holds the product's id;
     * otherwise a new item with quantity 1 and the user's id is posted and, once stored, appended.
     */
    method AddToCart(product: Product, ok: bool)
      requires Valid()
      modifies this
      ensures Valid()
      ensures AddedToCart(old(cart), old(remoteCart), product, ok)
      ensures wishlist == old(wishlist) && remoteWishlist == old(remoteWishlist)
    {
      if user.None? || CartHasId(cart, product.id) {
        return;
      }
      var newItem := CartItem(product, user.value.id, 1);
      if !ok || CartHasId(remoteCart, product.id) {
        return;
      }
      UniqueByAppend(cart, CartItemId, newItem);
      UniqueByAppend(remoteCart, CartItemId, newItem);
      remoteCart := remoteCart + [newItem];
      cart := cart + [newItem];
    }

    /**
     * `removeFromCart(id)`: when the cart holds the id the record is deleted remotely first; then
     * every item with that id leaves the cart. A failed delete changes nothing.
     */
    method RemoveFromCart(id: string, ok: bool)
      requires Valid()
      modifies this
      ensures Valid()
      ensures user.None? || (CartHasId(old(cart), id) && !ok) ==> cart == old(cart) && remoteCart == old(remoteCart)
      ensures user.Some? && (!CartHasId(old(cart), id) || ok) ==>
        cart == Filter(old(cart), CartIdIsNot(id)) && !CartHasId(cart, id)
      ensures user.Some? && CartHasId(old(cart), id) && ok ==> remoteCart == Filter(old(remoteCart), CartIdIsNot(id))
      ensures user.Some? && !CartHasId(old(cart), id) ==> remoteCart == old(remoteCart)
      ensures wishlist == old(wishlist) && remoteWishlist == old(remoteWishlist)
    {
      if user.None? {
        return;
      }
      if CartHasId(cart, id) {
        if !ok {
          return;
        }
        UniqueByFilter(remoteCart, CartItemId, CartIdIsNot(id));
        remoteCart := Filter(remoteCart, CartIdIsNot(id));
      }
      UniqueByFilter(cart, CartItemId, CartIdIsNot(id));
      FilterDropsKey(cart, CartItemId, CartIdIsNot(id), id);
      cart := Filter(cart, CartIdIsNot(id));
    }

    /**
     * `clearCart`: the user's items are deleted remotely one by one; `failAt == Some(k)` makes the
     * k-th delete fail, which leaves the cart as it was and the earlier deletes done. When every
     * delete succeeds the whole cart is emptied, items of other users included.
     */
    method ClearCart(failAt: Option<nat>)
      requires Valid()
      modifies this
      ensures Valid()
      ensures user.None? ==> cart == old(cart) && remoteCart == old(remoteCart)
      ensures user.Some? ==> var userItems := Filter(old(cart), CartOwnedBy(user.value.id));
        if failAt.Some? && failAt.value < |userItems| then
          cart == old(cart) && remoteCart == DeleteIds(old(remoteCart), userItems[..failAt.value])
        else
          cart == [] && remoteCart == DeleteIds(old(remoteCart), userItems)
      ensures wishlist == old(wishlist) && remoteWishlist == old(remoteWishlist)
    {
      if user.None? {
        return;
      }
      var userItems := Filter(cart, CartOwnedBy(user.value.id));
      // The deletes before the failing one go through; the failing one ends the loop.
      var stop := if failAt.Some? && failAt.value < |userItems| then failAt.value else |userItems|;
      var store := remoteCart;
      ghost var start := store;
      assert UniqueBy(start, CartItemId);
      var i := 0;
      while i < stop
        invariant 0 <= i <= stop
        invariant store == DeleteIds(start, userItems[..i])
        invariant unchanged(this)
      {
        DeleteIdsNext(start, userItems, i);
        store := Filter(store, CartIdIsNot(CartItemId(userItems[i])));
        i := i + 1;
      }
      DeleteIdsKeepsUnique(start, userItems[..i]);
      remoteCart := store;
      if stop < |userItems| {
        return;
      }
      assert userItems[..i] == userItems;
      cart := [];
    }

    /**
     * A quantity change in place: the stored record is patched and then the local item. The source
     * has no such operation; the cart page's corrected quantity buttons use it.
     */
    method SetQuantity(id: string, q: int, ok: bool)
      requires Valid()
      modifies this
      ensures Valid()
      ensures user.None? || !ok ==> cart == old(cart) && remoteCart == old(remoteCart)
      ensures user.Some? && ok ==>
        cart == WithQuantity(old(cart), id, q) && remoteCart == WithQuantity(old(remoteCart), id, q)
      ensures wishlist == old(wishlist) && remoteWishlist == old(remoteWishlist)
    {
      if user.None? || !ok {
        return;
      }
      remoteCart := WithQuantity(remoteCart, id, q);
      cart := WithQuantity(cart, id, q);
    }

    /** The outcome `addToWishlist(product)` promises, from the lists `w0` and `rw0` it started with. */
    ghost predicate AddedToWishlist(w0: seq<WishItem>, rw0: seq<WishItem>, product: Product, ok: bool)
      reads this
    {
      if user.None? || WishHasId(w0, product.id) || !ok || WishHasId(rw0, product.id) then
        wishlist == w0 && remoteWishlist == rw0
      else
        var item := WishItem(product, user.value.id);
        wishlist == w0 + [item] && remoteWishlist == rw0 + [item]
    }

    /** `addToWishlist`: as `addToCart`, with an entry that carries no quantity. */
    method AddToWishlist(product: Product, ok: bool)
      requires Valid()
      modifies this
      ensures Valid()
      ensures AddedToWishlist(old(wishlist), old(remoteWishlist), product, ok)
      ensures cart == old(cart) && remoteCart == old(remoteCart)
    {
      if user.None? || WishHasId(wishlist, product.id) {
        return;
      }
      var newItem := WishItem(product, user.value.id);
      if !ok || WishHasId(remoteWishlist, product.id) {
        return;
      }
      UniqueByAppend(wishlist, WishItemId, newItem);
      UniqueByAppend(remoteWishlist, WishItemId, newItem);
      remoteWishlist := remoteWishlist + [newItem];
      wishlist := wishlist + [newItem];
    }

    /** `removeFromWishlist(id)`: the record is deleted remotely, then every entry with that id leaves the list. */
    method RemoveFromWishlist(id: string, ok: bool)
      requires Valid()
      modifies this
      ensures Valid()
      ensures user.None? || !ok ==> wishlist == old(wishlist) && remoteWishlist == old(remoteWishlist)
      ensures user.Some? && ok ==>
        && wishlist == Filter(old(wishlist), WishIdIsNot(id)) && !WishHasId(wishlist, id)
        && remoteWishlist == Filter(old(remoteWishlist), WishIdIsNot(id))
      ensures cart == old(cart) && remoteCart == old(remoteCart)
    {
      if user.None? || !ok {
        return;
      }
      UniqueByFilter(remoteWishlist, WishItemId, WishIdIsNot(id));
      UniqueByFilter(wishlist, WishItemId, WishIdIsNot(id));
      FilterDropsKey(wishlist, WishItemId, WishIdIsNot(id), id);
      remoteWishlist := Filter(remoteWishlist, WishIdIsNot(id));
      wishlist := Filter(wishlist, WishIdIsNot(id));
    }
  }
}
