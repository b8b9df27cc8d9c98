/**
 * The order history page (`Order.jsx`): the orders saved in local storage that belong to the
 * logged-in user, in the order they were placed.
 */
module Orders {
  import opened Wrappers
  import opened Seqs
  import opened Records

  /** `order.userEmail === user?.email`; a missing email matches only a missing email. */
  function PlacedBy(email: Option<string>): PlacedOrder -> bool {
    (o: PlacedOrder) => o.userEmail == email
  }

  /** `(JSON.parse(localStorage.getItem("orders")) || []).filter(...)`. */
  function UserOrders(saved: Option<seq<PlacedOrder>>, user: Option<User>): (r: seq<PlacedOrder>)
    ensures saved.None? ==> r == []
    ensures forall o :: o in r <==> o in saved.GetOr([]) && o.userEmail == EmailOf(user)
    ensures |r| <= |saved.GetOr([])|
  {
    Filter(saved.GetOr([]), PlacedBy(EmailOf(user)))
  }

  /** Saving an order appends it to its owner's history and leaves everybody else's as it was. */
  lemma UserOrdersAfterSave(saved: Option<seq<PlacedOrder>>, o: PlacedOrder, user: Option<User>)
    ensures o.userEmail == EmailOf(user) ==>
      UserOrders(Some(saved.GetOr([]) + [o]), user) == UserOrders(saved, user) + [o]
    ensures o.userEmail != EmailOf(user) ==>
      UserOrders(Some(saved.GetOr([]) + [o]), user) == UserOrders(saved, user)
  {
    var p := PlacedBy(EmailOf(user));
    FilterAppend(saved.GetOr([]), [o], p);
    assert Filter([o], p) == (if p(o) then [o] else []) + Filter([], p);
  }

  /** Two different users with emails never see each other's orders. */
  lemma HistoriesAreSeparate(saved: Option<seq<PlacedOrder>>, u1: User, u2: User)
    requires u1.email.Some? && u2.email.Some? && u1.email != u2.email
    ensures forall o :: o in UserOrders(saved, Some(u1)) ==> o !in UserOrders(saved, Some(u2))
  {
  }

  /** `item.quantity || 1`. */
  function DisplayQuantity(c: CartItem): (q: int)
    ensures q != 0
    ensures c.quantity != 0 ==> q == c.quantity
    ensures c.quantity == 0 ==> q == 1
  {
    NumOr(Some(c.quantity), 1)
  }
}
