/** The cart fetch of the user layout
    (client/src/components/Layout/UserLayout.jsx): which identity the
    layout sends when it asks the server for the cart. */
module UserLayout {
  import opened Common
  import opened CartModel
  import opened CartRoutes

  /** The `userId` and `guestId` arguments of the fetch, or no fetch at all
      when there is neither a user id nor a guest identifier. A signed-in
      user's cart is asked for by user id alone, a guest's by guest
      identifier alone, so exactly one argument is set; and the server's
      lookup then picks the same owner it would pick from the full
      state. */
  function CartFetchArgs(userId: Option<string>, guestId: Option<string>): (r: Option<(Option<string>, Option<string>)>)
    ensures r.None? <==> !Truthy(userId) && !Truthy(guestId)
    ensures r.Some? && Truthy(userId) ==> r.value == (userId, None)
    ensures r.Some? && !Truthy(userId) ==> r.value == (None, guestId)
    ensures r.Some? ==> (r.value.0.Some? <==> r.value.1.None?)
    ensures r.Some? ==> OwnerOf(r.value.0, r.value.1) == OwnerOf(userId, guestId)
  {
    if Truthy(userId) || Truthy(guestId) then
      Some((if Truthy(userId) then userId else None,
            if !Truthy(userId) then guestId else None))
    else None
  }

  /** The fetched cart is the one the server would find for the full
      state. */
  lemma FetchFindsStateCart(carts: seq<Cart>, userId: Option<string>, guestId: Option<string>)
    requires CartFetchArgs(userId, guestId).Some?
    ensures var args := CartFetchArgs(userId, guestId).value;
      GetCart(carts, args.0, args.1) == GetCart(carts, userId, guestId)
  {
  }
}
