/** Signing in from the login page: the authentication reducer
    (client/src/redux/slices/authSlice.js) rotates the guest identifier in
    the same step that sets the user, and the login page
    (frontend/src/pages/Login.jsx) reacts to the new user by merging the
    cart of the guest identifier it then reads. */
module LoginFlow {
  import opened Common
  import opened ClientCart
  import opened AuthSlice
  import opened LoginPage

  /** The flow as written: the page's effect runs after the fulfilled
      sign-in, so the merge it sends names the freshly minted guest
      identifier and never the one the guest cart was kept under. */
  method SignInThenEffects(auth: AuthState, payload: AuthUser, now: nat,
                           cart: Option<CartView>, query: Option<string>)
      returns (effects: seq<LoginEffect>)
    requires auth.Valid()
    requires auth.guestId != GuestIdAt(now)
    modifies auth
    ensures auth.Valid() && auth.user == Some(payload)
    ensures |LinesOf(cart)| > 0 ==> effects == [MergeCart(GuestIdAt(now)), NavigateTo(Target(query))]
    ensures forall e :: e in effects && e.MergeCart? ==> e.guestId != old(auth.guestId)
  {
    auth.SignedIn(payload, now);
    effects := LoginEffects(true, cart, Some(auth.guestId), query);
  }

  /** The flow the guest-id rotation is meant to allow: the merge names the
      guest identifier of the session that is signing in, and the page
      still goes to its target afterwards. */
  method SignInMergingGuestCart(auth: AuthState, payload: AuthUser, now: nat,
                                cart: Option<CartView>, query: Option<string>)
      returns (effects: seq<LoginEffect>)
    requires auth.Valid()
    modifies auth
    ensures auth.Valid() && auth.user == Some(payload)
    ensures |LinesOf(cart)| > 0 ==> effects == [MergeCart(old(auth.guestId)), NavigateTo(Target(query))]
    ensures |LinesOf(cart)| == 0 ==> effects == [NavigateTo(Target(query))]
  {
    var sessionGuestId := auth.guestId;
    auth.SignedIn(payload, now);
    effects := LoginEffects(true, cart, Some(sessionGuestId), query);
  }
}
