/** The decisions of the login page (frontend/src/pages/Login.jsx): where to
    go after signing in, and whether the guest cart is merged first. */
module LoginPage {
  import opened Common
  import opened ClientCart

  /** `sub` occurs in `s` starting at index `i`. */
  predicate OccursAt(s: string, sub: string, i: nat) {
    i + |sub| <= |s| && s[i..i + |sub|] == sub
  }

  /** `s.includes(sub)`. */
  function Contains(s: string, sub: string): (r: bool)
    ensures r <==> exists i: nat :: OccursAt(s, sub, i)
    decreases |s|
  {
    if |sub| > |s| then
      assert forall i: nat :: !OccursAt(s, sub, i);
      false
    else if s[..|sub|] == sub then
      assert OccursAt(s, sub, 0);
      true
    else
      var rest := Contains(s[1..], sub);
      ContainsShift(s, sub);
      rest
  }

  /** An occurrence in `s` past the first index is an occurrence in the
      tail, one index earlier, and back. */
  lemma ContainsShift(s: string, sub: string)
    requires |sub| <= |s| && s[..|sub|] != sub
    ensures (exists i: nat :: OccursAt(s, sub, i)) <==> (exists i: nat :: OccursAt(s[1..], sub, i))
  {
    if exists i: nat :: OccursAt(s, sub, i) {
      var i: nat :| OccursAt(s, sub, i);
      assert i != 0;
      assert s[1..][i - 1..i - 1 + |sub|] == s[i..i + |sub|];
      assert OccursAt(s[1..], sub, i - 1);
    }
    if exists i: nat :: OccursAt(s[1..], sub, i) {
      var i: nat :| OccursAt(s[1..], sub, i);
      assert s[i + 1..i + 1 + |sub|] == s[1..][i..i + |sub|];
      assert OccursAt(s, sub, i + 1);
    }
  }

  /** The `redirect` query parameter, or "/" when it is missing or empty. */
  function Redirect(query: Option<string>): (r: string)
    ensures Truthy(query) ==> r == query.value
    ensures !Truthy(query) ==> r == "/"
    ensures r != ""
  {
    OrElse(query, "/")
  }

  predicate IsCheckoutRedirect(redirect: string) {
    Contains(redirect, "checkout")
  }

  /** Where the page navigates once a user is signed in. */
  function Target(query: Option<string>): (path: string)
    ensures IsCheckoutRedirect(Redirect(query)) ==> path == "/checkout"
    ensures !IsCheckoutRedirect(Redirect(query)) ==> path == Redirect(query)
    ensures path != ""
  {
    var redirect := Redirect(query);
    if IsCheckoutRedirect(redirect) then "/checkout" else redirect
  }

  /** The guest cart is merged when it has a line and there is a guest
      identifier. */
  predicate ShouldMerge(cart: Option<CartView>, guestId: Option<string>) {
    |LinesOf(cart)| > 0 && Truthy(guestId)
  }

  datatype LoginEffect = MergeCart(guestId: string) | NavigateTo(path: string)

  /** What the page's effect does: nothing while signed out; otherwise
      the merge, when one is due, followed by navigation to the target
      once the merge has settled. The merge's success and its failure
      lead to the same navigation, so its outcome is not a parameter. */
  function LoginEffects(signedIn: bool, cart: Option<CartView>, guestId: Option<string>,
                        query: Option<string>): (effects: seq<LoginEffect>)
    ensures !signedIn <==> effects == []
    ensures signedIn && ShouldMerge(cart, guestId) ==>
      effects == [MergeCart(guestId.value), NavigateTo(Target(query))]
    ensures signedIn && !ShouldMerge(cart, guestId) ==> effects == [NavigateTo(Target(query))]
    ensures forall e :: e in effects && e.MergeCart? ==> signedIn && |LinesOf(cart)| > 0 && Truthy(Some(e.guestId))
    ensures signedIn ==> effects[|effects| - 1] == NavigateTo(Target(query))
  {
    if !signedIn then []
    else if ShouldMerge(cart, guestId) then [MergeCart(guestId.value), NavigateTo(Target(query))]
    else [NavigateTo(Target(query))]
  }

  /** A redirect that names the checkout anywhere leads to the checkout
      page, for instance the one the cart drawer sends signed-out users
      with. */
  lemma CheckoutRedirectLeadsToCheckout(prefix: string, suffix: string)
    ensures Target(Some(prefix + "checkout" + suffix)) == "/checkout"
  {
    var s := prefix + "checkout" + suffix;
    assert s[|prefix|..|prefix| + |"checkout"|] == "checkout";
    assert OccursAt(s, "checkout", |prefix|);
  }
}
