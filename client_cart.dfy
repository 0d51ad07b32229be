/** What the client does with the cart the server returns: the drawer's
    subtotal and checkout (frontend/src/components/Layout/CartDrawer.jsx),
    the navigation bar's item count, badge and links
    (frontend/src/components/Common/Navbar.jsx), and the quantity and
    remove buttons of each line (frontend/src/components/Cart/CartContents.jsx).

    `cart` is the cart in the client state, which may be missing; its
    `products` may be missing too. */
module ClientCart {
  import opened Common
  import opened CartModel
  import opened CartLines
  import opened Seqs

  datatype CartView = CartView(products: Option<seq<LineItem>>)

  /** `cart?.products`, with a missing cart or list read as no lines. */
  function LinesOf(cart: Option<CartView>): (lines: seq<LineItem>)
    ensures cart.None? || cart.value.products.None? ==> lines == []
    ensures cart.Some? && cart.value.products.Some? ==> lines == cart.value.products.value
  {
    if cart.Some? && cart.value.products.Some? then cart.value.products.value else []
  }

  /** The `reduce((total, p) => total + p.price * p.quantity, acc)`: the
      client's left-to-right fold computes the server's total formula,
      added to the starting value. */
  function PriceFold(acc: int, lines: seq<LineItem>): (r: int)
    ensures r == acc + TotalPrice(lines)
    decreases |lines|
  {
    if lines == [] then acc
    else
      var r := PriceFold(acc + lines[0].price * lines[0].quantity, lines[1..]);
      HeadTail(lines);
      TotalPriceAppend([lines[0]], lines[1..]);
      TotalPriceSingle(lines[0]);
      r
  }

  /** The drawer's subtotal, `... || 0`: the total the server stores for
      the same lines, and 0 when there are none. */
  function CartTotalPrice(cart: Option<CartView>): (r: int)
    ensures r == TotalPrice(LinesOf(cart))
    ensures LinesOf(cart) == [] ==> r == 0
  {
    var t := PriceFold(0, LinesOf(cart));
    if t != 0 then t else 0
  }

  /** The `reduce((total, p) => total + p.quantity, acc)` of the badge;
      with no negative quantity it never falls below its start. */
  function QuantityFold(acc: int, lines: seq<LineItem>): (r: int)
    ensures (forall j :: 0 <= j < |lines| ==> lines[j].quantity >= 0) ==> r >= acc
    decreases |lines|
  {
    if lines == [] then acc
    else
      assert forall j :: 0 <= j < |lines| - 1 ==> lines[1..][j] == lines[j + 1];
      QuantityFold(acc + lines[0].quantity, lines[1..])
  }

  /** The navigation bar's item count, `... || 0`: the fallback never
      changes the count, and no lines count 0. */
  function CartItemCount(cart: Option<CartView>): (r: int)
    ensures r == QuantityFold(0, LinesOf(cart))
    ensures LinesOf(cart) == [] ==> r == 0
  {
    var n := QuantityFold(0, LinesOf(cart));
    if n != 0 then n else 0
  }

  lemma {:induction false} QuantityFoldAppend(acc: int, a: seq<LineItem>, b: seq<LineItem>)
    ensures QuantityFold(acc, a + b) == QuantityFold(QuantityFold(acc, a), b)
    decreases |a|
  {
    if a == [] {
      assert a + b == b;
    } else {
      assert (a + b)[1..] == a[1..] + b;
      QuantityFoldAppend(acc + a[0].quantity, a[1..], b);
    }
  }

  lemma {:induction false} QuantityFoldShift(acc: int, lines: seq<LineItem>)
    ensures QuantityFold(acc, lines) == acc + QuantityFold(0, lines)
    decreases |lines|
  {
    if lines != [] {
      QuantityFoldShift(acc + lines[0].quantity, lines[1..]);
      QuantityFoldShift(lines[0].quantity, lines[1..]);
    }
  }

  /** Adding a line on the server grows the badge count by exactly the
      quantity added, whether the line was new or merged into an existing
      one. */
  lemma ItemCountAfterAdd(lines: seq<LineItem>, item: LineItem)
    ensures QuantityFold(0, AddLine(lines, item)) == QuantityFold(0, lines) + item.quantity
  {
    var i := FindLine(lines, KeyOf(item));
    if i == -1 {
      QuantityFoldAppend(0, lines, [item]);
    } else {
      var r := AddLine(lines, item);
      assert lines == lines[..i] + [lines[i]] + lines[i + 1..];
      assert r == lines[..i] + [r[i]] + lines[i + 1..];
      QuantityFoldAppend(0, lines[..i] + [lines[i]], lines[i + 1..]);
      QuantityFoldAppend(0, lines[..i], [lines[i]]);
      QuantityFoldAppend(0, lines[..i] + [r[i]], lines[i + 1..]);
      QuantityFoldAppend(0, lines[..i], [r[i]]);
      QuantityFoldShift(QuantityFold(0, lines[..i] + [lines[i]]), lines[i + 1..]);
      QuantityFoldShift(QuantityFold(0, lines[..i] + [r[i]]), lines[i + 1..]);
      QuantityFoldShift(QuantityFold(0, lines[..i]), [lines[i]]);
      QuantityFoldShift(QuantityFold(0, lines[..i]), [r[i]]);
    }
  }

  /** The badge on the cart icon: none for an empty cart, `'99+'` above
      99, and otherwise the count in decimal, which reads back as the
      count. */
  function BadgeLabel(count: int): (badge: Option<string>)
    ensures badge.None? <==> count <= 0
    ensures count > 99 ==> badge == Some("99+")
    ensures 0 < count <= 99 ==>
      && badge.Some? && 1 <= |badge.value| <= 2
      && (forall i :: 0 <= i < |badge.value| ==> IsDigit(badge.value[i]))
      && ParseDecimal(badge.value) == count
  {
    if count <= 0 then None
    else if count > 99 then Some("99+")
    else
      NatToStringRoundTrip(count);
      assert |NatToString(count)| <= 2 by {
        if count >= 10 {
          assert count / 10 < 10;
        }
      }
      Some(NatToString(count))
  }

  /** The signed-in user as the navigation bar reads it. */
  datatype NavUser = NavUser(id: string, role: string)

  /** The parts of the navigation bar that depend on the state. */
  datatype NavView = NavView(badge: Option<string>, adminLink: bool, profileLink: string)

  /** The badge shows the item count when there is one; the Admin link is
      shown to a signed-in admin and to no one else; the user icon leads
      to the profile when signed in, else to login. */
  function NavbarView(cart: Option<CartView>, user: Option<NavUser>): (v: NavView)
    ensures v.badge.Some? <==> CartItemCount(cart) > 0
    ensures CartItemCount(cart) > 99 ==> v.badge == Some("99+")
    ensures 0 < CartItemCount(cart) <= 99 ==>
      && (forall i :: 0 <= i < |v.badge.value| ==> IsDigit(v.badge.value[i]))
      && ParseDecimal(v.badge.value) == CartItemCount(cart)
    ensures v.adminLink <==> user.Some? && user.value.role == "admin"
    ensures user.Some? ==> v.profileLink == "/profile"
    ensures user.None? ==> v.profileLink == "/login"
  {
    NavView(BadgeLabel(CartItemCount(cart)),
            user.Some? && user.value.role == "admin",
            if user.Some? then "/profile" else "/login")
  }

  /** The two drawers of the page. */
  datatype Drawers = Drawers(drawerOpen: bool, navDrawerOpen: bool)

  function ToggleCartDrawer(d: Drawers): (r: Drawers)
    ensures r.drawerOpen != d.drawerOpen && r.navDrawerOpen == d.navDrawerOpen
  {
    d.(drawerOpen := !d.drawerOpen)
  }

  function ToggleNavDrawer(d: Drawers): (r: Drawers)
    ensures r.navDrawerOpen != d.navDrawerOpen && r.drawerOpen == d.drawerOpen
  {
    d.(navDrawerOpen := !d.navDrawerOpen)
  }

  /** A key press while the cart drawer listens: Escape closes an open
      drawer; nothing else changes anything, and Escape never opens it. */
  function OnKeyDown(d: Drawers, key: string): (r: Drawers)
    ensures key == "Escape" ==> !r.drawerOpen
    ensures key != "Escape" || !d.drawerOpen ==> r == d
    ensures r.navDrawerOpen == d.navDrawerOpen
  {
    if key == "Escape" && d.drawerOpen then ToggleCartDrawer(d) else d
  }

  /** What `handleCheckout` does, in order. */
  datatype Effect = ToggleDrawer | Navigate(path: string)

  /** Checkout first toggles the drawer closed, then goes to the checkout
      page, through the login page when no one is signed in. */
  function CheckoutEffects(signedIn: bool): (effects: seq<Effect>)
    ensures |effects| == 2 && effects[0] == ToggleDrawer && effects[1].Navigate?
    ensures signedIn <==> effects[1].path == "/checkout"
    ensures !signedIn <==> effects[1].path == "/login?redirect=checkout"
  {
    [ToggleDrawer, Navigate(if signedIn then "/checkout" else "/login?redirect=checkout")]
  }

  /** CartContents renders the empty-cart message for a missing cart, a
      missing list or no lines. */
  function ContentsEmpty(cart: Option<CartView>): (r: bool)
    ensures r <==> LinesOf(cart) == []
  {
    cart.None? || cart.value.products.None? || |cart.value.products.value| == 0
  }

  /** The parts of the cart drawer that depend on the cart. */
  datatype DrawerView = DrawerView(showsLines: bool, showsFooter: bool, subtotal: int)

  /** The drawer lists the lines and shows the checkout footer exactly
      when the cart has a line, and then CartContents has lines to show;
      the subtotal is the server's total of the lines. */
  function CartDrawerView(cart: Option<CartView>): (v: DrawerView)
    ensures v.showsLines <==> |LinesOf(cart)| > 0
    ensures v.showsFooter == v.showsLines
    ensures v.showsLines <==> !ContentsEmpty(cart)
    ensures v.subtotal == TotalPrice(LinesOf(cart))
  {
    var shown := |LinesOf(cart)| > 0;
    DrawerView(shown, shown, CartTotalPrice(cart))
  }

  /** The update the quantity buttons dispatch. */
  datatype UpdateRequest = UpdateRequest(productId: string, quantity: int, size: Option<string>,
                                         color: Option<string>, guestId: Option<string>,
                                         userId: Option<string>)

  /** `handleAddToCart(line, delta)`: an update to quantity + delta for the
      same key, sent only when the new quantity is at least 1. */
  function StepRequest(line: LineItem, delta: int, guestId: Option<string>, userId: Option<string>)
    : (r: Option<UpdateRequest>)
    ensures r.Some? <==> line.quantity + delta >= 1
    ensures r.Some? ==> r.value.quantity == line.quantity + delta && r.value.quantity >= 1
    ensures r.Some? ==> Key(r.value.productId, r.value.size, r.value.color) == KeyOf(line)
    ensures r.Some? ==> r.value.guestId == guestId && r.value.userId == userId
  {
    var newQuantity := line.quantity + delta;
    if newQuantity >= 1 then Some(UpdateRequest(line.productId, newQuantity, line.size, line.color, guestId, userId))
    else None
  }

  /** The minus button is disabled exactly when pressing it would send
      nothing. */
  function MinusDisabled(line: LineItem): (disabled: bool)
    ensures disabled <==> StepRequest(line, -1, None, None).None?
  {
    line.quantity <= 1
  }

  /** A step the client sends for a line of the stored cart never makes
      the server drop that line: the server finds it and sets the new
      quantity, and no other key changes. */
  lemma StepNeverRemoves(lines: seq<LineItem>, j: nat, delta: int, guestId: Option<string>, userId: Option<string>)
    requires UniqueKeys(lines) && j < |lines|
    requires StepRequest(lines[j], delta, guestId, userId).Some?
    ensures var q := StepRequest(lines[j], delta, guestId, userId).value;
      var k := KeyOf(lines[j]);
      && UpdateLine(lines, k, q.quantity).Some?
      && QtyOf(UpdateLine(lines, k, q.quantity).value, k) == q.quantity
      && FindLine(UpdateLine(lines, k, q.quantity).value, k) >= 0
  {
    var q := StepRequest(lines[j], delta, guestId, userId).value;
    var k := KeyOf(lines[j]);
    UpdateLineEffect(lines, k, q.quantity, k);
    var r := UpdateLine(lines, k, q.quantity).value;
    if FindLine(r, k) == -1 {
      QtyOfAbsent(r, k);
    }
  }

  /** The removal the bin button dispatches. */
  datatype RemoveRequest = RemoveRequest(productId: string, size: Option<string>, color: Option<string>,
                                         guestId: Option<string>, userId: Option<string>)

  function RemoveRequestFor(line: LineItem, guestId: Option<string>, userId: Option<string>)
    : (r: RemoveRequest)
    ensures Key(r.productId, r.size, r.color) == KeyOf(line)
    ensures r.guestId == guestId && r.userId == userId
  {
    RemoveRequest(line.productId, line.size, line.color, guestId, userId)
  }
}
