/** The cart routes (backend/routes/cartRoutes.js) over a cart collection.

    The collection is a sequence of cart documents in storage order;
    `findOne` returns the first document matching its filter. Each request
    runs to completion before the next one starts. The product catalog is a
    parameter, and `Date.now()` is the parameter `now`. */
module CartRoutes {
  import opened Common
  import opened CartModel
  import opened CartLines
  import opened Seqs

  datatype ProductImage = ProductImage(url: string)

  /** What the cart routes read from a product. */
  datatype Product = Product(name: string, price: int, images: seq<ProductImage>)

  datatype Body = CartBody(cart: Cart) | MessageBody(message: string)

  datatype Response = Response(status: nat, body: Body)

  /** A `findOne` filter on one of the two ownership fields. */
  datatype Owner = ByUser(userId: string) | ByGuest(guestId: string)

  predicate Matches(c: Cart, f: Owner) {
    match f
    case ByUser(u) => c.user == Some(u)
    case ByGuest(g) => c.guestId == Some(g)
  }

  /** `Cart.findOne(filter)`: the index of the first matching cart. */
  function FindOne(carts: seq<Cart>, f: Owner): (r: Option<nat>)
    ensures r.Some? ==> r.value < |carts| && Matches(carts[r.value], f)
    ensures r.Some? ==> forall j :: 0 <= j < r.value ==> !Matches(carts[j], f)
    ensures r.None? <==> forall j :: 0 <= j < |carts| ==> !Matches(carts[j], f)
  {
    if carts == [] then None
    else if Matches(carts[0], f) then Some(0)
    else
      var r := FindOne(carts[1..], f);
      assert forall j :: 1 <= j < |carts| ==> carts[j] == carts[1..][j - 1];
      if r.None? then None else Some(r.value + 1)
  }

  /** The filter `getCart` uses: the user id when truthy, else the guest id
      when truthy, else none. */
  function OwnerOf(userId: Option<string>, guestId: Option<string>): (r: Option<Owner>)
    ensures Truthy(userId) ==> r == Some(ByUser(userId.value))
    ensures !Truthy(userId) && Truthy(guestId) ==> r == Some(ByGuest(guestId.value))
    ensures !Truthy(userId) && !Truthy(guestId) ==> r == None
  {
    if Truthy(userId) then Some(ByUser(userId.value))
    else if Truthy(guestId) then Some(ByGuest(guestId.value))
    else None
  }

  /** `getCart(userId, guestId)`: the user's cart when a user id is given
      (the guest id is then ignored), else the guest's cart, else none. */
  function GetCart(carts: seq<Cart>, userId: Option<string>, guestId: Option<string>): (r: Option<nat>)
    ensures r.Some? ==> r.value < |carts|
    ensures Truthy(userId) ==>
      (r.Some? ==> carts[r.value].user == userId) &&
      (r.None? <==> forall j :: 0 <= j < |carts| ==> carts[j].user != userId)
    ensures !Truthy(userId) ==>
      (r.Some? ==> Truthy(guestId) && carts[r.value].guestId == guestId) &&
      (r.None? <==> !Truthy(guestId) || forall j :: 0 <= j < |carts| ==> carts[j].guestId != guestId)
    ensures r.Some? ==> forall j :: 0 <= j < r.value ==> !Matches(carts[j], OwnerOf(userId, guestId).value)
  {
    match OwnerOf(userId, guestId)
    case None => None
    case Some(f) => FindOne(carts, f)
  }

  /** The cart invariant the routes keep: exactly one ownership field is
      set, the stored total is the total of the lines, and no two lines
      share a key. */
  ghost predicate WellFormed(c: Cart) {
    && (c.user.Some? != c.guestId.Some?)
    && c.totalPrice == TotalPrice(c.products)
    && UniqueKeys(c.products)
  }

  /** The cart with new lines and the total recomputed from them. */
  function WithLines(c: Cart, lines: seq<LineItem>): (r: Cart)
    ensures r.user == c.user && r.guestId == c.guestId
    ensures r.products == lines && r.totalPrice == TotalPrice(lines)
  {
    c.(products := lines, totalPrice := TotalPrice(lines))
  }

  /** The image stored with a new line: the product's first image url, or
      `'default-image-url'` when it has none. */
  function ImageUrl(p: Product): (url: string)
    ensures |p.images| > 0 ==> url == p.images[0].url
    ensures |p.images| == 0 ==> url == "default-image-url"
  {
    if |p.images| > 0 then p.images[0].url else "default-image-url"
  }

  /** The line POST /api/cart adds for a product. */
  function NewLine(productId: string, p: Product, size: Option<string>, color: Option<string>, quantity: int): (item: LineItem)
    ensures KeyOf(item) == Key(productId, size, color)
    ensures item.name == p.name && item.price == p.price && item.image == ImageUrl(p)
    ensures item.quantity == quantity
  {
    LineItem(productId, p.name, ImageUrl(p), p.price, size, color, quantity)
  }

  /** The cart POST /api/cart creates when none is found: owned by the user
      when a user id is given, otherwise by the given guest id or by a fresh
      `"guest_" + now`. */
  function NewCart(userId: Option<string>, guestId: Option<string>, item: LineItem, now: nat): (c: Cart)
    ensures c.products == [item]
    ensures c.user == (if Truthy(userId) then userId else None)
    ensures Truthy(userId) ==> c.guestId == None
    ensures !Truthy(userId) && Truthy(guestId) ==> c.guestId == guestId
    ensures !Truthy(userId) && !Truthy(guestId) ==> c.guestId == Some(GuestIdAt(now))
    ensures WellFormed(c)
  {
    var newGuestId := if Truthy(guestId) then guestId.value else GuestIdAt(now);
    var c := Cart(if Truthy(userId) then userId else None,
                  if Truthy(userId) then None else Some(newGuestId),
                  [item],
                  item.price * item.quantity);
    assert [item][..0] == [];
    c
  }

  /** The document handed to `Cart.create` passes the cart schema, when the
      line's name and image are not empty, and is stored as NewCart. */
  lemma NewCartPassesSchema(userId: Option<string>, guestId: Option<string>, item: LineItem, now: nat)
    requires item.name != "" && item.image != ""
    ensures var c := NewCart(userId, guestId, item, now);
      var raw := RawLineItem(Some(item.productId), Some(item.name), Some(item.image), Some(item.price),
                             item.size, item.color, Some(item.quantity));
      CastCart(RawCart(c.user, c.guestId, Some([raw]), Some(item.price * item.quantity))) == Accepted(c)
  {
    var c := NewCart(userId, guestId, item, now);
    var raw := RawLineItem(Some(item.productId), Some(item.name), Some(item.image), Some(item.price),
                           item.size, item.color, Some(item.quantity));
    var r := CastCart(RawCart(c.user, c.guestId, Some([raw]), Some(item.price * item.quantity)));
    assert CastLineItem(raw) == Accepted(item);
    assert CastLineItems([raw]).Accepted?;
    assert r.value.products[0] == item;
    assert r.value.products == [item];
  }

  ghost predicate AllWellFormed(carts: seq<Cart>) {
    forall i :: 0 <= i < |carts| ==> WellFormed(carts[i])
  }

  lemma ReplaceWellFormed(carts: seq<Cart>, i: nat, c: Cart)
    requires AllWellFormed(carts) && i < |carts| && WellFormed(c)
    ensures AllWellFormed(carts[i := c])
  {
  }

  lemma AppendWellFormed(carts: seq<Cart>, c: Cart)
    requires AllWellFormed(carts) && WellFormed(c)
    ensures AllWellFormed(carts + [c])
  {
  }

  /** The `forEach` of the merge handler: each guest line, in order, adds
      its quantity to the user line with the same key, or is appended. */
  method MergeGuestLines(userLines: seq<LineItem>, guestLines: seq<LineItem>) returns (merged: seq<LineItem>)
    ensures merged == MergeAll(userLines, guestLines)
    ensures UniqueKeys(userLines) ==> UniqueKeys(merged)
  {
    merged := userLines;
    var n := 0;
    while n < |guestLines|
      invariant 0 <= n <= |guestLines|
      invariant merged == MergeAll(userLines, guestLines[..n])
    {
      var guestItem := guestLines[n];
      MergeAllStep(userLines, guestLines, n);
      var productIndex := FindLine(merged, KeyOf(guestItem));
      if productIndex > -1 {
        merged := merged[productIndex := merged[productIndex].(quantity := merged[productIndex].quantity + guestItem.quantity)];
      } else {
        merged := merged + [guestItem];
      }
      n := n + 1;
    }
    assert guestLines[..n] == guestLines;
    if UniqueKeys(userLines) {
      MergeAllUnique(userLines, guestLines);
    }
  }

  class CartStore {
    var carts: seq<Cart>

    ghost predicate Valid()
      reads this
    {
      AllWellFormed(carts)
    }

    constructor ()
      ensures Valid() && carts == []
    {
      carts := [];
    }

    /** GET /api/cart. */
    method Fetch(userId: Option<string>, guestId: Option<string>) returns (resp: Response)
      requires Valid()
      ensures var i := GetCart(carts, userId, guestId);
        && (i.Some? ==> resp == Response(200, CartBody(carts[i.value])))
        && (i.None? ==> resp == Response(404, MessageBody("Cart not found")))
      ensures resp.status == 200 ==> resp.body.CartBody? && WellFormed(resp.body.cart)
    {
      var i := GetCart(carts, userId, guestId);
      if i.Some? {
        resp := Response(200, CartBody(carts[i.value]));
      } else {
        resp := Response(404, MessageBody("Cart not found"));
      }
    }

    /** POST /api/cart. */
    method Add(catalog: map<string, Product>, productId: string, quantity: int,
               size: Option<string>, color: Option<string>,
               guestId: Option<string>, userId: Option<string>, now: nat)
      returns (resp: Response)
      requires Valid()
      modifies this
      ensures Valid()
      ensures productId !in catalog ==>
        carts == old(carts) && resp == Response(404, MessageBody("Product not found"))
      ensures productId in catalog ==>
        var item := NewLine(productId, catalog[productId], size, color, quantity);
        var i := GetCart(old(carts), userId, guestId);
        && (i.Some? ==>
              && carts == old(carts)[i.value := WithLines(old(carts)[i.value], AddLine(old(carts)[i.value].products, item))]
              && resp == Response(200, CartBody(carts[i.value])))
        && (i.None? ==>
              && carts == old(carts) + [NewCart(userId, guestId, item, now)]
              && resp == Response(201, CartBody(NewCart(userId, guestId, item, now))))
    {
      if productId !in catalog {
        return Response(404, MessageBody("Product not found"));
      }
      var product := catalog[productId];
      var i := GetCart(carts, userId, guestId);
      var item := NewLine(productId, product, size, color, quantity);
      if i.Some? {
        var cart := carts[i.value];
        var products := cart.products;
        var productIndex := FindLine(products, Key(productId, size, color));
        if productIndex > -1 {
          products := products[productIndex := products[productIndex].(quantity := products[productIndex].quantity + quantity)];
        } else {
          products := products + [item];
        }
        assert products == AddLine(cart.products, item);
        AddLineUnique(cart.products, item);
        cart := WithLines(cart, products);
        assert WellFormed(cart);
        ReplaceWellFormed(carts, i.value, cart);
        carts := carts[i.value := cart];
        resp := Response(200, CartBody(cart));
      } else {
        var cart := NewCart(userId, guestId, item, now);
        AppendWellFormed(carts, cart);
        carts := carts + [cart];
        resp := Response(201, CartBody(cart));
      }
    }

    /** PUT /api/cart. */
    method Update(productId: string, quantity: int, size: Option<string>, color: Option<string>,
                  guestId: Option<string>, userId: Option<string>)
      returns (resp: Response)
      requires Valid()
      modifies this
      ensures Valid()
      ensures var i := GetCart(old(carts), userId, guestId);
        && (i.None? ==> carts == old(carts) && resp == Response(404, MessageBody("Cart not found")))
        && (i.Some? ==>
              var r := UpdateLine(old(carts)[i.value].products, Key(productId, size, color), quantity);
              && (r.None? ==> carts == old(carts) && resp == Response(404, MessageBody("Product not found in cart")))
              && (r.Some? ==>
                    && carts == old(carts)[i.value := WithLines(old(carts)[i.value], r.value)]
                    && resp == Response(200, CartBody(carts[i.value]))))
    {
      var i := GetCart(carts, userId, guestId);
      if i.None? {
        return Response(404, MessageBody("Cart not found"));
      }
      var cart := carts[i.value];
      var k := Key(productId, size, color);
      var productIndex := FindLine(cart.products, k);
      if productIndex > -1 {
        var products := cart.products;
        if quantity > 0 {
          products := products[productIndex := products[productIndex].(quantity := quantity)];
        } else {
          products := RemoveAt(products, productIndex);
        }
        assert Some(products) == UpdateLine(cart.products, k, quantity);
        UpdateLineEffect(cart.products, k, quantity, k);
        cart := WithLines(cart, products);
        assert WellFormed(cart);
        ReplaceWellFormed(carts, i.value, cart);
        carts := carts[i.value := cart];
        resp := Response(200, CartBody(cart));
      } else {
        resp := Response(404, MessageBody("Product not found in cart"));
      }
    }

    /** DELETE /api/cart. */
    method Remove(productId: string, size: Option<string>, color: Option<string>,
                  guestId: Option<string>, userId: Option<string>)
      returns (resp: Response)
      requires Valid()
      modifies this
      ensures Valid()
      ensures var i := GetCart(old(carts), userId, guestId);
        && (i.None? ==> carts == old(carts) && resp == Response(404, MessageBody("cart not found")))
        && (i.Some? ==>
              var r := RemoveLine(old(carts)[i.value].products, Key(productId, size, color));
              && (r.None? ==> carts == old(carts) && resp == Response(404, MessageBody("Product not found in cart")))
              && (r.Some? ==>
                    && carts == old(carts)[i.value := WithLines(old(carts)[i.value], r.value)]
                    && resp == Response(200, CartBody(carts[i.value]))))
    {
      var i := GetCart(carts, userId, guestId);
      if i.None? {
        return Response(404, MessageBody("cart not found"));
      }
      var cart := carts[i.value];
      var k := Key(productId, size, color);
      var productIndex := FindLine(cart.products, k);
      if productIndex > -1 {
        var products := RemoveAt(cart.products, productIndex);
        RemoveLineEffect(cart.products, k, k);
        cart := WithLines(cart, products);
        assert WellFormed(cart);
        ReplaceWellFormed(carts, i.value, cart);
        carts := carts[i.value := cart];
        resp := Response(200, CartBody(cart));
      } else {
        resp := Response(404, MessageBody("Product not found in cart"));
      }
    }

    /** POST /api/cart/merge for the authenticated user `userId`.
        `deleteFails` says whether removing the merged guest cart fails;
        that failure is swallowed and changes only whether the guest cart
        stays in the collection. */
    method Merge(guestId: string, userId: string, deleteFails: bool) returns (resp: Response)
      requires Valid()
      modifies this
      ensures Valid()
      ensures var gi := FindOne(old(carts), ByGuest(guestId));
        var ui := FindOne(old(carts), ByUser(userId));
        && (gi.Some? && ui.Some? ==>
              var merged := WithLines(old(carts)[ui.value],
                                      MergeAll(old(carts)[ui.value].products, old(carts)[gi.value].products));
              && resp == Response(200, CartBody(merged))
              && carts == (if deleteFails then old(carts)[ui.value := merged]
                           else RemoveAt(old(carts)[ui.value := merged], gi.value)))
        && (gi.Some? && ui.None? ==>
              var owned := old(carts)[gi.value].(user := Some(userId), guestId := None);
              && carts == old(carts)[gi.value := owned]
              && resp == Response(200, CartBody(owned)))
        && (gi.None? && ui.Some? ==>
              carts == old(carts) && resp == Response(200, CartBody(old(carts)[ui.value])))
        && (gi.None? && ui.None? ==>
              carts == old(carts) && resp == Response(404, MessageBody("No active cart found to merge or retrieve")))
    {
      var gi := FindOne(carts, ByGuest(guestId));
      var ui := FindOne(carts, ByUser(userId));
      if gi.Some? {
        var guestCart := carts[gi.value];
        if ui.Some? {
          var userCart := carts[ui.value];
          assert gi.value != ui.value by {
            assert WellFormed(guestCart) && WellFormed(userCart);
          }
          var merged := MergeGuestLines(userCart.products, guestCart.products);
          userCart := WithLines(userCart, merged);
          carts := carts[ui.value := userCart];
          if !deleteFails {
            // deleteOne({ guestId }) removes the first cart with that guest
            // id, which is the guest cart found above
            carts := RemoveAt(carts, gi.value);
          }
          resp := Response(200, CartBody(userCart));
        } else {
          guestCart := guestCart.(user := Some(userId), guestId := None);
          carts := carts[gi.value := guestCart];
          resp := Response(200, CartBody(guestCart));
        }
      } else {
        if ui.Some? {
          return Response(200, CartBody(carts[ui.value]));
        }
        resp := Response(404, MessageBody("No active cart found to merge or retrieve"));
      }
    }
  }
}
