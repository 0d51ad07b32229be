/** The cart document and its line items (backend/models/Cart.js).

    A line item is identified inside its cart by the key
    (productId, size, color); it has no identifier of its own. Prices and
    quantities are integers (minor currency units). */
module CartModel {
  import opened Common

  datatype LineItem = LineItem(
    productId: string,
    name: string,
    image: string,
    price: int,
    size: Option<string>,
    color: Option<string>,
    quantity: int)

  /** The identity of a line inside a cart. */
  datatype Key = Key(productId: string, size: Option<string>, color: Option<string>)

  function KeyOf(item: LineItem): Key {
    Key(item.productId, item.size, item.color)
  }

  /** A stored cart. The schema makes both ownership fields optional; the
      cart routes keep exactly one of them set. */
  datatype Cart = Cart(
    user: Option<string>,
    guestId: Option<string>,
    products: seq<LineItem>,
    totalPrice: int)

  /** A line item as handed to the schema, before defaults and validation. */
  datatype RawLineItem = RawLineItem(
    productId: Option<string>,
    name: Option<string>,
    image: Option<string>,
    price: Option<int>,
    size: Option<string>,
    color: Option<string>,
    quantity: Option<int>)

  /** A cart document as handed to the schema. */
  datatype RawCart = RawCart(
    user: Option<string>,
    guestId: Option<string>,
    products: Option<seq<RawLineItem>>,
    totalPrice: Option<int>)

  datatype CastError = MissingField(field: string)

  datatype Cast<T> = Accepted(value: T) | Refused(error: CastError)

  /** Applies the line-item schema: productId, name, image and price are
      required (a required string is also refused when empty), size and
      color are optional, quantity defaults to 1. */
  function CastLineItem(raw: RawLineItem): (r: Cast<LineItem>)
    ensures r.Accepted? <==> raw.productId.Some? && Truthy(raw.name) && Truthy(raw.image) && raw.price.Some?
    ensures r.Accepted? ==>
      && r.value.productId == raw.productId.value
      && r.value.name == raw.name.value
      && r.value.image == raw.image.value
      && r.value.price == raw.price.value
      && r.value.size == raw.size
      && r.value.color == raw.color
    ensures r.Accepted? && raw.quantity.None? ==> r.value.quantity == 1
    ensures r.Accepted? && raw.quantity.Some? ==> r.value.quantity == raw.quantity.value
  {
    if raw.productId.None? then Refused(MissingField("productId"))
    else if !Truthy(raw.name) then Refused(MissingField("name"))
    else if !Truthy(raw.image) then Refused(MissingField("image"))
    else if raw.price.None? then Refused(MissingField("price"))
    else
      var quantity := if raw.quantity.Some? then raw.quantity.value else 1;
      Accepted(LineItem(raw.productId.value, raw.name.value, raw.image.value,
                     raw.price.value, raw.size, raw.color, quantity))
  }

  function CastLineItems(raws: seq<RawLineItem>): (r: Cast<seq<LineItem>>)
    ensures r.Accepted? <==> forall i :: 0 <= i < |raws| ==> CastLineItem(raws[i]).Accepted?
    ensures r.Accepted? ==> |r.value| == |raws|
    ensures r.Accepted? ==> forall i :: 0 <= i < |raws| ==> CastLineItem(raws[i]) == Accepted(r.value[i])
  {
    if raws == [] then Accepted([])
    else
      match CastLineItem(raws[0])
      case Refused(e) => Refused(e)
      case Accepted(item) =>
        match CastLineItems(raws[1..])
        case Refused(e) => Refused(e)
        case Accepted(rest) =>
          assert forall i :: 1 <= i < |raws| ==> raws[i] == raws[1..][i - 1];
          Accepted([item] + rest)
  }

  /** Applies the cart schema: the list of lines defaults to empty, the
      total defaults to 0, and neither ownership field is required. */
  function CastCart(raw: RawCart): (r: Cast<Cart>)
    ensures r.Accepted? <==> (raw.products.None? || CastLineItems(raw.products.value).Accepted?)
    ensures r.Accepted? ==> r.value.user == raw.user && r.value.guestId == raw.guestId
    ensures r.Accepted? ==> r.value.totalPrice == (if raw.totalPrice.Some? then raw.totalPrice.value else 0)
    ensures r.Accepted? && raw.products.None? ==> r.value.products == []
    ensures r.Accepted? && raw.products.Some? ==> |r.value.products| == |raw.products.value|
    ensures r.Accepted? && raw.products.Some? ==>
      forall i :: 0 <= i < |raw.products.value| ==>
        CastLineItem(raw.products.value[i]) == Accepted(r.value.products[i])
  {
    var total := if raw.totalPrice.Some? then raw.totalPrice.value else 0;
    if raw.products.None? then Accepted(Cart(raw.user, raw.guestId, [], total))
    else
      match CastLineItems(raw.products.value)
      case Refused(e) => Refused(e)
      case Accepted(items) => Accepted(Cart(raw.user, raw.guestId, items, total))
  }
}
