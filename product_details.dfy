/** The product page's add-to-cart panel
    (frontend/src/components/Products/ProductDetails.jsx): the selected
    variant, the quantity stepper and the add request it sends. The
    component's state hooks are the fields of a class. */
module ProductDetails {
  import opened Common

  /** The product the page has loaded: image urls and the optional size and
      color lists. */
  datatype LoadedProduct = LoadedProduct(images: Option<seq<string>>, sizes: Option<seq<string>>, colors: Option<seq<string>>)

  /** The body of the add-to-cart request. */
  datatype AddRequest = AddRequest(productId: Option<string>, quantity: int, size: string, color: string,
                                   guestId: Option<string>, userId: Option<string>)

  /** `productId || id`: the prop when it is truthy, else the route id. */
  function ProductFetchId(prop: Option<string>, routeId: Option<string>): (r: Option<string>)
    ensures Truthy(prop) ==> r == prop
    ensures !Truthy(prop) ==> r == routeId
    ensures Truthy(r) <==> Truthy(prop) || Truthy(routeId)
  {
    if Truthy(prop) then prop else routeId
  }

  class ProductPanel {
    var mainImage: Option<string>
    var selectedSize: string
    var selectedColor: string
    var quantity: int
    var isButtonDisabled: bool

    /** The quantity never falls below one. */
    ghost predicate Valid()
      reads this
    {
      quantity >= 1
    }

    /** Nothing selected, quantity one, button enabled. */
    constructor ()
      ensures Valid()
      ensures mainImage == None && selectedSize == "" && selectedColor == ""
      ensures quantity == 1 && !isButtonDisabled
    {
      mainImage := None;
      selectedSize := "";
      selectedColor := "";
      quantity := 1;
      isButtonDisabled := false;
    }

    /** When the loaded product has an image: its first image becomes the
        main one, and the first size and the first color are selected
        where those lists are non-empty. Otherwise nothing changes. */
    method ProductLoaded(product: Option<LoadedProduct>)
      modifies this
      requires Valid()
      ensures Valid()
      ensures quantity == old(quantity) && isButtonDisabled == old(isButtonDisabled)
      ensures var hasImages := product.Some? && product.value.images.Some? && |product.value.images.value| > 0;
        && (!hasImages ==> mainImage == old(mainImage) && selectedSize == old(selectedSize) && selectedColor == old(selectedColor))
        && (hasImages ==> mainImage == Some(product.value.images.value[0]))
        && (hasImages && product.value.sizes.Some? && |product.value.sizes.value| > 0 ==>
              selectedSize == product.value.sizes.value[0])
        && (hasImages && !(product.value.sizes.Some? && |product.value.sizes.value| > 0) ==>
              selectedSize == old(selectedSize))
        && (hasImages && product.value.colors.Some? && |product.value.colors.value| > 0 ==>
              selectedColor == product.value.colors.value[0])
        && (hasImages && !(product.value.colors.Some? && |product.value.colors.value| > 0) ==>
              selectedColor == old(selectedColor))
    {
      if product.Some? && product.value.images.Some? && |product.value.images.value| > 0 {
        var p := product.value;
        mainImage := Some(p.images.value[0]);
        if p.sizes.Some? && |p.sizes.value| > 0 {
          selectedSize := p.sizes.value[0];
        }
        if p.colors.Some? && |p.colors.value| > 0 {
          selectedColor := p.colors.value[0];
        }
      }
    }

    method SelectImage(url: string)
      modifies this
      requires Valid()
      ensures Valid()
      ensures mainImage == Some(url) && selectedSize == old(selectedSize) && selectedColor == old(selectedColor)
      ensures quantity == old(quantity) && isButtonDisabled == old(isButtonDisabled)
    {
      mainImage := Some(url);
    }

    method SelectSize(size: string)
      modifies this
      requires Valid()
      ensures Valid()
      ensures selectedSize == size && selectedColor == old(selectedColor) && mainImage == old(mainImage)
      ensures quantity == old(quantity) && isButtonDisabled == old(isButtonDisabled)
    {
      selectedSize := size;
    }

    method SelectColor(color: string)
      modifies this
      requires Valid()
      ensures Valid()
      ensures selectedColor == color && selectedSize == old(selectedSize) && mainImage == old(mainImage)
      ensures quantity == old(quantity) && isButtonDisabled == old(isButtonDisabled)
    {
      selectedColor := color;
    }

    /** "plus" adds one; "minus" takes one away only above one; any other
        action changes nothing. The quantity stays at least one. */
    method QuantityChange(action: string)
      modifies this
      requires Valid()
      ensures Valid()
      ensures action == "plus" ==> quantity == old(quantity) + 1
      ensures action == "minus" && old(quantity) > 1 ==> quantity == old(quantity) - 1
      ensures action == "minus" && old(quantity) <= 1 ==> quantity == old(quantity)
      ensures action != "plus" && action != "minus" ==> quantity == old(quantity)
      ensures mainImage == old(mainImage) && selectedSize == old(selectedSize)
      ensures selectedColor == old(selectedColor) && isButtonDisabled == old(isButtonDisabled)
    {
      if action == "plus" {
        quantity := quantity + 1;
      }
      if action == "minus" && quantity > 1 {
        quantity := quantity - 1;
      }
    }

    /** The add button is disabled while a request is in flight and while
        no size or no color is selected. */
    predicate AddDisabled()
      reads this
    {
      isButtonDisabled || selectedSize == "" || selectedColor == ""
    }

    /** Without a size or a color nothing is sent and nothing changes.
        Otherwise the request carries the product id, the quantity, the
        selection and both identities, and the button is disabled until
        the request settles. */
    method AddToCart(prop: Option<string>, routeId: Option<string>, guestId: Option<string>, userId: Option<string>)
        returns (request: Option<AddRequest>)
      modifies this
      requires Valid()
      ensures Valid()
      ensures request.None? <==> old(selectedSize) == "" || old(selectedColor) == ""
      ensures request.None? ==> isButtonDisabled == old(isButtonDisabled)
      ensures request.Some? ==>
        && request.value == AddRequest(ProductFetchId(prop, routeId), quantity, selectedSize, selectedColor, guestId, userId)
        && request.value.quantity >= 1
        && isButtonDisabled && AddDisabled()
      ensures mainImage == old(mainImage) && selectedSize == old(selectedSize)
      ensures selectedColor == old(selectedColor) && quantity == old(quantity)
    {
      if selectedSize == "" || selectedColor == "" {
        return None;
      }
      isButtonDisabled := true;
      request := Some(AddRequest(ProductFetchId(prop, routeId), quantity, selectedSize, selectedColor, guestId, userId));
    }

    /** The request settled, whichever way: the button is enabled again. */
    method AddSettled()
      modifies this
      requires Valid()
      ensures Valid()
      ensures !isButtonDisabled
      ensures mainImage == old(mainImage) && selectedSize == old(selectedSize)
      ensures selectedColor == old(selectedColor) && quantity == old(quantity)
    {
      isButtonDisabled := false;
    }
  }
}
