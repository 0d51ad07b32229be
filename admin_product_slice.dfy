/** The admin product state of the client
    (client/src/redux/slices/adminProductSlice.js): the product list and the
    reducers of the fetch, create, update and delete requests. */
module AdminProductSlice {
  import opened Common
  import opened IdLists

  /** A product as the admin list holds it. */
  datatype ProductRow = ProductRow(id: string, name: string, price: int)

  function ProductId(p: ProductRow): string {
    p.id
  }

  class AdminProductState {
    var products: seq<ProductRow>
    var loading: bool
    var error: Option<string>

    constructor ()
      ensures products == [] && !loading && error == None
    {
      products, loading, error := [], false, None;
    }

    method ClearProductError()
      modifies this
      ensures error == None && products == old(products) && loading == old(loading)
    {
      error := None;
    }

    /** The pending case of every request. */
    method Pending()
      modifies this
      ensures loading && error == None && products == old(products)
    {
      loading := true;
      error := None;
    }

    method FetchFulfilled(payload: seq<ProductRow>)
      modifies this
      ensures !loading && error == old(error) && products == payload
    {
      loading := false;
      products := payload;
    }

    /** `payloadMessage` is `action.payload?.message`, `errorMessage` is
        `action.error.message`. */
    method FetchRejected(payloadMessage: Option<string>, errorMessage: Option<string>)
      modifies this
      ensures !loading && products == old(products)
      ensures error == Some(OrElse(payloadMessage, OrElse(errorMessage, "Failed to fetch products")))
    {
      loading := false;
      error := Some(OrElse(payloadMessage, OrElse(errorMessage, "Failed to fetch products")));
    }

    /** The new product goes at the end; the earlier ones are kept. */
    method CreateFulfilled(created: ProductRow)
      modifies this
      ensures !loading && error == old(error)
      ensures products == old(products) + [created]
      ensures UniqueIds(old(products), ProductId) && IndexOfId(old(products), ProductId, created.id) == -1 ==>
        UniqueIds(products, ProductId)
    {
      loading := false;
      if UniqueIds(products, ProductId) && IndexOfId(products, ProductId, created.id) == -1 {
        AppendNewIdUnique(products, ProductId, created);
      }
      products := products + [created];
    }

    method CreateRejected(payloadMessage: Option<string>)
      modifies this
      ensures !loading && products == old(products)
      ensures error == Some(OrElse(payloadMessage, "Failed to create product"))
    {
      loading := false;
      error := Some(OrElse(payloadMessage, "Failed to create product"));
    }

    /** The first product with the updated product's id is replaced in
        place; the list keeps its length. */
    method UpdateFulfilled(updated: ProductRow)
      modifies this
      ensures !loading && error == old(error)
      ensures var i := IndexOfId(old(products), ProductId, updated.id);
        products == (if i == -1 then old(products) else old(products)[i := updated])
      ensures |products| == |old(products)|
      ensures UniqueIds(old(products), ProductId) ==> UniqueIds(products, ProductId)
    {
      loading := false;
      var index := IndexOfId(products, ProductId, updated.id);
      if index != -1 {
        if UniqueIds(products, ProductId) {
          ReplaceSameIdUnique(products, ProductId, index, updated);
        }
        products := products[index := updated];
      }
    }

    method UpdateRejected(payloadMessage: Option<string>)
      modifies this
      ensures !loading && products == old(products)
      ensures error == Some(OrElse(payloadMessage, "Failed to update product"))
    {
      loading := false;
      error := Some(OrElse(payloadMessage, "Failed to update product"));
    }

    /** Every product with that id leaves the list; the others keep their
        order. */
    method DeleteFulfilled(id: string)
      modifies this
      ensures !loading && error == old(error)
      ensures products == RemoveById(old(products), ProductId, id)
      ensures UniqueIds(old(products), ProductId) ==> UniqueIds(products, ProductId)
    {
      loading := false;
      if UniqueIds(products, ProductId) {
        RemoveByIdUnique(products, ProductId, id);
      }
      products := RemoveById(products, ProductId, id);
    }

    method DeleteRejected(payloadMessage: Option<string>)
      modifies this
      ensures !loading && products == old(products)
      ensures error == Some(OrElse(payloadMessage, "Failed to delete product"))
    {
      loading := false;
      error := Some(OrElse(payloadMessage, "Failed to delete product"));
    }
  }
}
