/** The admin order state of the client (client/src/redux/slices/adminOrderSlice.js):
    the order list with its count and sales total, and the reducers of the
    fetch, status-update and delete requests. */
module AdminOrderSlice {
  import opened Common
  import opened IdLists
  import opened Seqs

  /** An order as the admin list holds it; `totalPrice` may be missing. */
  datatype OrderRow = OrderRow(id: string, totalPrice: Option<int>, status: string)

  function RowId(o: OrderRow): string {
    o.id
  }

  /** `order.totalPrice || 0`. */
  function PriceOf(o: OrderRow): (p: int)
    ensures o.totalPrice.Some? ==> p == o.totalPrice.value
    ensures o.totalPrice.None? ==> p == 0
  {
    if o.totalPrice.Some? then o.totalPrice.value else 0
  }

  /** The `reduce` that totals the sales of a list, left to right; with no
      negative price the total is not negative. */
  function Sales(orders: seq<OrderRow>): (r: int)
    ensures (forall j :: 0 <= j < |orders| ==> PriceOf(orders[j]) >= 0) ==> r >= 0
    decreases |orders|
  {
    if orders == [] then 0 else Sales(orders[..|orders| - 1]) + PriceOf(orders[|orders| - 1])
  }

  lemma {:induction false} SalesAppend(a: seq<OrderRow>, b: seq<OrderRow>)
    ensures Sales(a + b) == Sales(a) + Sales(b)
    decreases |b|
  {
    if b == [] {
      assert a + b == a;
    } else {
      assert (a + b)[..|a + b| - 1] == a + b[..|b| - 1];
      SalesAppend(a, b[..|b| - 1]);
    }
  }

  lemma SalesSingle(x: OrderRow)
    ensures Sales([x]) == PriceOf(x)
  {
    assert [x][..0] == [];
  }

  /** Writing one order over another moves the total by the price
      difference. */
  lemma SalesReplace(s: seq<OrderRow>, i: nat, x: OrderRow)
    requires i < |s|
    ensures Sales(s[i := x]) == Sales(s) - PriceOf(s[i]) + PriceOf(x)
  {
    var pre, post := s[..i], s[i + 1..];
    Around(s, i);
    Around(s[i := x], i);
    assert s[i := x][..i] == pre && s[i := x][i + 1..] == post;
    SalesAppend(pre + [s[i]], post);
    SalesAppend(pre, [s[i]]);
    SalesAppend(pre + [x], post);
    SalesAppend(pre, [x]);
    SalesSingle(s[i]);
    SalesSingle(x);
  }

  /** With unique ids, filtering an id out of the list removes the one
      order carrying it: one order fewer and its price off the total. */
  lemma RemovePresentOrder(s: seq<OrderRow>, id: string)
    requires UniqueIds(s, RowId) && IndexOfId(s, RowId, id) >= 0
    ensures var i := IndexOfId(s, RowId, id);
      && |RemoveById(s, RowId, id)| == |s| - 1
      && Sales(RemoveById(s, RowId, id)) == Sales(s) - PriceOf(s[i])
  {
    var i := IndexOfId(s, RowId, id);
    var pre, post := s[..i], s[i + 1..];
    RemoveUniqueId(s, RowId, id);
    Around(s, i);
    SalesAppend(pre + [s[i]], post);
    SalesAppend(pre, [s[i]]);
    SalesAppend(pre, post);
    SalesSingle(s[i]);
  }

  /** The fulfilled payload of the fetch: a bare array of orders, or a
      wrapper object whose fields may be missing. */
  datatype OrdersPayload =
    | OrderArray(list: seq<OrderRow>)
    | OrderWrapper(orders: Option<seq<OrderRow>>, totalOrders: Option<int>, totalSales: Option<int>)

  class AdminOrderState {
    var orders: seq<OrderRow>
    var totalOrders: int
    var totalSales: int
    var loading: bool
    var error: Option<string>

    /** The count and the total describe the list, whose ids are
        unique. */
    ghost predicate Consistent()
      reads this
    {
      UniqueIds(orders, RowId) && totalOrders == |orders| && totalSales == Sales(orders)
    }

    constructor ()
      ensures orders == [] && totalOrders == 0 && totalSales == 0
      ensures !loading && error == None
      ensures Consistent()
    {
      orders, totalOrders, totalSales := [], 0, 0;
      loading, error := false, None;
    }

    method ClearOrderError()
      modifies this
      ensures error == None
      ensures orders == old(orders) && totalOrders == old(totalOrders)
      ensures totalSales == old(totalSales) && loading == old(loading)
    {
      error := None;
    }

    /** The pending case of the fetch, update and delete requests. */
    method Pending()
      modifies this
      ensures loading && error == None
      ensures orders == old(orders) && totalOrders == old(totalOrders) && totalSales == old(totalSales)
    {
      loading := true;
      error := None;
    }

    method FetchFulfilled(payload: OrdersPayload)
      modifies this
      ensures !loading && error == old(error)
      ensures payload.OrderArray? ==>
        orders == payload.list && totalOrders == |payload.list| && totalSales == Sales(payload.list)
      ensures payload.OrderArray? && UniqueIds(payload.list, RowId) ==> Consistent()
      ensures payload.OrderWrapper? ==>
        && orders == (if payload.orders.Some? then payload.orders.value else [])
        && totalOrders == (if payload.totalOrders.Some? then payload.totalOrders.value else 0)
        && totalSales == (if payload.totalSales.Some? then payload.totalSales.value else 0)
    {
      loading := false;
      match payload
      case OrderArray(list) =>
        orders := list;
        totalOrders := |list|;
        totalSales := Sales(list);
      case OrderWrapper(os, count, sales) =>
        orders := if os.Some? then os.value else [];
        totalOrders := if count.Some? then count.value else 0;
        totalSales := if sales.Some? then sales.value else 0;
    }

    /** `payloadMessage` is `action.payload?.message`, `errorMessage` is
        `action.error.message`. */
    method FetchRejected(payloadMessage: Option<string>, errorMessage: Option<string>)
      modifies this
      ensures !loading
      ensures error == Some(OrElse(payloadMessage, OrElse(errorMessage, "Failed to fetch all orders")))
      ensures orders == old(orders) && totalOrders == old(totalOrders) && totalSales == old(totalSales)
    {
      loading := false;
      error := Some(OrElse(payloadMessage, OrElse(errorMessage, "Failed to fetch all orders")));
    }

    /** The list keeps its length; the first order with the updated
        order's id is replaced in place, and the total is recomputed. */
    method UpdateFulfilled(updated: OrderRow)
      modifies this
      ensures !loading && error == old(error)
      ensures var i := IndexOfId(old(orders), RowId, updated.id);
        orders == (if i == -1 then old(orders) else old(orders)[i := updated])
      ensures |orders| == |old(orders)|
      ensures totalSales == Sales(orders) && totalOrders == old(totalOrders)
      ensures old(Consistent()) ==> Consistent()
      ensures var i := IndexOfId(old(orders), RowId, updated.id);
        old(Consistent()) && i >= 0 ==>
          totalSales == old(totalSales) - PriceOf(old(orders)[i]) + PriceOf(updated)
    {
      loading := false;
      var orderIndex := IndexOfId(orders, RowId, updated.id);
      if orderIndex != -1 {
        ghost var before := orders;
        orders := orders[orderIndex := updated];
        SalesReplace(before, orderIndex, updated);
        if UniqueIds(before, RowId) {
          ReplaceSameIdUnique(before, RowId, orderIndex, updated);
        }
      }
      totalSales := Sales(orders);
    }

    method UpdateRejected(payloadMessage: Option<string>)
      modifies this
      ensures !loading && error == Some(OrElse(payloadMessage, "Failed to update order status"))
      ensures orders == old(orders) && totalOrders == old(totalOrders) && totalSales == old(totalSales)
    {
      loading := false;
      error := Some(OrElse(payloadMessage, "Failed to update order status"));
    }

    /** Every order with that id leaves the list; when one was found the
        count drops by one and the total by its price. */
    method DeleteFulfilled(id: string)
      modifies this
      ensures !loading && error == old(error)
      ensures orders == RemoveById(old(orders), RowId, id)
      ensures var i := IndexOfId(old(orders), RowId, id);
        && (i == -1 ==> totalOrders == old(totalOrders) && totalSales == old(totalSales) && orders == old(orders))
        && (i >= 0 ==> totalOrders == old(totalOrders) - 1 && totalSales == old(totalSales) - PriceOf(old(orders)[i]))
      ensures old(Consistent()) ==> Consistent()
    {
      loading := false;
      var found := IndexOfId(orders, RowId, id);
      var before := orders;
      orders := RemoveById(orders, RowId, id);
      if found >= 0 {
        var deletedOrder := before[found];
        totalOrders := totalOrders - 1;
        totalSales := totalSales - PriceOf(deletedOrder);
        if UniqueIds(before, RowId) {
          RemovePresentOrder(before, id);
        }
      } else {
        RemoveAbsentId(before, RowId, id);
      }
      if UniqueIds(before, RowId) {
        RemoveByIdUnique(before, RowId, id);
      }
    }

    method DeleteRejected(payloadMessage: Option<string>)
      modifies this
      ensures !loading && error == Some(OrElse(payloadMessage, "Failed to delete order"))
      ensures orders == old(orders) && totalOrders == old(totalOrders) && totalSales == old(totalSales)
    {
      loading := false;
      error := Some(OrElse(payloadMessage, "Failed to delete order"));
    }
  }
}
