/** The admin order routes (backend/routes/adminOrderRoutes.js): list every
    order, update an order's status, delete an order.

    The order collection is a sequence in storage order with unique ids;
    `Date.now()` is the parameter `now`. */
module AdminOrderRoutes {
  import opened Common
  import opened OrderRoutes

  datatype Reply =
    | OrderBody(order: Order)
    | OrdersBody(orders: seq<Order>)
    | Notice(status: nat, message: string)

  /** The three field assignments of PUT /api/admin/orders/:id with the
      request's `status`: the status is replaced only by a truthy one, a
      `"Delivered"` request marks the order delivered (a delivered order
      is never unmarked) and stamps the request time, and no other field
      changes. */
  function ApplyStatusUpdate(o: Order, status: Option<string>, now: nat): (r: Order)
    ensures Truthy(status) ==> r.status == status.value
    ensures !Truthy(status) ==> r.status == o.status
    ensures r.isDelivered <==> o.isDelivered || status == Some("Delivered")
    ensures status == Some("Delivered") ==> r.deliveredAt == Some(now)
    ensures status != Some("Delivered") ==> r.deliveredAt == o.deliveredAt
    ensures r.id == o.id && r.user == o.user && r.totalPrice == o.totalPrice && r.createdAt == o.createdAt
  {
    var delivered := status == Some("Delivered");
    o.(status := OrElse(status, o.status),
       isDelivered := if delivered then true else o.isDelivered,
       deliveredAt := if delivered then Some(now) else o.deliveredAt)
  }

  /** One status request: the body's `status` and the time it arrives. */
  datatype StatusRequest = StatusRequest(status: Option<string>, at: nat)

  predicate IsDelivered(q: StatusRequest) {
    q.status == Some("Delivered")
  }

  /** An order after a run of status requests, applied in order. */
  function ApplyAll(o: Order, qs: seq<StatusRequest>): Order {
    if qs == [] then o
    else ApplyStatusUpdate(ApplyAll(o, qs[..|qs| - 1]), qs[|qs| - 1].status, qs[|qs| - 1].at)
  }

  /** After any run of status requests an order is delivered exactly when
      it already was or one request said `"Delivered"`; its identity,
      owner, price and creation time never change. */
  lemma {:induction false} ApplyAllDelivered(o: Order, qs: seq<StatusRequest>)
    ensures ApplyAll(o, qs).isDelivered <==>
      o.isDelivered || exists k :: 0 <= k < |qs| && IsDelivered(qs[k])
    ensures var r := ApplyAll(o, qs);
      r.id == o.id && r.user == o.user && r.totalPrice == o.totalPrice && r.createdAt == o.createdAt
  {
    if qs != [] {
      var init := qs[..|qs| - 1];
      ApplyAllDelivered(o, init);
      assert forall k :: 0 <= k < |init| ==> init[k] == qs[k];
      if exists k :: 0 <= k < |qs| && IsDelivered(qs[k]) {
        var k :| 0 <= k < |qs| && IsDelivered(qs[k]);
        if k < |init| {
          assert IsDelivered(init[k]);
        }
      }
    }
  }

  /** `deliveredAt` is the time of the last `"Delivered"` request of the
      run (every such request stamps it again), and is untouched by a run
      without one. */
  lemma {:induction false} ApplyAllDeliveredAt(o: Order, qs: seq<StatusRequest>, k: nat)
    requires k < |qs| && IsDelivered(qs[k])
    requires forall j :: k < j < |qs| ==> !IsDelivered(qs[j])
    ensures ApplyAll(o, qs).deliveredAt == Some(qs[k].at)
  {
    if k < |qs| - 1 {
      var init := qs[..|qs| - 1];
      assert forall j :: 0 <= j < |init| ==> init[j] == qs[j];
      ApplyAllDeliveredAt(o, init, k);
    }
  }

  lemma {:induction false} ApplyAllNoDelivery(o: Order, qs: seq<StatusRequest>)
    requires forall j :: 0 <= j < |qs| ==> !IsDelivered(qs[j])
    ensures ApplyAll(o, qs).deliveredAt == o.deliveredAt
    ensures ApplyAll(o, qs).isDelivered == o.isDelivered
  {
    if qs != [] {
      var init := qs[..|qs| - 1];
      assert forall j :: 0 <= j < |init| ==> init[j] == qs[j];
      ApplyAllNoDelivery(o, init);
    }
  }

  ghost predicate UniqueOrderIds(orders: seq<Order>) {
    forall i, j :: 0 <= i < j < |orders| ==> orders[i].id != orders[j].id
  }

  /** Removing the order at `i` from a collection with unique ids drops
      exactly the orders with its id and keeps the ids unique. */
  lemma RemoveOrderAtEffect(orders: seq<Order>, i: nat)
    requires UniqueOrderIds(orders) && i < |orders|
    ensures UniqueOrderIds(orders[..i] + orders[i + 1..])
    ensures forall o :: o in orders ==> (o in orders[..i] + orders[i + 1..] <==> o.id != orders[i].id)
  {
    var rest := orders[..i] + orders[i + 1..];
    assert forall m :: 0 <= m < |rest| ==> rest[m] == orders[if m < i then m else m + 1];
    forall o | o in orders
      ensures o in rest <==> o.id != orders[i].id
    {
      var k :| 0 <= k < |orders| && orders[k] == o;
      if k < i {
        assert rest[k] == o;
      } else if k > i {
        assert rest[k - 1] == o;
      }
    }
  }

  class OrderStore {
    var orders: seq<Order>

    ghost predicate Valid()
      reads this
    {
      UniqueOrderIds(orders)
    }

    constructor (initial: seq<Order>)
      requires UniqueOrderIds(initial)
      ensures Valid() && orders == initial
    {
      orders := initial;
    }

    /** GET /api/admin/orders: every order, in storage order. */
    method GetAll() returns (resp: Reply)
      ensures resp == OrdersBody(orders)
    {
      resp := OrdersBody(orders);
    }

    /** PUT /api/admin/orders/:id. */
    method UpdateStatus(id: string, status: Option<string>, now: nat) returns (resp: Reply)
      requires Valid()
      modifies this
      ensures Valid()
      ensures FindOrder(old(orders), id).None? ==>
        orders == old(orders) && resp == Notice(404, "Order not found")
      ensures FindOrder(old(orders), id).Some? ==>
        var i := FindOrder(old(orders), id).value;
        && orders == old(orders)[i := ApplyStatusUpdate(old(orders)[i], status, now)]
        && resp == OrderBody(orders[i])
    {
      var found := FindOrder(orders, id);
      if found.None? {
        return Notice(404, "Order not found");
      }
      var i := found.value;
      var order := orders[i];
      order := order.(status := OrElse(status, order.status));
      order := order.(isDelivered := if status == Some("Delivered") then true else order.isDelivered);
      order := order.(deliveredAt := if status == Some("Delivered") then Some(now) else order.deliveredAt);
      assert order == ApplyStatusUpdate(orders[i], status, now);
      orders := orders[i := order];
      resp := OrderBody(order);
    }

    /** DELETE /api/admin/orders/:id: the order goes whatever its status. */
    method Delete(id: string) returns (resp: Reply)
      requires Valid()
      modifies this
      ensures Valid()
      ensures FindOrder(old(orders), id).None? ==>
        orders == old(orders) && resp == Notice(404, "Order not found")
      ensures FindOrder(old(orders), id).Some? ==>
        var i := FindOrder(old(orders), id).value;
        && orders == old(orders)[..i] + old(orders)[i + 1..]
        && resp == Notice(200, "Order removed")
      ensures forall o :: o in orders ==> o.id != id
      ensures forall o :: o in old(orders) ==> (o in orders <==> o.id != id)
    {
      var found := FindOrder(orders, id);
      if found.None? {
        return Notice(404, "Order not found");
      }
      var i := found.value;
      RemoveOrderAtEffect(orders, i);
      orders := orders[..i] + orders[i + 1..];
      resp := Notice(200, "Order removed");
    }
  }
}
