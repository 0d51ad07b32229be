/** The order read routes (backend/routes/orderRoutes.js): a user's own
    orders, newest first, and one order by id behind an ownership check.

    The order collection is a sequence in storage order. Of an order the
    model keeps the fields these routes and the admin routes read or write. */
module OrderRoutes {
  import opened Common
  import opened Seqs

  datatype Order = Order(
    id: string,
    user: string,
    totalPrice: int,
    createdAt: int,
    status: string,
    isDelivered: bool,
    deliveredAt: Option<int>)

  /** `Order.findById(id)`: the index of the first order with that id. */
  function FindOrder(orders: seq<Order>, id: string): (r: Option<nat>)
    ensures r.Some? ==> r.value < |orders| && orders[r.value].id == id
    ensures r.Some? ==> forall j :: 0 <= j < r.value ==> orders[j].id != id
    ensures r.None? <==> forall j :: 0 <= j < |orders| ==> orders[j].id != id
  {
    if orders == [] then None
    else if orders[0].id == id then Some(0)
    else
      var r := FindOrder(orders[1..], id);
      assert forall j :: 1 <= j < |orders| ==> orders[j] == orders[1..][j - 1];
      if r.None? then None else Some(r.value + 1)
  }

  /** `Order.find({ user })`: the orders of one user, in storage order. */
  function OwnedBy(orders: seq<Order>, user: string): (r: seq<Order>)
    ensures forall o :: o in r <==> o in orders && o.user == user
    ensures forall o :: multiset(r)[o] == if o.user == user then multiset(orders)[o] else 0
    ensures |r| <= |orders|
  {
    if orders == [] then []
    else
      var rest := OwnedBy(orders[1..], user);
      assert forall o :: o in orders <==> o == orders[0] || o in orders[1..];
      HeadTail(orders);
      assert multiset(orders) == multiset{orders[0]} + multiset(orders[1..]) by {
        assert orders == [orders[0]] + orders[1..];
      }
      if orders[0].user == user then [orders[0]] + rest else rest
  }

  ghost predicate NewestFirst(s: seq<Order>) {
    forall i, j :: 0 <= i < j < |s| ==> s[i].createdAt >= s[j].createdAt
  }

  lemma PrependNewest(x: Order, s: seq<Order>)
    requires NewestFirst(s)
    requires forall y :: y in s ==> y.createdAt <= x.createdAt
    ensures NewestFirst([x] + s)
  {
    var r := [x] + s;
    forall i, j | 0 <= i < j < |r| ensures r[i].createdAt >= r[j].createdAt {
      assert r[j] == s[j - 1];
      if i > 0 {
        assert r[i] == s[i - 1];
      }
    }
  }

  /** The head of a newest-first list is at least as recent as every
      order in it, and its tail is newest-first too. */
  lemma NewestHead(s: seq<Order>)
    requires NewestFirst(s) && s != []
    ensures forall x :: x in s ==> x.createdAt <= s[0].createdAt
    ensures forall x :: x in s[1..] ==> x.createdAt <= s[0].createdAt
    ensures NewestFirst(s[1..])
  {
    forall x | x in s ensures x.createdAt <= s[0].createdAt {
      var k :| 0 <= k < |s| && s[k] == x;
      assert k == 0 || s[0].createdAt >= s[k].createdAt;
    }
    forall i, j | 0 <= i < j < |s[1..]| ensures s[1..][i].createdAt >= s[1..][j].createdAt {
      assert s[1..][i] == s[i + 1] && s[1..][j] == s[j + 1];
    }
  }

  /** A bound on the orders of t and on o is a bound on t with o added. */
  lemma BoundAfterInsert(rest: seq<Order>, t: seq<Order>, o: Order, bound: int)
    requires multiset(rest) == multiset(t) + multiset{o}
    requires o.createdAt <= bound
    requires forall x :: x in t ==> x.createdAt <= bound
    ensures forall x :: x in rest ==> x.createdAt <= bound
  {
    forall x | x in rest ensures x.createdAt <= bound {
      assert x in multiset(rest);
      assert x == o || x in multiset(t);
    }
  }

  function InsertNewestFirst(o: Order, s: seq<Order>): (r: seq<Order>)
    requires NewestFirst(s)
    ensures NewestFirst(r)
    ensures multiset(r) == multiset(s) + multiset{o}
  {
    if s == [] then [o]
    else if o.createdAt >= s[0].createdAt then
      NewestHead(s);
      PrependNewest(o, s);
      [o] + s
    else
      HeadTail(s);
      NewestHead(s);
      var rest := InsertNewestFirst(o, s[1..]);
      BoundAfterInsert(rest, s[1..], o, s[0].createdAt);
      PrependNewest(s[0], rest);
      [s[0]] + rest
  }

  /** The `sort({ createdAt: -1 })` of the query: a reordering with the most
      recent orders first (the order among equal times is not fixed). */
  function SortNewestFirst(s: seq<Order>): (r: seq<Order>)
    ensures NewestFirst(r)
    ensures multiset(r) == multiset(s)
  {
    if s == [] then []
    else
      HeadTail(s);
      InsertNewestFirst(s[0], SortNewestFirst(s[1..]))
  }

  /** GET /api/orders/my-orders: exactly the requester's orders, most
      recent first. */
  function MyOrders(orders: seq<Order>, requester: string): (r: seq<Order>)
    ensures NewestFirst(r)
    ensures multiset(r) == multiset(OwnedBy(orders, requester))
    ensures forall o :: o in r <==> o in orders && o.user == requester
  {
    var r := SortNewestFirst(OwnedBy(orders, requester));
    assert forall o :: o in r <==> o in multiset(r);
    r
  }

  datatype OrderResponse = OrderFound(order: Order) | OrderRefused(status: nat, message: string)

  /** GET /api/orders/:id: 404 for an unknown id, 403 for an order owned by
      someone else, and the order itself for its owner. */
  function GetOrder(orders: seq<Order>, id: string, requester: string): (r: OrderResponse)
    ensures FindOrder(orders, id).None? ==> r == OrderRefused(404, "Order not found")
    ensures FindOrder(orders, id).Some? && orders[FindOrder(orders, id).value].user != requester ==>
      r == OrderRefused(403, "Not authorized to view this order")
    ensures r.OrderFound? ==>
      r.order.user == requester && r.order.id == id &&
      r.order == orders[FindOrder(orders, id).value]
    ensures FindOrder(orders, id).Some? && orders[FindOrder(orders, id).value].user == requester ==>
      r.OrderFound?
  {
    match FindOrder(orders, id)
    case None => OrderRefused(404, "Order not found")
    case Some(i) =>
      if orders[i].user != requester then OrderRefused(403, "Not authorized to view this order")
      else OrderFound(orders[i])
  }
}
