/**
 * Checkout and the order queries of controllers/order.js. An order is an
 * immutable snapshot of a cart's lines and total; the order collection is a
 * list that checkout appends to (`OrderBook`).
 */
module OrderController {
  import opened Api
  import opened CartSchema
  import opened CartLines
  import opened CartController

  /** An order document; `orderedOn` is a timestamp and is not modelled. */
  datatype Order = Order(userId: ObjectId, productsOrdered: seq<CartItem>, totalPrice: int)

  /** The status checkout answers with and the carts and orders it leaves behind. */
  datatype CheckoutStep = CheckoutStep(status: int, carts: Carts, orders: seq<Order>)

  /** What every stored order satisfies when it was made from a well-formed cart. */
  ghost predicate OrdersConsistent(orders: seq<Order>) {
    forall i :: 0 <= i < |orders| ==>
      && orders[i].productsOrdered != []
      && ValidItems(orders[i].productsOrdered)
      && orders[i].totalPrice == Total(orders[i].productsOrdered)
  }

  /** checkout (controllers/order.js:8-46): snapshot the caller's cart into a new order, then empty the cart. */
  function CheckoutRule(carts: Carts, orders: seq<Order>, caller: Caller): CheckoutStep
  {
    if caller.isAdmin then CheckoutStep(Forbidden, carts, orders)
    else if caller.id !in carts then CheckoutStep(NotFound, carts, orders)
    else if |carts[caller.id].cartItems| == 0 then CheckoutStep(BadRequest, carts, orders)
    else
      var cart := carts[caller.id];
      CheckoutStep(Created,
        carts[caller.id := cart.(cartItems := [], totalPrice := 0)],
        orders + [Order(caller.id, cart.cartItems, cart.totalPrice)])
  }

  /** `Order.find({ userId })`: the orders of one user, in collection order. */
  function OrdersOf(orders: seq<Order>, userId: ObjectId): (r: seq<Order>)
    ensures |r| <= |orders|
    ensures forall i :: 0 <= i < |r| ==> r[i].userId == userId
    ensures forall o :: multiset(r)[o] == if o.userId == userId then multiset(orders)[o] else 0
  {
    if orders == [] then []
    else
      assert orders == [orders[0]] + orders[1..];
      (if orders[0].userId == userId then [orders[0]] else []) + OrdersOf(orders[1..], userId)
  }

  /** getMyOrders (controllers/order.js:51-66): the caller's orders, or 404 when there are none. */
  function GetMyOrders(orders: seq<Order>, userId: ObjectId): (r: Outcome<seq<Order>>)
    ensures r.Failure? <==> forall i :: 0 <= i < |orders| ==> orders[i].userId != userId
    ensures r.Failure? ==> r.status == NotFound
    ensures r.Success? ==>
      && r.status == Ok && r.value != []
      && (forall o :: o in r.value <==> o in orders && o.userId == userId)
    ensures r.Success? ==> r.value == OrdersOf(orders, userId)
  {
    var mine := OrdersOf(orders, userId);
    if mine == [] then
      assert forall i :: 0 <= i < |orders| ==> orders[i].userId != userId by {
        forall i | 0 <= i < |orders| && orders[i].userId == userId
          ensures multiset(mine)[orders[i]] > 0
        {
          assert orders[i] in multiset(orders);
        }
      }
      Failure(NotFound)
    else
      Success(Ok, mine)
  }

  /** getAllOrders (controllers/order.js:71-88): admin only; every order, or 404 when there are none. */
  function GetAllOrders(caller: Caller, orders: seq<Order>): (r: Outcome<seq<Order>>)
    ensures !caller.isAdmin <==> r == Failure(Forbidden)
    ensures caller.isAdmin && orders == [] <==> r == Failure(NotFound)
    ensures caller.isAdmin && orders != [] <==> r == Success(Ok, orders)
  {
    if !caller.isAdmin then Failure(Forbidden)
    else if orders == [] then Failure(NotFound)
    else Success(Ok, orders)
  }

  // ===== what checkout promises =====

  /** An admin gets 403, a missing cart 404, an empty cart 400; none of them creates an order or changes a cart. */
  lemma CheckoutRefusals(carts: Carts, orders: seq<Order>, caller: Caller)
    ensures var s := CheckoutRule(carts, orders, caller);
      && (caller.isAdmin ==> s.status == Forbidden)
      && (!caller.isAdmin && caller.id !in carts ==> s.status == NotFound)
      && (!caller.isAdmin && caller.id in carts && carts[caller.id].cartItems == [] ==> s.status == BadRequest)
      && (s.status != Created ==> s.carts == carts && s.orders == orders)
  {
  }

  /**
   * A successful checkout appends one order holding the cart's lines and total
   * as they were, then leaves that cart with no lines and total 0; no other cart
   * changes.
   */
  lemma CheckoutSnapshotsThenResets(carts: Carts, orders: seq<Order>, caller: Caller)
    requires CheckoutRule(carts, orders, caller).status == Created
    ensures var s := CheckoutRule(carts, orders, caller);
      && caller.id in carts
      && |s.orders| == |orders| + 1 && s.orders[..|orders|] == orders
      && s.orders[|orders|].userId == caller.id
      && s.orders[|orders|].productsOrdered == carts[caller.id].cartItems
      && s.orders[|orders|].totalPrice == carts[caller.id].totalPrice
      && s.carts.Keys == carts.Keys
      && s.carts[caller.id].cartItems == [] && s.carts[caller.id].totalPrice == 0
      && forall u :: u in carts && u != caller.id ==> s.carts[u] == carts[u]
  {
  }

  /** Checkout keeps the carts well formed, and every order's total is the sum of its lines. */
  lemma CheckoutKeepsInvariants(carts: Carts, orders: seq<Order>, caller: Caller)
    requires WellFormed(carts) && OrdersConsistent(orders)
    ensures WellFormed(CheckoutRule(carts, orders, caller).carts)
    ensures OrdersConsistent(CheckoutRule(carts, orders, caller).orders)
  {
    var s := CheckoutRule(carts, orders, caller);
    if s.status == Created {
      var o := s.orders[|orders|];
      assert o.totalPrice == Total(o.productsOrdered);
      assert forall i :: 0 <= i < |orders| ==> s.orders[i] == orders[i];
    }
  }

  /** After a successful checkout the caller's order list is found and holds the new order. */
  lemma CheckoutThenMyOrders(carts: Carts, orders: seq<Order>, caller: Caller)
    requires CheckoutRule(carts, orders, caller).status == Created
    ensures var s := CheckoutRule(carts, orders, caller);
      && GetMyOrders(s.orders, caller.id).Success?
      && Order(caller.id, carts[caller.id].cartItems, carts[caller.id].totalPrice) in GetMyOrders(s.orders, caller.id).value
  {
    var s := CheckoutRule(carts, orders, caller);
    assert s.orders[|orders|].userId == caller.id;
  }

  // ===== the collection =====

  /** The order collection. */
  class OrderBook {
    var orders: seq<Order>

    constructor ()
      ensures orders == []
    {
      orders := [];
    }
  }

  /** checkout on the stores: save the order first, then reset the cart in place. */
  method Checkout(caller: Caller, store: CartStore, book: OrderBook) returns (status: int)
    requires store.Valid()
    modifies book, store.carts.Values
    ensures store.Valid()
    ensures CheckoutStep(status, store.Docs(), book.orders) == CheckoutRule(old(store.Docs()), old(book.orders), caller)
  {
    if caller.isAdmin {
      return Forbidden;
    }
    if caller.id !in store.carts {
      return NotFound;
    }
    var cart := store.carts[caller.id];
    if |cart.cartItems| == 0 {
      return BadRequest;
    }
    book.orders := book.orders + [Order(caller.id, cart.cartItems, cart.totalPrice)];
    cart.Empty();
    status := Created;
    store.Committed(old(store.Docs()), caller.id, cart);
  }
}
