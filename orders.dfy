/**
 * The order store: an append-only history of placed orders and the query
 * that lists one user's orders.
 */
module Orders {
  import opened Types

  /** getOrdersByUserId: the orders owned by `userId`, in the order they were placed. */
  function OrdersOf(orders: seq<Order>, userId: string): (r: seq<Order>)
    ensures |r| <= |orders|
    ensures forall o :: o in r <==> o in orders && o.userId == userId
  {
    if orders == [] then []
    else if orders[0].userId == userId then [orders[0]] + OrdersOf(orders[1..], userId)
    else OrdersOf(orders[1..], userId)
  }

  /**
   * The query distributes over concatenation: the orders of an earlier part
   * of the history come before those of a later part, so insertion order is kept.
   */
  lemma {:induction false} OrdersOfConcat(a: seq<Order>, b: seq<Order>, userId: string)
    ensures OrdersOf(a + b, userId) == OrdersOf(a, userId) + OrdersOf(b, userId)
    decreases |a|
  {
    if a == [] {
      assert a + b == b;
    } else {
      assert (a + b)[0] == a[0];
      assert (a + b)[1..] == a[1..] + b;
      OrdersOfConcat(a[1..], b, userId);
    }
  }

  /** Appending one order adds it to the end of its owner's list and leaves every other list alone. */
  lemma OrdersOfAppend(orders: seq<Order>, order: Order, userId: string)
    ensures OrdersOf(orders + [order], userId)
         == OrdersOf(orders, userId) + (if order.userId == userId then [order] else [])
  {
    OrdersOfConcat(orders, [order], userId);
    assert [order][1..] == [];
  }

  /** A history that only grows keeps every user's earlier list as a prefix of the later one. */
  lemma OrdersOfPrefix(a: seq<Order>, b: seq<Order>, userId: string)
    ensures OrdersOf(a, userId) <= OrdersOf(a + b, userId)
  {
    OrdersOfConcat(a, b, userId);
  }

  class OrderStore {
    var orders: seq<Order>

    constructor ()
      ensures orders == []
    {
      orders := [];
    }

    /** Appends; earlier orders are neither removed nor reordered. */
    method AddOrder(order: Order)
      modifies this
      ensures orders == old(orders) + [order]
      ensures orders[..|old(orders)|] == old(orders)
      ensures forall u :: OrdersOf(orders, u) == OrdersOf(old(orders), u) + (if order.userId == u then [order] else [])
    {
      forall u ensures OrdersOf(orders + [order], u) == OrdersOf(orders, u) + (if order.userId == u then [order] else []) {
        OrdersOfAppend(orders, order, u);
      }
      orders := orders + [order];
    }

    /** getOrdersByUserId on the current history. */
    function OrdersByUserId(userId: string): (r: seq<Order>)
      reads this
      ensures |r| <= |orders|
      ensures forall o :: o in r <==> o in orders && o.userId == userId
    {
      OrdersOf(orders, userId)
    }
  }
}
