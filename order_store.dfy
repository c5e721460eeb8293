/** The client's order store: the orders list and the order being viewed.
    `createOrder` numbers orders by the length of the list. */
module ClientOrders {
  import opened Errors
  import opened ClientBasket

  /** An order as the store builds it; `date` is the text of
      `new Date().toISOString()`, passed in by the caller. */
  datatype ClientOrder = ClientOrder(id: int, items: seq<Item>, date: string, status: string)

  /** The list after one createOrder. */
  function WithNewOrder(orders: seq<ClientOrder>, items: seq<Item>, date: string): (r: seq<ClientOrder>)
    ensures |r| == |orders| + 1 && r[..|orders|] == orders
    ensures r[|orders|] == ClientOrder(|orders| + 1, items, date, "pending")
  {
    orders + [ClientOrder(|orders| + 1, items, date, "pending")]
  }

  /** Order i of the list has id i + 1. */
  ghost predicate SequentialIds(orders: seq<ClientOrder>)
  {
    forall i :: 0 <= i < |orders| ==> orders[i].id == i + 1
  }

  /** The list after a run of createOrder calls, each with its items and date. */
  function AfterCreates(orders: seq<ClientOrder>, calls: seq<(seq<Item>, string)>): seq<ClientOrder>
    decreases |calls|
  {
    if calls == [] then orders
    else AfterCreates(WithNewOrder(orders, calls[0].0, calls[0].1), calls[1..])
  }

  /** createOrder keeps ids sequential. */
  lemma NewOrderKeepsIdsSequential(orders: seq<ClientOrder>, items: seq<Item>, date: string)
    requires SequentialIds(orders)
    ensures SequentialIds(WithNewOrder(orders, items, date))
  {
  }

  /** Starting from a sequentially numbered list, n calls add n orders and
      the ids stay 1, 2, ...; from the empty list they are 1..n. */
  lemma {:induction false} CreatesNumberOrders(orders: seq<ClientOrder>, calls: seq<(seq<Item>, string)>)
    requires SequentialIds(orders)
    ensures |AfterCreates(orders, calls)| == |orders| + |calls|
    ensures SequentialIds(AfterCreates(orders, calls))
    ensures AfterCreates(orders, calls)[..|orders|] == orders
    decreases |calls|
  {
    if calls != [] {
      var next := WithNewOrder(orders, calls[0].0, calls[0].1);
      NewOrderKeepsIdsSequential(orders, calls[0].0, calls[0].1);
      CreatesNumberOrders(next, calls[1..]);
      assert AfterCreates(orders, calls)[..|orders|] == AfterCreates(next, calls[1..])[..|next|][..|orders|];
    }
  }

  class OrderStore {
    var orders: seq<ClientOrder>
    var currentOrder: Option<ClientOrder>

    constructor ()
      ensures orders == [] && currentOrder == None
    {
      orders := [];
      currentOrder := None;
    }

    /** setOrders. */
    method SetOrders(newOrders: seq<ClientOrder>)
      modifies this`orders
      ensures orders == newOrders && currentOrder == old(currentOrder)
    {
      orders := newOrders;
    }

    /** setCurrentOrder; `null` is None. */
    method SetCurrentOrder(order: Option<ClientOrder>)
      modifies this`currentOrder
      ensures currentOrder == order && orders == old(orders)
    {
      currentOrder := order;
    }

    /** createOrder: appends one pending order numbered after the list's
        length and makes it the current order. */
    method CreateOrder(items: seq<Item>, date: string)
      modifies this
      ensures orders == WithNewOrder(old(orders), items, date)
      ensures currentOrder == Some(ClientOrder(|old(orders)| + 1, items, date, "pending"))
      ensures old(SequentialIds(orders)) ==> SequentialIds(orders)
    {
      var order := ClientOrder(|orders| + 1, items, date, "pending");
      orders := orders + [order];
      SetCurrentOrder(Some(order));
    }
  }
}
