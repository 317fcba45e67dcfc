/** The PostgreSQL database the Go handlers write through one transaction
    (main.go:311-356): committed rows, the rows of the open transaction, and the two
    `serial` counters that number new rows. */
module GoStore {
  import opened Common

  class Database {
    var orders: seq<OrderRow>
    var items: seq<OrderItem>
    /** Next value of the `orders.id` and `orderitems.id` sequences. Sequences are not
        transactional: a rolled-back insert still uses up its number. */
    var nextOrderId: int
    var nextItemId: int
    var inTx: bool
    var pendingOrders: seq<OrderRow>
    var pendingItems: seq<OrderItem>

    /** Every row's id was drawn from its counter, and every item row references an order
        row visible to it (the foreign key `orderitems.orderid -> orders.id`). */
    ghost predicate Valid()
      reads this
    {
      && IdsBelow(orders, nextOrderId) && IdsBelow(pendingOrders, nextOrderId)
      && ItemIdsBelow(items, nextItemId) && ItemIdsBelow(pendingItems, nextItemId)
      && References(items, orders) && References(pendingItems, orders + pendingOrders)
      && (!inTx ==> pendingOrders == [] && pendingItems == [])
    }

    constructor ()
      ensures Valid() && !inTx
      ensures orders == [] && items == []
    {
      orders, items := [], [];
      nextOrderId, nextItemId := 1, 1;
      inTx := false;
      pendingOrders, pendingItems := [], [];
    }

    /** `DB.Begin`: opens a transaction unless the injected failure happens. */
    method Begin(fails: bool) returns (ok: bool)
      requires Valid() && !inTx
      modifies this
      ensures Valid()
      ensures ok == !fails && inTx == ok
      ensures orders == old(orders) && items == old(items)
      ensures pendingOrders == [] && pendingItems == []
      ensures nextOrderId == old(nextOrderId) && nextItemId == old(nextItemId)
    {
      ok := !fails;
      inTx := ok;
    }

    /** `INSERT INTO orders ... RETURNING id` inside the open transaction. */
    method InsertOrder(userId: int, totalAmount: int, orderDate: int, fails: bool) returns (id: Option<int>)
      requires Valid() && inTx
      modifies this
      ensures Valid() && inTx
      ensures orders == old(orders) && items == old(items) && pendingItems == old(pendingItems)
      ensures nextItemId == old(nextItemId)
      ensures fails ==> id == None && pendingOrders == old(pendingOrders) && nextOrderId == old(nextOrderId)
      ensures !fails ==> && id == Some(old(nextOrderId))
                         && pendingOrders == old(pendingOrders) + [OrderRow(old(nextOrderId), userId, totalAmount, orderDate)]
                         && nextOrderId == old(nextOrderId) + 1
    {
      if fails {
        id := None;
      } else {
        id := Some(nextOrderId);
        pendingOrders := pendingOrders + [OrderRow(nextOrderId, userId, totalAmount, orderDate)];
        nextOrderId := nextOrderId + 1;
      }
    }

    /** `INSERT INTO orderitems (orderid, productid)` inside the open transaction; the
        foreign key rejects an order id the transaction cannot see. */
    method InsertItem(orderId: int, productId: int, fails: bool) returns (ok: bool)
      requires Valid() && inTx
      modifies this
      ensures Valid() && inTx
      ensures orders == old(orders) && items == old(items) && pendingOrders == old(pendingOrders)
      ensures nextOrderId == old(nextOrderId)
      ensures ok == (!fails && orderId in OrderIds(orders + pendingOrders))
      ensures !ok ==> pendingItems == old(pendingItems) && nextItemId == old(nextItemId)
      ensures ok ==> && pendingItems == old(pendingItems) + [OrderItem(old(nextItemId), orderId, productId)]
                     && nextItemId == old(nextItemId) + 1
    {
      ok := !fails && orderId in OrderIds(orders + pendingOrders);
      if ok {
        pendingItems := pendingItems + [OrderItem(nextItemId, orderId, productId)];
        nextItemId := nextItemId + 1;
      }
    }

    /** `tx.Commit`: publishes the transaction's rows, or on failure discards them (a
        failed commit ends the transaction rolled back). Either way the transaction is over. */
    method Commit(fails: bool) returns (ok: bool)
      requires Valid() && inTx
      modifies this
      ensures Valid() && !inTx
      ensures ok == !fails
      ensures ok ==> orders == old(orders) + old(pendingOrders) && items == old(items) + old(pendingItems)
      ensures !ok ==> orders == old(orders) && items == old(items)
      ensures nextOrderId == old(nextOrderId) && nextItemId == old(nextItemId)
    {
      ok := !fails;
      if ok {
        forall it | it in items ensures it.orderId in OrderIds(orders + pendingOrders) {
          assert it.orderId in OrderIds(orders);
        }
        orders := orders + pendingOrders;
        items := items + pendingItems;
      }
      pendingOrders, pendingItems := [], [];
      inTx := false;
    }

    /** `tx.Rollback`, as deferred by the handler: discards an open transaction's rows; after
        a commit the transaction is already closed and nothing happens. */
    method Rollback()
      requires Valid()
      modifies this
      ensures Valid() && !inTx
      ensures orders == old(orders) && items == old(items)
      ensures nextOrderId == old(nextOrderId) && nextItemId == old(nextItemId)
    {
      pendingOrders, pendingItems := [], [];
      inTx := false;
    }

    /** `SELECT ... FROM orders WHERE id = $1` read with `QueryRow`: the first matching row. */
    function QueryOrder(id: int): (r: Option<OrderRow>)
      reads this
      ensures r.None? <==> id !in OrderIds(orders)
      ensures r.Some? ==> r.value in orders && r.value.id == id
    {
      var k := FirstIndexOf(orders, id);
      if k < 0 then None else Some(orders[k])
    }
  }
}
