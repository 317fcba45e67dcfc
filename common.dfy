/** Vocabulary shared by both versions of the order service: optional values,
    the replies of the user and product services, the rows of the `orders` and
    `orderitems` tables, and the sequence functions the handlers are specified by. */
module Common {

  datatype Option<T> = None | Some(value: T)

  datatype Result<T, E> = Ok(value: T) | Err(error: E)

  /** What decoding a JSON body produced: a parse failure, the literal `null`, or a value. */
  datatype Json<T> = Malformed | Null | Value(value: T)

  /** The outcome of one outbound GET: the call failed in transport, or it answered. */
  datatype Reply<T> = Transport | Answer(status: int, body: Json<T>)

  datatype UserDto = UserDto(name: string)

  /** Prices are whole cents. */
  datatype ProductDto = ProductDto(id: string, name: string, price: int)

  /** One outbound call, in the order the handler makes them. */
  datatype Call = UserLookup(userId: int) | ProductLookup(productId: int)

  /** A row of `orders(id, userid, totalamount, orderdate)`; the date is an opaque clock value. */
  datatype OrderRow = OrderRow(id: int, userId: int, totalAmount: int, orderDate: int)

  /** A row of `orderitems(id, orderid, productid)`. */
  datatype OrderItem = OrderItem(id: int, orderId: int, productId: int)

  /** One row read from a result set: scanned into a value, or the scan failed. */
  datatype Scan<T> = Row(value: T) | BadRow

  function Lookups(pids: seq<int>): seq<Call> {
    seq(|pids|, j requires 0 <= j < |pids| => ProductLookup(pids[j]))
  }

  /** One more call extends the calls made so far by that call. */
  lemma LookupsSnoc(pids: seq<int>, i: nat)
    requires i < |pids|
    ensures Lookups(pids[..i + 1]) == Lookups(pids[..i]) + [ProductLookup(pids[i])]
  {
  }

  function Sum(xs: seq<int>): int {
    if xs == [] then 0 else xs[0] + Sum(xs[1..])
  }

  /** Adding the next price at the end, as an accumulator loop does, extends the sum. */
  lemma {:induction false} SumSnoc(xs: seq<int>, x: int)
    ensures Sum(xs + [x]) == Sum(xs) + x
  {
    if xs == [] {
      assert [] + [x] == [x];
    } else {
      assert (xs + [x])[1..] == xs[1..] + [x];
      SumSnoc(xs[1..], x);
    }
  }

  /** Index of the first failing step, or |rs| when every step succeeded. */
  function FirstErr<T, E>(rs: seq<Result<T, E>>): (k: nat)
    ensures k <= |rs|
    ensures forall j :: 0 <= j < k ==> rs[j].Ok?
    ensures k < |rs| ==> rs[k].Err?
  {
    if rs == [] || rs[0].Err? then 0 else 1 + FirstErr(rs[1..])
  }

  /** The values of the steps that ran before the first failure, in order. */
  function OkPrefix<T, E>(rs: seq<Result<T, E>>): (vs: seq<T>)
    ensures |vs| == FirstErr(rs)
    ensures forall j :: 0 <= j < |vs| ==> rs[j] == Ok(vs[j])
  {
    if rs == [] || rs[0].Err? then [] else [rs[0].value] + OkPrefix(rs[1..])
  }

  /** The prefix of successful steps grows by one value per successful step. */
  lemma {:induction false} OkPrefixSnoc<T, E>(rs: seq<Result<T, E>>, i: nat)
    requires i < |rs| && i <= FirstErr(rs) && rs[i].Ok?
    ensures i + 1 <= FirstErr(rs)
    ensures OkPrefix(rs)[..i + 1] == OkPrefix(rs)[..i] + [rs[i].value]
  {
    var vs := OkPrefix(rs);
    assert i != FirstErr(rs);
    assert rs[i] == Ok(vs[i]);
    assert vs[..i + 1] == vs[..i] + [vs[i]];
  }

  /** The rows of a result set that scanned, in result order. */
  function GoodRows<T>(scans: seq<Scan<T>>): (rows: seq<T>)
    ensures |rows| <= |scans|
    ensures forall j :: 0 <= j < |rows| ==> Row(rows[j]) in scans
    ensures forall j :: 0 <= j < |scans| && scans[j].Row? ==> scans[j].value in rows
  {
    if scans == [] then []
    else
      GoodRows(scans[..|scans| - 1])
      + (match scans[|scans| - 1] case Row(x) => [x] case BadRow => [])
  }

  predicate AllScanned<T>(scans: seq<Scan<T>>) {
    forall j :: 0 <= j < |scans| ==> scans[j].Row?
  }

  /** When no scan failed, nothing is skipped and the order of the result set is kept. */
  lemma {:induction false} GoodRowsAllScanned<T>(scans: seq<Scan<T>>)
    requires AllScanned(scans)
    ensures |GoodRows(scans)| == |scans|
    ensures forall j :: 0 <= j < |scans| ==> GoodRows(scans)[j] == scans[j].value
  {
    if scans != [] {
      GoodRowsAllScanned(scans[..|scans| - 1]);
    }
  }

  /** The result set a query returns when the scans at the positions in `fails` fail. */
  function MarkFailed<T>(rows: seq<T>, fails: set<nat>): seq<Scan<T>> {
    seq(|rows|, j requires 0 <= j < |rows| => if j in fails then BadRow else Row(rows[j]))
  }

  /** The items of one order, in table order (`WHERE orderid = $1`). */
  function ItemsFor(items: seq<OrderItem>, orderId: int): (r: seq<OrderItem>)
    ensures |r| <= |items|
    ensures forall it :: it in r <==> it in items && it.orderId == orderId
  {
    if items == [] then []
    else (if items[0].orderId == orderId then [items[0]] else []) + ItemsFor(items[1..], orderId)
  }

  /** Filtering by order id keeps the relative order of the table: it distributes over `+`. */
  lemma {:induction false} ItemsForAppend(a: seq<OrderItem>, b: seq<OrderItem>, orderId: int)
    ensures ItemsFor(a + b, orderId) == ItemsFor(a, orderId) + ItemsFor(b, orderId)
  {
    if a == [] {
      assert [] + b == b;
    } else {
      assert (a + b)[1..] == a[1..] + b;
      ItemsForAppend(a[1..], b, orderId);
    }
  }

  /** A table segment none of whose items belongs to the order contributes nothing. */
  lemma {:induction false} ItemsForNone(items: seq<OrderItem>, orderId: int)
    requires forall it :: it in items ==> it.orderId != orderId
    ensures ItemsFor(items, orderId) == []
  {
    if items != [] {
      assert items[0] in items;
      forall it | it in items[1..] ensures it.orderId != orderId {
        assert it in items;
      }
      ItemsForNone(items[1..], orderId);
    }
  }

  /** A table segment all of whose items belong to the order is returned whole. */
  lemma {:induction false} ItemsForAll(items: seq<OrderItem>, orderId: int)
    requires forall j :: 0 <= j < |items| ==> items[j].orderId == orderId
    ensures ItemsFor(items, orderId) == items
  {
    if items != [] {
      ItemsForAll(items[1..], orderId);
    }
  }

  /** One line item per requested product, in request order, numbered from `firstId`. */
  function ItemsForProducts(orderId: int, firstId: int, pids: seq<int>): seq<OrderItem> {
    seq(|pids|, j requires 0 <= j < |pids| => OrderItem(firstId + j, orderId, pids[j]))
  }

  /** Inserting one more item, as the item loop does, extends the list by that item. */
  lemma ItemsForProductsSnoc(orderId: int, firstId: int, pids: seq<int>, pid: int)
    ensures ItemsForProducts(orderId, firstId, pids + [pid])
            == ItemsForProducts(orderId, firstId, pids) + [OrderItem(firstId + |pids|, orderId, pid)]
  {
  }

  /** The product ids of a list of line items, in order (the derived `ProductIds` of an order). */
  function ProductIdsOf(items: seq<OrderItem>): seq<int> {
    seq(|items|, j requires 0 <= j < |items| => items[j].productId)
  }

  /** Building one item per requested id and reading the ids back gives the request's list. */
  lemma ProductIdsOfItems(orderId: int, firstId: int, pids: seq<int>)
    ensures ProductIdsOf(ItemsForProducts(orderId, firstId, pids)) == pids
  {
  }

  function OrderIds(rows: seq<OrderRow>): set<int> {
    set r | r in rows :: r.id
  }

  /** Position of the first row with the given id (what `QueryRow`/`FirstOrDefault` return), or -1. */
  function FirstIndexOf(rows: seq<OrderRow>, id: int): (k: int)
    ensures -1 <= k < |rows|
    ensures k >= 0 ==> rows[k].id == id && forall j :: 0 <= j < k ==> rows[j].id != id
    ensures k < 0 <==> id !in OrderIds(rows)
  {
    if rows == [] then -1
    else if rows[0].id == id then 0
    else
      var k := FirstIndexOf(rows[1..], id);
      assert id in OrderIds(rows[1..]) ==> id in OrderIds(rows) by {
        if id in OrderIds(rows[1..]) {
          var r :| r in rows[1..] && r.id == id;
          assert r in rows;
        }
      }
      assert id in OrderIds(rows) ==> id in OrderIds(rows[1..]) by {
        if id in OrderIds(rows) {
          var r :| r in rows && r.id == id;
          assert r in rows[1..];
        }
      }
      if k < 0 then -1 else k + 1
  }

  /** Position of the last row with the given id (the one a map keyed by id keeps), or -1. */
  function LastIndexOf(rows: seq<OrderRow>, id: int): (k: int)
    ensures -1 <= k < |rows|
    ensures k >= 0 ==> rows[k].id == id && forall j :: k < j < |rows| ==> rows[j].id != id
    ensures k < 0 ==> forall j :: 0 <= j < |rows| ==> rows[j].id != id
  {
    if rows == [] then -1
    else if rows[|rows| - 1].id == id then |rows| - 1
    else LastIndexOf(rows[..|rows| - 1], id)
  }

  /** Appending one row makes it the last holder of its id and leaves every other id's
      last holder where it was. */
  lemma LastIndexOfSnoc(rows: seq<OrderRow>, r: OrderRow, id: int)
    ensures LastIndexOf(rows + [r], id) == if id == r.id then |rows| else LastIndexOf(rows, id)
  {
    assert (rows + [r])[..|rows|] == rows;
  }

  /** Every order row's id was drawn from a counter now at `next`. */
  ghost predicate IdsBelow(rows: seq<OrderRow>, next: int) {
    forall r :: r in rows ==> r.id < next
  }

  /** Every item row's id was drawn from a counter now at `next`. */
  ghost predicate ItemIdsBelow(items: seq<OrderItem>, next: int) {
    forall it :: it in items ==> it.id < next
  }

  /** The foreign key `orderitems.orderid -> orders.id`: every item references a stored order. */
  ghost predicate References(items: seq<OrderItem>, orders: seq<OrderRow>) {
    forall it :: it in items ==> it.orderId in OrderIds(orders)
  }

  /** Reading back a just-inserted order: the new row is the first row with its id, and the
      new items are exactly the items with its id, because every earlier row has a smaller
      id and every earlier item references an earlier row. */
  lemma {:induction false} CommittedOrderIsReadBack(
    orders: seq<OrderRow>, items: seq<OrderItem>, row: OrderRow, newItems: seq<OrderItem>)
    requires forall r :: r in orders ==> r.id < row.id
    requires forall it :: it in items ==> it.orderId in OrderIds(orders)
    requires forall j :: 0 <= j < |newItems| ==> newItems[j].orderId == row.id
    ensures FirstIndexOf(orders + [row], row.id) == |orders|
    ensures ItemsFor(items + newItems, row.id) == newItems
  {
    var k := FirstIndexOf(orders + [row], row.id);
    assert row in orders + [row];
    forall it | it in items ensures it.orderId != row.id {
      var r :| r in orders && r.id == it.orderId;
    }
    ItemsForAppend(items, newItems, row.id);
    ItemsForNone(items, row.id);
    ItemsForAll(newItems, row.id);
  }
}
