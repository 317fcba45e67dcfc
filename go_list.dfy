/** `getAllOrdersHandler` (main.go:96-163) and `getOrdersByUserIDHandler` (main.go:165-241):
    read the order rows, index them by id in `orderMap`, append every item row to the order
    its `orderid` names, and encode the orders. The two handlers share the merge and differ
    in what they do when a query or a scan fails. Query results are inputs. */
module GoList {
  import opened Common
  import opened GoTypes
  import opened Strconv

  /** A query's result: the query failed, or it produced rows, after which `rows.Err()` may
      report that iteration stopped on an error. */
  datatype Query<T> = QueryFailed | Rows(scans: seq<Scan<T>>, iterationFailed: bool)

  /** An encoded slice of orders: a nil slice encodes as `null`, any other as an array. */
  datatype JsonArray = NullArray | Array(orders: seq<Order>)

  datatype ListResponse = Listed(body: JsonArray) | ListFailed(status: int, kind: ErrorKind)

  /** The merged answer: every order row in query order. The row that `orderMap` keeps for
      an id (the last row with it) carries that id's item rows in item-row order; any other
      row carries none. */
  function Merge(rows: seq<OrderRow>, items: seq<OrderItem>): seq<Order> {
    seq(|rows|, i requires 0 <= i < |rows| => WithItems(rows[i], MergedItems(rows, items, i)))
  }

  function MergedItems(rows: seq<OrderRow>, items: seq<OrderItem>, i: int): seq<OrderItem>
    requires 0 <= i < |rows|
  {
    if LastIndexOf(rows, rows[i].id) == i then ItemsFor(items, rows[i].id) else []
  }

  /** The output has one order per row, in row order, with the row's fields. */
  lemma MergeKeepsOrders(rows: seq<OrderRow>, items: seq<OrderItem>)
    ensures |Merge(rows, items)| == |rows|
    ensures forall i :: 0 <= i < |rows| ==>
              var o := Merge(rows, items)[i];
              OrderRow(o.id, o.userId, o.totalAmount, o.orderDate) == rows[i]
  {
  }

  /** Every attached item is an item row whose `orderid` is the order's id. */
  lemma MergeItemsBelong(rows: seq<OrderRow>, items: seq<OrderItem>)
    ensures forall i, it :: 0 <= i < |rows| && it in Merge(rows, items)[i].orderItems ==>
              it in items && it.orderId == Merge(rows, items)[i].id
  {
  }

  /** An item row whose `orderid` names no fetched order is dropped. */
  lemma MergeDropsOrphans(rows: seq<OrderRow>, items: seq<OrderItem>, it: OrderItem)
    requires it.orderId !in OrderIds(rows)
    ensures forall i :: 0 <= i < |rows| ==> it !in Merge(rows, items)[i].orderItems
  {
    forall i | 0 <= i < |rows| ensures rows[i].id != it.orderId {
      assert rows[i] in rows;
    }
  }

  /** An item row whose `orderid` names a fetched order is attached to the row `orderMap` kept. */
  lemma MergeKeepsMatched(rows: seq<OrderRow>, items: seq<OrderItem>, it: OrderItem)
    requires it in items && it.orderId in OrderIds(rows)
    ensures 0 <= LastIndexOf(rows, it.orderId) < |rows|
    ensures it in Merge(rows, items)[LastIndexOf(rows, it.orderId)].orderItems
  {
    var r :| r in rows && r.id == it.orderId;
    var j :| 0 <= j < |rows| && rows[j] == r;
  }

  /** Items keep their row order within each order: merging two batches of item rows one
      after the other is the same as merging them together. */
  lemma MergeKeepsItemOrder(rows: seq<OrderRow>, a: seq<OrderItem>, b: seq<OrderItem>)
    ensures forall i :: 0 <= i < |rows| ==>
              Merge(rows, a + b)[i].orderItems == Merge(rows, a)[i].orderItems + Merge(rows, b)[i].orderItems
  {
    forall i | 0 <= i < |rows|
      ensures Merge(rows, a + b)[i].orderItems == Merge(rows, a)[i].orderItems + Merge(rows, b)[i].orderItems
    {
      ItemsForAppend(a, b, rows[i].id);
    }
  }

  /** With distinct order ids (the primary key), every order carries exactly its own items. */
  lemma MergeDistinctIds(rows: seq<OrderRow>, items: seq<OrderItem>)
    requires forall i, j :: 0 <= i < j < |rows| ==> rows[i].id != rows[j].id
    ensures forall i :: 0 <= i < |rows| ==> Merge(rows, items)[i].orderItems == ItemsFor(items, rows[i].id)
  {
    forall i | 0 <= i < |rows| ensures LastIndexOf(rows, rows[i].id) == i {
      var k := LastIndexOf(rows, rows[i].id);
      assert k >= i;
    }
  }

  /** The effect of one more item row on the merge: it is appended to the order `orderMap`
      holds for its `orderid`, and to no other. */
  lemma {:induction false} MergeStep(rows: seq<OrderRow>, items: seq<OrderItem>, it: OrderItem)
    ensures forall i :: 0 <= i < |rows| ==>
              MergedItems(rows, items + [it], i)
              == MergedItems(rows, items, i) + (if i == LastIndexOf(rows, it.orderId) then [it] else [])
  {
    forall i | 0 <= i < |rows|
      ensures MergedItems(rows, items + [it], i)
              == MergedItems(rows, items, i) + (if i == LastIndexOf(rows, it.orderId) then [it] else [])
    {
      ItemsForAppend(items, [it], rows[i].id);
      assert ItemsFor([it], rows[i].id) == if it.orderId == rows[i].id then [it] else [];
      if LastIndexOf(rows, rows[i].id) == i && it.orderId == rows[i].id {
        assert i == LastIndexOf(rows, it.orderId);
      }
    }
  }

  /** A Go `*Order`: the row fields and the item slice the merge appends to in place. */
  class OrderRecord {
    var id: int
    var userId: int
    var totalAmount: int
    var orderDate: int
    var orderItems: seq<OrderItem>

    constructor (row: OrderRow)
      ensures Row() == row && orderItems == []
    {
      id, userId, totalAmount, orderDate := row.id, row.userId, row.totalAmount, row.orderDate;
      orderItems := [];
    }

    function Row(): OrderRow
      reads this
    {
      OrderRow(id, userId, totalAmount, orderDate)
    }

    function Value(): Order
      reads this
    {
      Order(id, userId, totalAmount, orderDate, orderItems)
    }
  }

  /** What encoding `[]*Order` writes: the current value of every record. */
  function Values(objs: seq<OrderRecord>): seq<Order>
    reads set o | o in objs
  {
    seq(|objs|, i requires 0 <= i < |objs| reads set o | o in objs => objs[i].Value())
  }

  /** `index` is `orderMap` for the records `objs` of the rows `rows`: its keys are the rows'
      ids, and each id maps to the record of the last row with that id. */
  ghost predicate Indexes(index: map<int, OrderRecord>, objs: seq<OrderRecord>, rows: seq<OrderRow>) {
    && |objs| == |rows|
    && index.Keys == OrderIds(rows)
    && (forall id :: id in index ==> 0 <= LastIndexOf(rows, id) < |objs| && index[id] == objs[LastIndexOf(rows, id)])
  }

  /** Storing the record of one more row under its id keeps `index` the map of the records. */
  lemma IndexesSnoc(index: map<int, OrderRecord>, objs: seq<OrderRecord>, rows: seq<OrderRow>,
                    r: OrderRow, o: OrderRecord)
    requires Indexes(index, objs, rows)
    ensures Indexes(index[r.id := o], objs + [o], rows + [r])
  {
    forall id ensures LastIndexOf(rows + [r], id) == if id == r.id then |rows| else LastIndexOf(rows, id) {
      LastIndexOfSnoc(rows, r, id);
    }
    assert OrderIds(rows + [r]) == OrderIds(rows) + {r.id} by {
      forall x | x in rows + [r] ensures x in rows || x == r {}
    }
  }

  /** Records holding each row's fields and merged items encode as the merge. */
  lemma ValuesAreMerge(objs: seq<OrderRecord>, rows: seq<OrderRow>, items: seq<OrderItem>)
    requires |objs| == |rows|
    requires forall i :: 0 <= i < |objs| ==> objs[i].Row() == rows[i] && objs[i].orderItems == MergedItems(rows, items, i)
    ensures Values(objs) == Merge(rows, items)
  {
    forall i | 0 <= i < |objs| ensures Values(objs)[i] == Merge(rows, items)[i] {
      assert objs[i].Row() == rows[i];
    }
  }

  /** The order-row loop (main.go:110-120 and 191-202): one fresh record per row in row
      order, and `orderMap[id]` set to each in turn, so it ends holding the last record per id.
      The first row that does not scan aborts. */
  method LoadOrders(scans: seq<Scan<OrderRow>>)
    returns (ok: bool, objs: seq<OrderRecord>, index: map<int, OrderRecord>)
    ensures ok == AllScanned(scans)
    ensures ok ==>
              var rows := GoodRows(scans);
              && |objs| == |rows|
              && (forall i :: 0 <= i < |objs| ==> fresh(objs[i]))
              && (forall i :: 0 <= i < |objs| ==> objs[i].Row() == rows[i] && objs[i].orderItems == [])
              && (forall i, j :: 0 <= i < j < |objs| ==> objs[i] != objs[j])
              && Indexes(index, objs, rows)
  {
    objs, index := [], map[];
    ghost var rows: seq<OrderRow> := [];
    var i := 0;
    while i < |scans|
      invariant 0 <= i <= |scans|
      invariant |objs| == |rows| == i
      invariant forall j :: 0 <= j < i ==> scans[j].Row? && rows[j] == scans[j].value
      invariant forall j :: 0 <= j < i ==> fresh(objs[j])
      invariant forall j :: 0 <= j < i ==> objs[j].Row() == rows[j] && objs[j].orderItems == []
      invariant forall j, m :: 0 <= j < m < i ==> objs[j] != objs[m]
      invariant Indexes(index, objs, rows)
    {
      match scans[i] {
        case BadRow =>
          return false, objs, index;
        case Row(r) =>
          var o := new OrderRecord(r);
          IndexesSnoc(index, objs, rows, r, o);
          objs := objs + [o];
          index := index[r.id := o];
          rows := rows + [r];
      }
      i := i + 1;
    }
    GoodRowsAllScanned(scans);
    assert rows == GoodRows(scans);
    ok := true;
  }

  /** The item-row loop (main.go:146-156 and 225-234): each scanned item is appended to
      `orderMap[item.OrderID]` when that id is in the map. A row that does not scan either
      aborts (`skipBad` false) or is skipped (`skipBad` true). */
  method AttachItems(objs: seq<OrderRecord>, index: map<int, OrderRecord>, ghost rows: seq<OrderRow>,
                     scans: seq<Scan<OrderItem>>, skipBad: bool)
    returns (ok: bool)
    requires Indexes(index, objs, rows)
    requires forall i :: 0 <= i < |objs| ==> objs[i].Row() == rows[i] && objs[i].orderItems == []
    requires forall i, j :: 0 <= i < j < |objs| ==> objs[i] != objs[j]
    modifies set o | o in objs
    ensures ok == (skipBad || AllScanned(scans))
    ensures ok ==> Values(objs) == Merge(rows, GoodRows(scans))
  {
    var k := 0;
    ghost var got: seq<OrderItem> := [];
    while k < |scans|
      invariant 0 <= k <= |scans|
      invariant !skipBad ==> forall m :: 0 <= m < k ==> scans[m].Row?
      invariant got == GoodRows(scans[..k])
      invariant forall i :: 0 <= i < |objs| ==> objs[i].Row() == rows[i] && objs[i].orderItems == MergedItems(rows, got, i)
    {
      assert scans[..k + 1][..k] == scans[..k];
      match scans[k] {
        case BadRow =>
          if !skipBad {
            return false;
          }
        case Row(it) =>
          AttachItem(objs, index, rows, got, it);
          got := got + [it];
      }
      k := k + 1;
    }
    assert scans[..k] == scans;
    ok := true;
    ValuesAreMerge(objs, rows, got);
  }

  /** One scanned item row: `orderMap[item.OrderID]`, if present, gets the item appended. */
  method AttachItem(objs: seq<OrderRecord>, index: map<int, OrderRecord>, ghost rows: seq<OrderRow>,
                    ghost before: seq<OrderItem>, it: OrderItem)
    requires Indexes(index, objs, rows)
    requires forall i, j :: 0 <= i < j < |objs| ==> objs[i] != objs[j]
    requires forall i :: 0 <= i < |objs| ==> objs[i].Row() == rows[i] && objs[i].orderItems == MergedItems(rows, before, i)
    modifies set o | o in objs
    ensures forall i :: 0 <= i < |objs| ==>
              objs[i].Row() == rows[i] && objs[i].orderItems == MergedItems(rows, before + [it], i)
  {
    MergeStep(rows, before, it);
    if it.orderId in index {
      var o := index[it.orderId];
      o.orderItems := o.orderItems + [it];
    } else {
      assert LastIndexOf(rows, it.orderId) < 0;
    }
  }

  /** `getAllOrdersHandler`: every failure is a 500 with its own message, and no rows is `[]`. */
  method GetAllOrders(orderQuery: Query<OrderRow>, itemQuery: Query<OrderItem>) returns (resp: ListResponse)
    ensures orderQuery.QueryFailed? ==> resp == ListFailed(500, QueryOrdersFailed)
    ensures orderQuery.Rows? && !AllScanned(orderQuery.scans) ==> resp == ListFailed(500, ScanOrderFailed)
    ensures orderQuery.Rows? && AllScanned(orderQuery.scans) && orderQuery.iterationFailed ==>
              resp == ListFailed(500, IterateOrdersFailed)
    ensures orderQuery.Rows? && AllScanned(orderQuery.scans) && !orderQuery.iterationFailed ==>
              var rows := GoodRows(orderQuery.scans);
              && (rows == [] ==> resp == Listed(Array([])))
              && (rows != [] && itemQuery.QueryFailed? ==> resp == ListFailed(500, QueryItemsFailed))
              && (rows != [] && itemQuery.Rows? && !AllScanned(itemQuery.scans) ==>
                    resp == ListFailed(500, ScanItemFailed))
              && (rows != [] && itemQuery.Rows? && AllScanned(itemQuery.scans) ==>
                    resp == Listed(Array(Merge(rows, GoodRows(itemQuery.scans)))))
  {
    if orderQuery.QueryFailed? {
      return ListFailed(500, QueryOrdersFailed);
    }
    var loaded, objs, index := LoadOrders(orderQuery.scans);
    if !loaded {
      return ListFailed(500, ScanOrderFailed);
    }
    if orderQuery.iterationFailed {
      return ListFailed(500, IterateOrdersFailed);
    }
    if |objs| == 0 {
      return Listed(Array([]));
    }
    if itemQuery.QueryFailed? {
      return ListFailed(500, QueryItemsFailed);
    }
    var attached := AttachItems(objs, index, GoodRows(orderQuery.scans), itemQuery.scans, false);
    if !attached {
      return ListFailed(500, ScanItemFailed);
    }
    resp := Listed(Array(Values(objs)));
  }

  /** `getOrdersByUserIDHandler`: a missing or non-numeric `{id}` is a 400. The user id only
      filters the query, whose result is an input here. */
  method GetOrdersByUser(idParam: Option<string>, orderQuery: Query<OrderRow>, itemQuery: Query<OrderItem>)
    returns (resp: ListResponse)
    ensures idParam.None? ==> resp == ListFailed(400, UserIdMissing)
    ensures idParam.Some? && Atoi(idParam.value).None? ==> resp == ListFailed(400, UserIdInvalid)
    ensures idParam.Some? && Atoi(idParam.value).Some? ==>
              && (orderQuery.QueryFailed? ==> resp == Listed(Array([])))
              && (orderQuery.Rows? && !AllScanned(orderQuery.scans) ==> resp == ListFailed(500, ProcessUserOrdersFailed))
              && (orderQuery.Rows? && AllScanned(orderQuery.scans) && orderQuery.iterationFailed ==>
                    resp == Listed(Array([])))
              && (orderQuery.Rows? && AllScanned(orderQuery.scans) && !orderQuery.iterationFailed ==>
                    var rows := GoodRows(orderQuery.scans);
                    && (rows == [] ==> resp == Listed(NullArray))
                    && (rows != [] && itemQuery.QueryFailed? ==> resp == Listed(Array(Merge(rows, []))))
                    && (rows != [] && itemQuery.Rows? ==> resp == Listed(Array(Merge(rows, GoodRows(itemQuery.scans))))))
  {
    if idParam.None? {
      return ListFailed(400, UserIdMissing);
    }
    var userId := Atoi(idParam.value);
    if userId.None? {
      return ListFailed(400, UserIdInvalid);
    }
    resp := ListUserOrders(orderQuery, itemQuery);
  }

  /** `getOrdersByUserIDHandler` after the id is parsed (main.go:180-240): a failed order
      query or iteration degrades to an empty list, a failed item query to orders without
      items, and an item row that does not scan is skipped. */
  method ListUserOrders(orderQuery: Query<OrderRow>, itemQuery: Query<OrderItem>) returns (resp: ListResponse)
    ensures orderQuery.QueryFailed? ==> resp == Listed(Array([]))
    ensures orderQuery.Rows? && !AllScanned(orderQuery.scans) ==> resp == ListFailed(500, ProcessUserOrdersFailed)
    ensures orderQuery.Rows? && AllScanned(orderQuery.scans) && orderQuery.iterationFailed ==>
              resp == Listed(Array([]))
    ensures orderQuery.Rows? && AllScanned(orderQuery.scans) && !orderQuery.iterationFailed ==>
              var rows := GoodRows(orderQuery.scans);
              && (rows == [] ==> resp == Listed(NullArray))
              && (rows != [] && itemQuery.QueryFailed? ==> resp == Listed(Array(Merge(rows, []))))
              && (rows != [] && itemQuery.Rows? ==> resp == Listed(Array(Merge(rows, GoodRows(itemQuery.scans)))))
  {
    if orderQuery.QueryFailed? {
      return Listed(Array([]));
    }
    var loaded, objs, index := LoadOrders(orderQuery.scans);
    if !loaded {
      return ListFailed(500, ProcessUserOrdersFailed);
    }
    if orderQuery.iterationFailed {
      return Listed(Array([]));
    }
    if |objs| == 0 {
      return Listed(NullArray);
    }
    ghost var rows := GoodRows(orderQuery.scans);
    if itemQuery.QueryFailed? {
      forall i | 0 <= i < |objs| ensures objs[i].orderItems == MergedItems(rows, [], i) {}
      ValuesAreMerge(objs, rows, []);
    } else {
      var attached := AttachItems(objs, index, rows, itemQuery.scans, true);
    }
    resp := Listed(Array(Values(objs)));
  }
}
