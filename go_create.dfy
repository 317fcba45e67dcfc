/** `createOrderHandler` (main.go:243-388): decode the request, confirm the user, price
    every product in request order, write the order and its items in one transaction
    with a deferred rollback, then read the stored order back. Each remote reply and
    each database failure is an input. */
module GoCreate {
  import opened Common
  import opened GoTypes
  import opened GoStore

  /** What the handler writes: 201 with the order, an error status with its message, or
      nothing at all (the handler returned before writing, so the server sends an empty 200). */
  datatype Response = Created(order: Order) | Failed(status: int, kind: ErrorKind) | Silent

  /** Injected database failures: one flag per statement of the transaction, the indices
      of the item inserts that fail, and the failures of the read-back after commit. */
  datatype DbFaults = DbFaults(
    begin: bool,
    insertOrder: bool,
    prepare: bool,
    insertItem: set<nat>,
    commit: bool,
    reRead: bool,
    itemQuery: bool,
    itemScan: set<nat>)

  /** How one product reply is read (main.go:284-304): transport failure is 503, any status
      but 200 is passed through, an undecodable body is 500. A `null` body decodes into the
      zero product, so it prices at 0. */
  function ProductStep(pid: int, reply: Reply<ProductDto>): (r: Result<int, Response>)
    ensures r.Err? ==> r.error.Failed?
    ensures r.Ok? <==> reply.Answer? && reply.status == 200 && !reply.body.Malformed?
    ensures reply.Transport? ==> r == Err(Failed(503, ProductServiceUnreachable))
    ensures reply.Answer? && reply.status != 200 ==>
              r == Err(Failed(reply.status, ProductFetchFailed(pid, reply.status)))
    ensures reply.Answer? && reply.status == 200 && reply.body.Malformed? ==>
              r == Err(Failed(500, ProductDecodeFailed))
    ensures r.Ok? ==> r.value == (if reply.body.Value? then reply.body.value.price else 0)
  {
    match reply
    case Transport => Err(Failed(503, ProductServiceUnreachable))
    case Answer(status, body) =>
      if status != 200 then Err(Failed(status, ProductFetchFailed(pid, status)))
      else
        match body
        case Malformed => Err(Failed(500, ProductDecodeFailed))
        case Null => Ok(0)
        case Value(p) => Ok(p.price)
  }

  /** The outcome of each product call, call `j` answered by `replies[j]`. */
  function PricingSteps(pids: seq<int>, replies: seq<Reply<ProductDto>>): seq<Result<int, Response>>
    requires |replies| == |pids|
  {
    seq(|pids|, j requires 0 <= j < |pids| => ProductStep(pids[j], replies[j]))
  }

  /** The pricing loop (main.go:281-305). The products are fetched in request order up to and
      including the first failure; on success the total is the sum of the fetched prices, one
      term per requested id. */
  method FetchPrices(pids: seq<int>, replies: seq<Reply<ProductDto>>)
    returns (total: Result<int, Response>, calls: seq<Call>)
    requires |replies| == |pids|
    ensures var rs := PricingSteps(pids, replies); var k := FirstErr(rs);
            && (k == |pids| ==> total == Ok(Sum(OkPrefix(rs))) && calls == Lookups(pids))
            && (k < |pids| ==> total == rs[k] && calls == Lookups(pids[..k + 1]))
  {
    ghost var rs := PricingSteps(pids, replies);
    var totalAmount := 0;
    calls := [];
    var i := 0;
    while i < |pids|
      invariant i <= FirstErr(rs)
      invariant calls == Lookups(pids[..i])
      invariant totalAmount == Sum(OkPrefix(rs)[..i])
    {
      calls := calls + [ProductLookup(pids[i])];
      LookupsSnoc(pids, i);
      var step := ProductStep(pids[i], replies[i]);
      assert rs[i] == step;
      if step.Err? {
        assert FirstErr(rs) == i;
        return step, calls;
      }
      OkPrefixSnoc(rs, i);
      SumSnoc(OkPrefix(rs)[..i], step.value);
      totalAmount := totalAmount + step.value;
      i := i + 1;
    }
    assert pids[..i] == pids;
    assert OkPrefix(rs)[..i] == OkPrefix(rs);
    total := Ok(totalAmount);
  }

  /** One of the first `n` item inserts fails. */
  predicate SomeItemFails(failing: set<nat>, n: nat) {
    exists j :: 0 <= j < n && j in failing
  }

  lemma NoItemFailsSnoc(failing: set<nat>, i: nat)
    requires !SomeItemFails(failing, i) && i !in failing
    ensures !SomeItemFails(failing, i + 1)
  {
  }

  /** The first transaction statement that fails, in the order the handler runs them. */
  function PersistFault(faults: DbFaults, n: nat): Option<ErrorKind> {
    if faults.begin then Some(BeginFailed)
    else if faults.insertOrder then Some(CreateOrderFailed)
    else if faults.prepare then Some(PrepareFailed)
    else if SomeItemFails(faults.insertItem, n) then Some(CreateItemFailed)
    else if faults.commit then Some(CommitFailed)
    else None
  }

  /** The transaction (main.go:311-356). Either it commits exactly one order row followed by
      one item row per requested id, all referencing the new order, or it answers 500 and the
      committed tables are as they were. No transaction is left open. */
  method Persist(db: Database, userId: int, totalAmount: int, pids: seq<int>, faults: DbFaults, now: int)
    returns (r: Result<int, Response>)
    requires db.Valid() && !db.inTx
    modifies db
    ensures db.Valid() && !db.inTx
    ensures PersistFault(faults, |pids|).Some? ==>
              && r == Err(Failed(500, PersistFault(faults, |pids|).value))
              && db.orders == old(db.orders) && db.items == old(db.items)
    ensures PersistFault(faults, |pids|).None? ==>
              && r == Ok(old(db.nextOrderId))
              && db.orders == old(db.orders) + [OrderRow(old(db.nextOrderId), userId, totalAmount, now)]
              && db.items == old(db.items) + ItemsForProducts(old(db.nextOrderId), old(db.nextItemId), pids)
  {
    var began := db.Begin(faults.begin);
    if !began {
      return Err(Failed(500, BeginFailed));
    }
    // From here on every return runs the deferred `tx.Rollback` first.
    var inserted := db.InsertOrder(userId, totalAmount, now, faults.insertOrder);
    if inserted.None? {
      db.Rollback();
      return Err(Failed(500, CreateOrderFailed));
    }
    var orderId := inserted.value;
    if faults.prepare {
      db.Rollback();
      return Err(Failed(500, PrepareFailed));
    }
    r := InsertItemsAndCommit(db, orderId, pids, faults);
  }

  /** The second half of the transaction (main.go:342-356): the item inserts and the commit,
      with the deferred rollback on every exit. */
  method InsertItemsAndCommit(db: Database, orderId: int, pids: seq<int>, faults: DbFaults)
    returns (r: Result<int, Response>)
    requires db.Valid() && db.inTx
    requires |db.pendingOrders| == 1 && db.pendingOrders[0].id == orderId && db.pendingItems == []
    modifies db
    ensures db.Valid() && !db.inTx
    ensures SomeItemFails(faults.insertItem, |pids|) ==>
              r == Err(Failed(500, CreateItemFailed)) && db.orders == old(db.orders) && db.items == old(db.items)
    ensures !SomeItemFails(faults.insertItem, |pids|) && faults.commit ==>
              r == Err(Failed(500, CommitFailed)) && db.orders == old(db.orders) && db.items == old(db.items)
    ensures !SomeItemFails(faults.insertItem, |pids|) && !faults.commit ==>
              && r == Ok(orderId)
              && db.orders == old(db.orders) + old(db.pendingOrders)
              && db.items == old(db.items) + ItemsForProducts(orderId, old(db.nextItemId), pids)
  {
    assert orderId in OrderIds(db.pendingOrders) by {
      assert db.pendingOrders[0] in db.pendingOrders;
    }
    var itemsOk := InsertItems(db, orderId, pids, faults.insertItem);
    if !itemsOk {
      db.Rollback();
      return Err(Failed(500, CreateItemFailed));
    }
    var committed := db.Commit(faults.commit);
    if !committed {
      db.Rollback();
      return Err(Failed(500, CommitFailed));
    }
    db.Rollback();
    r := Ok(orderId);
  }

  /** The item insert loop (main.go:342-349): one insert per requested id, in order, stopping
      at the first that fails. */
  method InsertItems(db: Database, orderId: int, pids: seq<int>, failing: set<nat>) returns (ok: bool)
    requires db.Valid() && db.inTx && db.pendingItems == []
    requires orderId in OrderIds(db.pendingOrders)
    modifies db
    ensures db.Valid() && db.inTx
    ensures db.orders == old(db.orders) && db.items == old(db.items)
    ensures db.pendingOrders == old(db.pendingOrders) && db.nextOrderId == old(db.nextOrderId)
    ensures ok == !SomeItemFails(failing, |pids|)
    ensures ok ==> db.pendingItems == ItemsForProducts(orderId, old(db.nextItemId), pids)
  {
    assert OrderIds(db.pendingOrders) <= OrderIds(db.orders + db.pendingOrders);
    ghost var firstId := db.nextItemId;
    var i := 0;
    while i < |pids|
      invariant 0 <= i <= |pids|
      invariant db.Valid() && db.inTx
      invariant db.orders == old(db.orders) && db.items == old(db.items)
      invariant db.pendingOrders == old(db.pendingOrders) && db.nextOrderId == old(db.nextOrderId)
      invariant orderId in OrderIds(db.orders + db.pendingOrders)
      invariant db.pendingItems == ItemsForProducts(orderId, firstId, pids[..i])
      invariant db.nextItemId == firstId + i
      invariant !SomeItemFails(failing, i)
    {
      var itemOk := db.InsertItem(orderId, pids[i], i in failing);
      if !itemOk {
        assert i in failing;
        return false;
      }
      assert pids[..i + 1] == pids[..i] + [pids[i]];
      ItemsForProductsSnoc(orderId, firstId, pids[..i], pids[i]);
      NoItemFailsSnoc(failing, i);
      i := i + 1;
    }
    assert pids[..i] == pids;
    ok := true;
  }

  /** Re-reading the order after commit (main.go:359-380): a failed order read is 500 even
      though the order is stored; a failed item query yields the order without items; an
      item row that does not scan is skipped. */
  method ReadBack(db: Database, orderId: int, faults: DbFaults) returns (resp: Response)
    ensures faults.reRead || db.QueryOrder(orderId).None? ==> resp == Failed(500, FetchCreatedFailed)
    ensures !faults.reRead && db.QueryOrder(orderId).Some? ==>
              resp == Created(WithItems(db.QueryOrder(orderId).value,
                                        if faults.itemQuery then []
                                        else GoodRows(MarkFailed(ItemsFor(db.items, orderId), faults.itemScan))))
  {
    if faults.reRead {
      return Failed(500, FetchCreatedFailed);
    }
    var row := db.QueryOrder(orderId);
    if row.None? {
      return Failed(500, FetchCreatedFailed);
    }
    var orderItems: seq<OrderItem> := [];
    if !faults.itemQuery {
      var scans := MarkFailed(ItemsFor(db.items, orderId), faults.itemScan);
      var i := 0;
      while i < |scans|
        invariant 0 <= i <= |scans|
        invariant orderItems == GoodRows(scans[..i])
      {
        assert scans[..i + 1][..i] == scans[..i];
        match scans[i] {
          case BadRow =>
          case Row(item) => orderItems := orderItems + [item];
        }
        i := i + 1;
      }
      assert scans[..i] == scans;
    }
    resp := Created(WithItems(row.value, orderItems));
  }

  predicate UserAccepted(user: Reply<UserDto>, userCloseFails: bool) {
    user.Answer? && user.status == 200 && !userCloseFails
  }

  /** The request gets as far as the transaction: body decoded, user confirmed and every
      product priced. Before that point the handler touches no database state. */
  predicate ReachesPersist(req: Option<OrderCreateRequest>, user: Reply<UserDto>, userCloseFails: bool,
                           replies: seq<Reply<ProductDto>>)
    requires req.Some? ==> |replies| == |req.value.productIds|
  {
    && req.Some?
    && UserAccepted(user, userCloseFails)
    && FirstErr(PricingSteps(req.value.productIds, replies)) == |req.value.productIds|
  }

  /** The request reaches a successful commit: body decoded, user confirmed, every product
      priced, and no transaction statement failed. */
  predicate Commits(req: Option<OrderCreateRequest>, user: Reply<UserDto>, userCloseFails: bool,
                    replies: seq<Reply<ProductDto>>, faults: DbFaults)
    requires req.Some? ==> |replies| == |req.value.productIds|
  {
    && req.Some?
    && UserAccepted(user, userCloseFails)
    && FirstErr(PricingSteps(req.value.productIds, replies)) == |req.value.productIds|
    && PersistFault(faults, |req.value.productIds|).None?
  }

  method CreateOrderHandler(
    db: Database, req: Option<OrderCreateRequest>, user: Reply<UserDto>, userCloseFails: bool,
    replies: seq<Reply<ProductDto>>, faults: DbFaults, now: int)
    returns (resp: Response, calls: seq<Call>)
    requires db.Valid() && !db.inTx
    requires req.Some? ==> |replies| == |req.value.productIds|
    modifies db
    ensures db.Valid() && !db.inTx
    // Body that does not decode: 400, nothing called.
    ensures req.None? ==> resp == Failed(400, MalformedBody) && calls == []
    // User service: unreachable is 503, any other status is passed through, and no product is fetched.
    ensures req.Some? && user.Transport? ==>
              resp == Failed(503, UserServiceUnreachable) && calls == [UserLookup(req.value.userId)]
    ensures req.Some? && user.Answer? && user.status != 200 ==>
              && resp == Failed(user.status, UserNotFound(req.value.userId))
              && calls == [UserLookup(req.value.userId)]
    ensures req.Some? && user.Answer? && user.status == 200 && userCloseFails ==>
              resp == Silent && calls == [UserLookup(req.value.userId)]
    // Products: fetched in order; the first failure decides the answer and stops the loop.
    ensures req.Some? && UserAccepted(user, userCloseFails) ==>
              var pids := req.value.productIds;
              var rs := PricingSteps(pids, replies);
              var k := FirstErr(rs);
              && (k < |pids| ==>
                    resp == rs[k].error && calls == [UserLookup(req.value.userId)] + Lookups(pids[..k + 1]))
              && (k == |pids| ==> calls == [UserLookup(req.value.userId)] + Lookups(pids))
              && (k == |pids| && PersistFault(faults, |pids|).Some? ==>
                    resp == Failed(500, PersistFault(faults, |pids|).value))
    // No transaction is begun and no serial number is used before every remote check passed.
    ensures !ReachesPersist(req, user, userCloseFails, replies) ==> unchanged(db)
    // Atomicity: without a successful commit the tables are unchanged.
    ensures !Commits(req, user, userCloseFails, replies, faults) ==>
              db.orders == old(db.orders) && db.items == old(db.items)
    // A commit adds one order row carrying the summed total and one item row per requested
    // id; the answer is that order as read back.
    ensures Commits(req, user, userCloseFails, replies, faults) ==>
              var pids := req.value.productIds;
              var row := OrderRow(old(db.nextOrderId), req.value.userId,
                                  Sum(OkPrefix(PricingSteps(pids, replies))), now);
              var newItems := ItemsForProducts(old(db.nextOrderId), old(db.nextItemId), pids);
              && db.orders == old(db.orders) + [row]
              && db.items == old(db.items) + newItems
              && resp == if faults.reRead then Failed(500, FetchCreatedFailed)
                         else Created(WithItems(row, if faults.itemQuery then []
                                                     else GoodRows(MarkFailed(newItems, faults.itemScan))))
    // An empty product list is not refused: it commits an order with total 0 and no items.
    ensures Commits(req, user, userCloseFails, replies, faults) && req.value.productIds == [] ==>
              && db.orders == old(db.orders) + [OrderRow(old(db.nextOrderId), req.value.userId, 0, now)]
              && db.items == old(db.items)
  {
    calls := [];
    if req.None? {
      return Failed(400, MalformedBody), calls;
    }
    var request := req.value;
    calls := [UserLookup(request.userId)];
    if user.Transport? {
      return Failed(503, UserServiceUnreachable), calls;
    }
    if user.status != 200 {
      return Failed(user.status, UserNotFound(request.userId)), calls;
    }
    if userCloseFails {
      return Silent, calls;
    }
    var priced, productCalls := FetchPrices(request.productIds, replies);
    calls := calls + productCalls;
    if priced.Err? {
      return priced.error, calls;
    }
    ghost var before := db.orders;
    ghost var beforeItems := db.items;
    ghost var firstItem := db.nextItemId;
    var stored := Persist(db, request.userId, priced.value, request.productIds, faults, now);
    if stored.Err? {
      return stored.error, calls;
    }
    ghost var row := OrderRow(stored.value, request.userId, priced.value, now);
    ghost var newItems := ItemsForProducts(stored.value, firstItem, request.productIds);
    CommittedOrderIsReadBack(before, beforeItems, row, newItems);
    resp := ReadBack(db, stored.value, faults);
  }
}
