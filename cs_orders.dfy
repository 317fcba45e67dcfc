/** The C# `OrdersController` (Controllers/OrdersController.cs) over its EF Core context:
    `CreateOrder` confirms the user, prices every product in request order, builds one
    `OrderItem` per requested id and saves the order with its items in one `SaveChanges`;
    `GetOrder` finds an order by id with its items. Remote replies and the save's failure are
    inputs; an exception the controller does not catch becomes a 500. */
module CsOrders {
  import opened Common

  /** The request body (Model/Order.cs:24-28). */
  datatype CreateRequest = CreateRequest(userId: int, productIds: seq<int>)

  /** An `Order` as the controller returns it, with the derived `ProductIds` (Model/Order.cs:5-22). */
  datatype OrderView = OrderView(
    id: int,
    userId: int,
    totalAmount: int,
    orderDate: int,
    orderItems: seq<OrderItem>,
    userName: Option<string>,
    productNames: seq<string>,
    productIds: seq<int>)

  /** Why a request was refused with 400. */
  datatype Reason =
    | NoProducts
    | UserRejected(userId: int)
    | UserUnreadable
    | ProductRejected(productId: int)
    | ProductUnreadable(productId: int)

  datatype Outcome =
    | Created(order: OrderView)
    | Found(order: OrderView)
    | BadRequest(reason: Reason)
    | NotFound
    | ServerError

  /** `IsSuccessStatusCode`: any 2xx status. */
  predicate IsSuccess(status: int) {
    200 <= status <= 299
  }

  /** Reading the user reply (OrdersController.cs:60-67). A transport failure or a body that is
      not JSON throws out of the action: 500. A non-2xx status or a `null` body is a 400. */
  function UserStep(userId: int, reply: Reply<UserDto>): (r: Result<UserDto, Outcome>)
    ensures r.Ok? <==> reply.Answer? && IsSuccess(reply.status) && reply.body.Value?
    ensures r.Ok? ==> r.value == reply.body.value
    ensures r.Err? ==> r.error.ServerError? || r.error.BadRequest?
    ensures r.Err? && r.error.ServerError? <==>
              reply.Transport? || (IsSuccess(reply.status) && reply.body.Malformed?)
    ensures reply.Answer? && !IsSuccess(reply.status) ==> r == Err(BadRequest(UserRejected(userId)))
  {
    match reply
    case Transport => Err(ServerError)
    case Answer(status, body) =>
      if !IsSuccess(status) then Err(BadRequest(UserRejected(userId)))
      else
        match body
        case Malformed => Err(ServerError)
        case Null => Err(BadRequest(UserUnreadable))
        case Value(u) => Ok(u)
  }

  /** Reading one product reply (OrdersController.cs:75-82), by the same rules as the user's. */
  function ProductStep(pid: int, reply: Reply<ProductDto>): (r: Result<ProductDto, Outcome>)
    ensures r.Ok? <==> reply.Answer? && IsSuccess(reply.status) && reply.body.Value?
    ensures r.Ok? ==> r.value == reply.body.value
    ensures r.Err? && r.error.ServerError? <==>
              reply.Transport? || (IsSuccess(reply.status) && reply.body.Malformed?)
    ensures reply.Answer? && !IsSuccess(reply.status) ==> r == Err(BadRequest(ProductRejected(pid)))
    ensures reply.Answer? && IsSuccess(reply.status) && reply.body.Null? ==>
              r == Err(BadRequest(ProductUnreadable(pid)))
  {
    match reply
    case Transport => Err(ServerError)
    case Answer(status, body) =>
      if !IsSuccess(status) then Err(BadRequest(ProductRejected(pid)))
      else
        match body
        case Malformed => Err(ServerError)
        case Null => Err(BadRequest(ProductUnreadable(pid)))
        case Value(p) => Ok(p)
  }

  function ProductSteps(pids: seq<int>, replies: seq<Reply<ProductDto>>): seq<Result<ProductDto, Outcome>>
    requires |replies| == |pids|
  {
    seq(|pids|, j requires 0 <= j < |pids| => ProductStep(pids[j], replies[j]))
  }

  function Prices(ps: seq<ProductDto>): seq<int> {
    seq(|ps|, j requires 0 <= j < |ps| => ps[j].price)
  }

  function Names(ps: seq<ProductDto>): seq<string> {
    seq(|ps|, j requires 0 <= j < |ps| => ps[j].name)
  }

  /** Fetching one more product adds its price to the total and its name to the list. */
  lemma PricesNamesSnoc(done: seq<ProductDto>, p: ProductDto)
    ensures Sum(Prices(done + [p])) == Sum(Prices(done)) + p.price
    ensures Names(done + [p]) == Names(done) + [p.name]
  {
    assert Prices(done + [p]) == Prices(done) + [p.price];
    SumSnoc(Prices(done), p.price);
  }

  /** The product loop (OrdersController.cs:71-86): products are fetched in request order up
      to and including the first failure; on success the total is the sum of the prices and
      the names are the products' names, one per requested id, in request order. */
  method FetchProducts(pids: seq<int>, replies: seq<Reply<ProductDto>>)
    returns (r: Result<(int, seq<string>), Outcome>, calls: seq<Call>)
    requires |replies| == |pids|
    ensures var rs := ProductSteps(pids, replies); var k := FirstErr(rs);
            && (k == |pids| ==>
                  && r == Ok((Sum(Prices(OkPrefix(rs))), Names(OkPrefix(rs))))
                  && |r.value.1| == |pids|
                  && calls == Lookups(pids))
            && (k < |pids| ==> r == Err(rs[k].error) && calls == Lookups(pids[..k + 1]))
  {
    ghost var rs := ProductSteps(pids, replies);
    var totalAmount := 0;
    var productNames: seq<string> := [];
    calls := [];
    var i := 0;
    while i < |pids|
      invariant i <= FirstErr(rs)
      invariant calls == Lookups(pids[..i])
      invariant totalAmount == Sum(Prices(OkPrefix(rs)[..i]))
      invariant productNames == Names(OkPrefix(rs)[..i])
    {
      calls := calls + [ProductLookup(pids[i])];
      LookupsSnoc(pids, i);
      var step := ProductStep(pids[i], replies[i]);
      assert rs[i] == step;
      if step.Err? {
        assert FirstErr(rs) == i;
        return Err(step.error), calls;
      }
      OkPrefixSnoc(rs, i);
      PricesNamesSnoc(OkPrefix(rs)[..i], step.value);
      productNames := productNames + [step.value.name];
      totalAmount := totalAmount + step.value.price;
      i := i + 1;
    }
    assert pids[..i] == pids;
    assert OkPrefix(rs)[..i] == OkPrefix(rs);
    r := Ok((totalAmount, productNames));
  }

  /** An item as the controller builds it: only the product id is set; the key and the
      `OrderId` are filled in when the order is saved. */
  function Drafts(pids: seq<int>): seq<OrderItem> {
    seq(|pids|, j requires 0 <= j < |pids| => OrderItem(0, 0, pids[j]))
  }

  /** The drafts carry the requested product ids, in order. */
  lemma DraftsProductIds(pids: seq<int>)
    ensures ProductIdsOf(Drafts(pids)) == pids
  {
  }

  /** An EF-tracked `Order` entity (Model/Order.cs:5-22). */
  class OrderEntity {
    var id: int
    var userId: int
    var totalAmount: int
    var orderDate: int
    var orderItems: seq<OrderItem>
    var userName: Option<string>
    var productNames: seq<string>

    /** The object initializer of OrdersController.cs:89-97. */
    constructor (userId: int, totalAmount: int, orderDate: int, userName: Option<string>, productNames: seq<string>)
      ensures this.id == 0 && this.userId == userId && this.totalAmount == totalAmount
      ensures this.orderDate == orderDate && this.userName == userName && this.productNames == productNames
      ensures orderItems == []
    {
      this.id := 0;
      this.userId := userId;
      this.totalAmount := totalAmount;
      this.orderDate := orderDate;
      this.orderItems := [];
      this.userName := userName;
      this.productNames := productNames;
    }

    /** The derived `ProductIds` (Model/Order.cs:21): the items' product ids, in item order. */
    function ProductIds(): (ps: seq<int>)
      reads this
      ensures |ps| == |orderItems|
      ensures forall j :: 0 <= j < |ps| ==> ps[j] == orderItems[j].productId
    {
      ProductIdsOf(orderItems)
    }

    /** The entity as it is serialized. */
    function View(): OrderView
      reads this
    {
      OrderView(id, userId, totalAmount, orderDate, orderItems, userName, productNames, ProductIds())
    }

    /** The item loop of OrdersController.cs:100-107: one draft item per requested id, in order. */
    method AddDrafts(pids: seq<int>)
      modifies this
      ensures orderItems == old(orderItems) + Drafts(pids)
      ensures id == old(id) && userId == old(userId) && totalAmount == old(totalAmount)
      ensures orderDate == old(orderDate) && userName == old(userName) && productNames == old(productNames)
    {
      var i := 0;
      while i < |pids|
        invariant 0 <= i <= |pids|
        invariant orderItems == old(orderItems) + Drafts(pids[..i])
        invariant id == old(id) && userId == old(userId) && totalAmount == old(totalAmount)
        invariant orderDate == old(orderDate) && userName == old(userName) && productNames == old(productNames)
      {
        assert Drafts(pids[..i + 1]) == Drafts(pids[..i]) + [OrderItem(0, 0, pids[i])];
        AddItem(OrderItem(0, 0, pids[i]));
        i := i + 1;
      }
      assert pids[..i] == pids;
    }

    /** `OrderItems.Add`. */
    method AddItem(item: OrderItem)
      modifies this
      ensures orderItems == old(orderItems) + [item]
      ensures id == old(id) && userId == old(userId) && totalAmount == old(totalAmount)
      ensures orderDate == old(orderDate) && userName == old(userName) && productNames == old(productNames)
    {
      orderItems := orderItems + [item];
    }
  }

  /** The `Orders` and `OrderItems` tables behind `OrderDbContext`, and the identity counters
      that number new rows. */
  class OrderDbContext {
    var orders: seq<OrderRow>
    var items: seq<OrderItem>
    var nextOrderId: int
    var nextItemId: int

    /** Every key was drawn from its counter, and every item references a stored order (the
        one-to-many relationship with foreign key `OrderId`, Data/OrderDbContext.cs:16-19). */
    ghost predicate Valid()
      reads this
    {
      IdsBelow(orders, nextOrderId) && ItemIdsBelow(items, nextItemId) && References(items, orders)
    }

    constructor ()
      ensures Valid() && orders == [] && items == []
    {
      orders, items := [], [];
      nextOrderId, nextItemId := 1, 1;
    }

    /** `Orders.Add(newOrder)` followed by `SaveChangesAsync()` (OrdersController.cs:110-111): one
        transaction that inserts the order, gives it its key, and inserts its items, numbered
        in order and pointing at it. When the save fails, nothing is stored and the entity is
        as it was. */
    method SaveNew(e: OrderEntity, fails: bool) returns (ok: bool)
      requires Valid()
      modifies this, e
      ensures Valid()
      ensures ok == !fails
      ensures e.userId == old(e.userId) && e.totalAmount == old(e.totalAmount) && e.orderDate == old(e.orderDate)
      ensures e.userName == old(e.userName) && e.productNames == old(e.productNames)
      ensures !ok ==> && orders == old(orders) && items == old(items)
                      && e.id == old(e.id) && e.orderItems == old(e.orderItems)
      ensures ok ==> && e.id == old(nextOrderId)
                     && e.orderItems == ItemsForProducts(e.id, old(nextItemId), old(ProductIdsOf(e.orderItems)))
                     && orders == old(orders) + [OrderRow(e.id, e.userId, e.totalAmount, e.orderDate)]
                     && items == old(items) + e.orderItems
    {
      ok := !fails;
      if !ok {
        return;
      }
      var orderId := nextOrderId;
      var row := OrderRow(orderId, e.userId, e.totalAmount, e.orderDate);
      var stored := ItemsForProducts(orderId, nextItemId, ProductIdsOf(e.orderItems));
      e.id := orderId;
      e.orderItems := stored;
      assert row in orders + [row];
      forall it | it in items ensures it.orderId in OrderIds(orders + [row]) {
        var r :| r in orders && r.id == it.orderId;
        assert r in orders + [row];
      }
      orders := orders + [row];
      items := items + stored;
      nextOrderId := nextOrderId + 1;
      nextItemId := nextItemId + |stored|;
    }

    /** `Orders.Include(o => o.OrderItems).FirstOrDefaultAsync(o => o.Id == id)`
        (OrdersController.cs:31-43): the first order with the id, loaded with its items;
        otherwise 404. The display-only properties are not stored, so they come back empty. */
    function GetOrder(id: int): (r: Outcome)
      reads this
      ensures r.NotFound? <==> id !in OrderIds(orders)
      ensures r.Found? || r.NotFound?
      ensures r.Found? ==>
                && r.order.id == id
                && OrderRow(r.order.id, r.order.userId, r.order.totalAmount, r.order.orderDate) in orders
                && (forall it :: it in r.order.orderItems <==> it in items && it.orderId == id)
                && r.order.productIds == ProductIdsOf(r.order.orderItems)
                && r.order.userName.None? && r.order.productNames == []
    {
      var k := FirstIndexOf(orders, id);
      if k < 0 then NotFound
      else
        var row := orders[k];
        var loaded := ItemsFor(items, id);
        Found(OrderView(row.id, row.userId, row.totalAmount, row.orderDate, loaded, None, [], ProductIdsOf(loaded)))
    }
  }

  /** `CreateOrder` (OrdersController.cs:48-114). */
  method CreateOrder(ctx: OrderDbContext, req: CreateRequest, user: Reply<UserDto>,
                     replies: seq<Reply<ProductDto>>, saveFails: bool, now: int)
    returns (resp: Outcome, calls: seq<Call>)
    requires ctx.Valid()
    requires |replies| == |req.productIds|
    modifies ctx
    ensures ctx.Valid()
    ensures !(resp.Created?) ==> ctx.orders == old(ctx.orders) && ctx.items == old(ctx.items)
    ensures req.productIds == [] ==> resp == BadRequest(NoProducts) && calls == []
    ensures req.productIds != [] && UserStep(req.userId, user).Err? ==>
              resp == UserStep(req.userId, user).error && calls == [UserLookup(req.userId)]
    ensures req.productIds != [] && UserStep(req.userId, user).Ok? ==>
              var pids := req.productIds;
              var rs := ProductSteps(pids, replies);
              var k := FirstErr(rs);
              && (k < |pids| ==>
                    resp == rs[k].error && calls == [UserLookup(req.userId)] + Lookups(pids[..k + 1]))
              && (k == |pids| && saveFails ==>
                    resp == ServerError && calls == [UserLookup(req.userId)] + Lookups(pids))
              && (k == |pids| && !saveFails ==>
                    var id := old(ctx.nextOrderId);
                    var total := Sum(Prices(OkPrefix(rs)));
                    var stored := ItemsForProducts(id, old(ctx.nextItemId), pids);
                    && calls == [UserLookup(req.userId)] + Lookups(pids)
                    && resp == Created(OrderView(id, req.userId, total, now, stored,
                                                 Some(UserStep(req.userId, user).value.name),
                                                 Names(OkPrefix(rs)), pids))
                    && ctx.orders == old(ctx.orders) + [OrderRow(id, req.userId, total, now)]
                    && ctx.items == old(ctx.items) + stored)
    // Round trip: the created order is what `GetOrder` then finds under its id.
    ensures resp.Created? ==> ctx.GetOrder(resp.order.id) == Found(resp.order.(userName := None, productNames := []))
  {
    var pids := req.productIds;
    if |pids| == 0 {
      return BadRequest(NoProducts), [];
    }
    var u := UserStep(req.userId, user);
    if u.Err? {
      return u.error, [UserLookup(req.userId)];
    }
    var fetched, productCalls := FetchProducts(pids, replies);
    calls := [UserLookup(req.userId)] + productCalls;
    if fetched.Err? {
      return fetched.error, calls;
    }
    resp := SaveOrder(ctx, req.userId, fetched.value.0, now, u.value.name, fetched.value.1, pids, saveFails);
  }

  /** Steps 3 and 4 of `CreateOrder` (OrdersController.cs:88-113): the new entity with one
      draft item per requested id, saved in one `SaveChanges`; 201 with the saved order, or
      500 when the save throws. */
  method SaveOrder(ctx: OrderDbContext, userId: int, totalAmount: int, now: int, userName: string,
                   productNames: seq<string>, pids: seq<int>, saveFails: bool)
    returns (resp: Outcome)
    requires ctx.Valid()
    modifies ctx
    ensures ctx.Valid()
    ensures saveFails ==> resp == ServerError && ctx.orders == old(ctx.orders) && ctx.items == old(ctx.items)
    ensures !saveFails ==>
              var id := old(ctx.nextOrderId);
              var stored := ItemsForProducts(id, old(ctx.nextItemId), pids);
              && resp == Created(OrderView(id, userId, totalAmount, now, stored, Some(userName), productNames, pids))
              && ctx.orders == old(ctx.orders) + [OrderRow(id, userId, totalAmount, now)]
              && ctx.items == old(ctx.items) + stored
    // `GetOrder` then finds the saved order, without the display-only names.
    ensures resp.Created? ==> ctx.GetOrder(resp.order.id) == Found(resp.order.(userName := None, productNames := []))
  {
    var order := new OrderEntity(userId, totalAmount, now, Some(userName), productNames);
    order.AddDrafts(pids);
    DraftsProductIds(pids);
    var saved := ctx.SaveNew(order, saveFails);
    if !saved {
      return ServerError;
    }
    ProductIdsOfItems(order.id, old(ctx.nextItemId), pids);
    CreatedOrderIsFound(ctx, old(ctx.orders), old(ctx.items),
                        OrderRow(order.id, userId, totalAmount, now), order.orderItems);
    resp := Created(order.View());
  }

  /** An order `CreateOrder` saved is what `GetOrder` then finds under its id, with the same
      items and product ids; only the display-only user and product names are lost. */
  lemma CreatedOrderIsFound(ctx: OrderDbContext, before: seq<OrderRow>, beforeItems: seq<OrderItem>,
                            row: OrderRow, stored: seq<OrderItem>)
    requires forall r :: r in before ==> r.id < row.id
    requires forall it :: it in beforeItems ==> it.orderId in OrderIds(before)
    requires forall j :: 0 <= j < |stored| ==> stored[j].orderId == row.id
    requires ctx.orders == before + [row] && ctx.items == beforeItems + stored
    ensures ctx.GetOrder(row.id)
            == Found(OrderView(row.id, row.userId, row.totalAmount, row.orderDate, stored, None, [],
                               ProductIdsOf(stored)))
  {
    CommittedOrderIsReadBack(before, beforeItems, row, stored);
  }
}
