# Order service: order creation and order listing

This project models the order service of a small microservice demo. The service exists
twice, once in Go and once in C#.

- **Go `createOrderHandler`** decodes a request, checks the user with the user service, and
  prices every product with the product service in request order. It then writes the order
  and one item row per product in one PostgreSQL transaction with a deferred rollback, and
  reads the stored order back. The handler is modelled as a sequence of steps. Every remote
  reply and every database failure is an input. The database is a `Database` class with
  `Begin`, `InsertOrder`, `InsertItem`, `Commit` and `Rollback` methods, plus the `serial`
  counters that number new rows.
- **Go `getAllOrdersHandler` and `getOrdersByUserIDHandler`** read the order rows and keep a
  pointer to each one in a map keyed by id. They append every item row to the order its
  `orderid` names, then encode the list. An `OrderRecord` class models a Go `*Order`. That
  class is where items are appended in place. `Merge` is the value-level answer the two
  loops are proved against. The two handlers handle failures differently:
  - `getAllOrdersHandler` turns every failure into a 500 and answers `[]` when there are no
    rows;
  - `getOrdersByUserIDHandler` degrades to `[]` on a query or iteration failure, keeps orders
    without items when the item query fails, and skips item rows that do not scan. With no
    rows it encodes a nil slice, which is `null`.
- **C# `OrdersController`**:
  - `CreateOrder` refuses an empty product list. It checks the user, prices the products,
    builds one `OrderItem` per requested id, and saves everything in one `SaveChanges`.
  - `GetOrder` finds an order by id together with its items.
  - `OrderEntity` models the EF entity, including the derived `ProductIds`.
  - `OrderDbContext` models the stored tables. The foreign key from items to orders is an
    invariant of `OrderDbContext`.

Money is whole cents (`int`). Clock values are opaque integers passed in as `now`.
A collaborator reply is one of: a transport failure, or a status with a body that is
malformed, `null`, or a value.

`Common` holds the row types and the list functions that both implementations share.
`Strconv` models Go's `strconv.Atoi` as used on the `{id}` path segment.

In the C# controller, only a non-2xx status or a `null` body from a collaborator becomes 400.
A transport failure, or a body that is not JSON, throws out of the action, and ASP.NET answers
that with 500.

## Model

| member | source | states |
|---|---|---|
| GoCreate.ProductStep | main.go:284-304 | A product reply is accepted exactly when the status is 200 and the body decodes. A transport failure is 503. Any other status is passed through with `ProductFetchFailed`. A malformed body is 500. A `null` body prices at 0. |
| GoCreate.FetchPrices | main.go:281-305 | Products are called in request order, up to and including the first failing reply. That failure is the answer. Otherwise the total is the sum of the accepted prices, one per requested id. |
| GoCreate.PersistFault | main.go:311-356 | Which statement of the transaction fails first, in the order the handler runs them: begin, order insert, prepare, item inserts, commit. |
| GoCreate.Persist | main.go:311-356 | Atomicity. A fault answers 500 with that fault's message and leaves the committed tables unchanged. With no fault, exactly one order row and one item row per requested id are committed, all referencing the new order id. No transaction is left open. |
| GoCreate.InsertItemsAndCommit | main.go:342-356 | The item inserts and the commit. The tables gain the pending order and its items only when every insert and the commit succeed. |
| GoCreate.InsertItems | main.go:342-349 | The item loop succeeds exactly when no insert fails. It then adds one pending row per id, in request order, numbered from the item counter. |
| GoCreate.ReadBack | main.go:359-380 | After commit, a failed or empty order lookup is 500. Otherwise the answer is the stored row with the items that scanned. A failed item query gives no items. |
| GoCreate.CreateOrderHandler | main.go:243-388 | The answer on each path: 400 for an undecodable body; 503, or the user service's own status, for the user; an empty 200 when closing the user body fails; the first product failure; 500 with the failing transaction step. The calls made up to that point. Before the user and every product are confirmed, the database is untouched: no transaction is begun and no `serial` number is used. Tables unchanged unless the transaction commits. On commit, the exact new order row with the summed total, and one item per id. An empty product list commits an order with total 0 and no items. |
| GoStore.Database.Begin | main.go:311-315 | Opens a transaction unless it fails. The tables are untouched. |
| GoStore.Database.InsertOrder | main.go:326-332 | On success, adds a pending order numbered by the `serial` counter and returns its id. |
| GoStore.Database.InsertItem | main.go:344-348 | Succeeds exactly when it does not fail and the order id exists for the foreign key. Then it adds a pending item row. |
| GoStore.Database.Commit | main.go:353-356 | On success, publishes the pending rows after the committed ones. On failure, the committed tables are unchanged. The transaction is closed either way, and the foreign-key invariant holds. |
| GoStore.Database.Rollback | main.go:316-323 | Discards pending rows. Does nothing after a commit. |
| GoStore.Database.QueryOrder | main.go:361 | Finds an order row exactly when its id is stored, and returns a row with that id. |
| Common.CommittedOrderIsReadBack | main.go:359-380 | After an insert, a lookup by the new id finds the new row, and a lookup of items by order id finds exactly the new items. |
| Common.FirstErr | main.go:282-305 | Every step before the returned index succeeded, and the step at that index failed. |
| Common.OkPrefix | main.go:282-305 | The values of the steps before the first failure, in order. |
| Common.SumSnoc | main.go:304 | Adding the next price to the running total extends the sum of the prices. |
| Common.GoodRows | main.go:372-379 | The rows that scanned: no more rows than the result set, each one from the set, and every row of the set that scanned. |
| Common.GoodRowsAllScanned | main.go:110-120 | When every row scans, the result is the whole result set, in order. |
| Common.ItemsFor | main.go:367 | The items selected by `orderid`: exactly the item rows with that order id. |
| Common.ItemsForAppend | main.go:146-156 | Selecting by order id distributes over concatenating result sets. |
| Common.ItemsForProductsSnoc | main.go:342-349 | Each successful insert extends the item list by one row, numbered next, for the next requested id. |
| Common.ProductIdsOfItems | Model/Order.cs:21 | The product ids read back from the built items are the requested list. |
| Common.FirstIndexOf | main.go:361 | The first row with the id, or -1 exactly when no row has it. |
| Common.LastIndexOf | main.go:119 | The last row with the id (the one a map keyed by id ends up holding), or -1 when none has it. |
| Common.LastIndexOfSnoc | main.go:119 | Storing one more row makes it the map's entry for its id and leaves every other entry as it was. |
| GoList.MergeKeepsOrders | main.go:110-120 | The answer has one order per row, in query order, with that row's fields. |
| GoList.MergeItemsBelong | main.go:146-156 | Every attached item was an item row, and its `orderid` is the order's id. |
| GoList.MergeDropsOrphans | main.go:153-155 | An item whose `orderid` names no fetched order is dropped. |
| GoList.MergeKeepsMatched | main.go:153-155 | An item whose `orderid` names a fetched order is attached to the order the map holds for that id. |
| GoList.MergeKeepsItemOrder | main.go:146-156 | Items keep their result-set order within each order. |
| GoList.MergeDistinctIds | main.go:110-156 | With distinct order ids, every order carries exactly the items with its id. |
| GoList.MergeStep | main.go:153-155 | One more item row is appended to the order the map holds for its id, and to no other order. |
| GoList.IndexesSnoc | main.go:118-119 | Storing the record of one more row under its id keeps the map pointing every id at the record of its last row. |
| GoList.ValuesAreMerge | main.go:158 | Records that hold each row's fields and merged items encode as the merge. |
| GoList.LoadOrders | main.go:110-120 | Succeeds exactly when every row scans. Then it gives one fresh record per row, in order, with no items, and the map holds each id's last record. |
| GoList.AttachItems | main.go:146-156 | With aborting on a bad row, succeeds exactly when every item row scans. With skipping, always succeeds. The records then equal the merge of the orders with the items that scanned. |
| GoList.AttachItem | main.go:153-155 | One scanned item is appended in place to the record the map holds for its order id, and to no other record. |
| GoList.GetAllOrders | main.go:96-163 | Each failure (query, scan, iteration, item query, item scan) is a 500 with its own message. No rows gives `[]`. Otherwise the answer is the merge of all rows with all items. |
| GoList.GetOrdersByUser | main.go:165-241 | A missing id or one `Atoi` rejects is 400. Otherwise the degraded policy below applies. |
| GoList.ListUserOrders | main.go:180-240 | A failed order query or iteration gives `[]`. A bad order row is 500. No rows gives `null`. A failed item query gives the orders without items. Otherwise the answer is the merge with the item rows that scanned. |
| Strconv.Atoi | main.go:174-178 | An accepted segment is non-empty, is an optional sign followed only by digits, and has a value in the 64-bit `int` range. |
| Strconv.AtoiItoa | main.go:174-178 | Every 64-bit `int` written in decimal is accepted with its own value. |
| Strconv.NatToStringValue | main.go:174-178 | The decimal digits of a natural number read back as that number. |
| CsOrders.UserStep | Controllers/OrdersController.cs:60-67 | The user is accepted exactly when the status is 2xx and the body is a value. A non-2xx status or a `null` body is a 400. A transport failure or a malformed body is a 500. |
| CsOrders.ProductStep | Controllers/OrdersController.cs:75-82 | The same rules for a product reply, with each 400 naming the product id. |
| CsOrders.FetchProducts | Controllers/OrdersController.cs:71-86 | Products are called in request order up to the first failure, which is the answer. Otherwise the total is the sum of the prices, and the names are one per requested id, in order. |
| CsOrders.OrderEntity.ProductIds | Model/Order.cs:21 | The product ids of the order's items, one per item, in item order. |
| CsOrders.DraftsProductIds | Model/Order.cs:21 | The draft items built from a request carry its product ids, in order. |
| CsOrders.OrderEntity.AddDrafts | Controllers/OrdersController.cs:100-107 | Appends one draft item per requested id, in order, and changes nothing else. |
| CsOrders.OrderEntity.AddItem | Controllers/OrdersController.cs:106 | Appends the item and changes nothing else. |
| CsOrders.OrderDbContext.SaveNew | Controllers/OrdersController.cs:110-111 | On success, the order gets the next key, and its items are numbered in order and point at it. The order row and exactly those items are stored, and the foreign-key invariant is kept. On failure, nothing is stored and the entity is unchanged. |
| CsOrders.OrderDbContext.GetOrder | Controllers/OrdersController.cs:31-43 | Not found exactly when no stored order has the id. Otherwise the order has that id and a stored row, its items are exactly the stored items with its id, and its display-only fields are empty. |
| CsOrders.CreateOrder | Controllers/OrdersController.cs:48-114 | An empty product list is a 400 before any call. A user or product failure is answered with the calls made so far. A failed save is a 500. On the other paths the tables are unchanged. On success, the answer is the saved order: the summed total, the user's name, the product names, one item per requested id, and `ProductIds` equal to the request's list. `GetOrder` then finds that order under its id, without the display-only names. |
| CsOrders.SaveOrder | Controllers/OrdersController.cs:88-113 | A failed save is 500, with the tables unchanged. Otherwise the answer is 201 with the saved order: the next key, one stored item per requested id, and `ProductIds` equal to the request's list. The tables gain exactly that order and those items, and `GetOrder` finds it under its id. |
| CsOrders.CreatedOrderIsFound | Controllers/OrdersController.cs:31-43 | An order saved by `CreateOrder` is what `GetOrder` then finds under its id, with the same items and product ids. |

## Left out

- HTTP routing, headers, logging and JSON formatting are not modelled. Responses are tagged by status and message kind. Decoding a request body and a collaborator body is an input.
- Environment lookups of the service URLs are not modelled. `Program.cs` (service wiring) is not part of this model, and neither is the EF mapping beyond the foreign-key invariant it implies.
- `GetOrders` (the C# list-all action) is not modelled. It is a single EF query.
- SQL is not executed. Result sets are inputs in table order. `ORDER BY orderdate DESC` is not modelled, so the listed order rows arrive in whatever order the result set has, which is the order the merge keeps. The `WHERE userid = $1` filter and `ANY($1)` are applied by the database and are not modelled. Neither is the `orderIDs` list built only to pass to `ANY`.
- The Go list handlers and the read-back in `createOrderHandler` (main.go:367-380) never check `itemRows.Err()`. So a failure partway through the item rows is not an outcome, and neither `ListUserOrders`, `GetAllOrders` nor `ReadBack` has one.
- Prices are whole cents rather than `float64` and `decimal`: floating-point rounding and C# `decimal` overflow are not modelled.
- `omitempty` on `orderItems` omits an empty item list from the Go JSON. The model keeps the list; both mean "no items".
- The deferred `Body.Close` calls on product replies and the error from `Rollback` only affect logging. They are not modelled.
- Concurrency between requests is not modelled. Each handler runs against a database state it alone changes.
- CsOrders.OrderDbContext.SaveNew: models `Orders.Add` followed by `SaveChanges` for the one entity the action adds. A change tracker holding several entities is not modelled.
- CsOrders.CreateOrder: ASP.NET's automatic 400 for a body that does not bind, and the exception for a `null` `ProductIds`, are not modelled. The request always carries a list.
- GoStore.Database.InsertOrder: a failed insert does not use up a `serial` number in the model. PostgreSQL may use one, which would only leave a gap in the ids.
