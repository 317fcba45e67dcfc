/** The request and response shapes of the Go order service (main.go:20-37) and the
    error messages its handlers answer with. */
module GoTypes {
  import opened Common

  datatype OrderCreateRequest = OrderCreateRequest(userId: int, productIds: seq<int>)

  /** An order as the handlers return it: the row and its line items. */
  datatype Order = Order(id: int, userId: int, totalAmount: int, orderDate: int, orderItems: seq<OrderItem>)

  /** Which `{"error": ...}` message a handler wrote. */
  datatype ErrorKind =
    | MalformedBody
    | UserServiceUnreachable
    | UserNotFound(userId: int)
    | ProductServiceUnreachable
    | ProductFetchFailed(productId: int, status: int)
    | ProductDecodeFailed
    | BeginFailed
    | CreateOrderFailed
    | PrepareFailed
    | CreateItemFailed
    | CommitFailed
    | FetchCreatedFailed
    | QueryOrdersFailed
    | ScanOrderFailed
    | IterateOrdersFailed
    | QueryItemsFailed
    | ScanItemFailed
    | UserIdMissing
    | UserIdInvalid
    | ProcessUserOrdersFailed

  function WithItems(row: OrderRow, items: seq<OrderItem>): Order {
    Order(row.id, row.userId, row.totalAmount, row.orderDate, items)
  }
}
