/** The order API of app/api/orders/route.ts: request validation, order ids and
    payment references, the insertion of a pending order, and the reshaping of
    stored rows for the reply. */
module Orders {
  import opened Wrappers
  import opened Seqs
  import opened Text
  import opened Ledger
  import Cart

  /** The JSON body of a creation request; a missing or `null` field is `None`. */
  datatype CreateOrderRequest = CreateOrderRequest(
    items: Option<seq<Cart.CartItem>>,
    total: Option<real>,
    customerEmail: Option<string>)

  /** What the handler reads from the outside world: the clock (`Date.now()` and the
      ISO time), the random suffix (`Math.random().toString(36).substr(2, 9)`), the
      configured account address, and the JSON text of the request's items. */
  datatype OrderInputs = OrderInputs(
    timestamp: nat, randomString: string, createdAt: int,
    mainAccountAddress: string, itemsJson: string)

  /** The reply to a successful creation (the `message` text and the two-decimal
      rendering of `amount` are not modelled). */
  datatype CreatedOrder = CreatedOrder(
    orderId: string, paymentAddress: string, paymentReference: string,
    amount: real, currency: string, status: string)

  datatype PostReply = OrderCreated(order: CreatedOrder) | PostError(httpStatus: int, error: string)

  /** A stored order as the API shows it. */
  datatype OrderView = OrderView(
    orderId: string, items: string, total: real, customerEmail: Option<string>,
    paymentAddress: string, paymentReference: string, status: string, createdAt: int)

  datatype GetReply =
    | OneOrder(order: OrderView)
    | OrderList(orders: seq<OrderView>)
    | OrderNotFound
    | GetError(httpStatus: int, error: string)

  const NoItems: string := "No items in cart"
  const InvalidTotal: string := "Invalid total amount"
  const JsonOnly: string := "Content-Type must be application/json"
  const CreateFailed: string := "Failed to create order"
  const SaveFailed: string := "Failed to save order"
  const RetrieveFailed: string := "Failed to retrieve orders"

  /** `validateOrderRequest`: the item check comes first, then the total check. */
  function ValidateOrderRequest(body: CreateOrderRequest): (r: Option<string>)
    ensures r == Some(NoItems) <==> body.items.None? || body.items.value == []
    ensures r == Some(InvalidTotal) <==>
      body.items.Some? && body.items.value != [] && (body.total.None? || body.total.value <= 0.0)
    ensures r == None <==>
      body.items.Some? && body.items.value != [] && body.total.Some? && body.total.value > 0.0
  {
    if body.items.None? || |body.items.value| == 0 then Some(NoItems)
    else if body.total.None? || body.total.value <= 0.0 then Some(InvalidTotal)
    else None
  }

  const OrderIdPrefix: string := "order_"

  /** `generateOrderId`, with the clock and the random suffix as inputs. */
  function GenerateOrderId(timestamp: nat, randomString: string): (id: string)
    ensures IsPrefix(OrderIdPrefix, id) && IsSuffix(randomString, id)
    ensures |id| > |OrderIdPrefix| + |randomString|
  {
    var id := OrderIdPrefix + NatToString(timestamp) + "_" + randomString;
    assert id[..|OrderIdPrefix|] == OrderIdPrefix;
    assert id[|id| - |randomString|..] == randomString;
    id
  }

  predicate IsUnderscore(c: char) { c == '_' }

  /** Splits an order id back into its timestamp numeral and its random suffix. */
  function ParseOrderId(id: string): Option<(string, string)> {
    if !IsPrefix(OrderIdPrefix, id) then None
    else
      var rest := id[|OrderIdPrefix|..];
      var k := FirstIndex(rest, IsUnderscore);
      if k == -1 then None else Some((rest[..k], rest[k + 1..]))
  }

  /** An order id can be read back into the timestamp and the random suffix it
      was made of. */
  lemma OrderIdRoundTrip(timestamp: nat, randomString: string)
    ensures ParseOrderId(GenerateOrderId(timestamp, randomString))
      == Some((NatToString(timestamp), randomString))
  {
    var digits := NatToString(timestamp);
    var id := GenerateOrderId(timestamp, randomString);
    assert id[..|OrderIdPrefix|] == OrderIdPrefix;
    var rest := id[|OrderIdPrefix|..];
    assert rest == digits + "_" + randomString;
    assert rest[|digits|] == '_';
    forall k | 0 <= k < |digits| ensures !IsUnderscore(rest[k]) {
      assert rest[k] == digits[k] && IsDigit(digits[k]);
    }
    var k := FirstIndex(rest, IsUnderscore);
    assert k == |digits|;
    assert rest[..k] == digits;
    assert rest[k + 1..] == randomString;
  }

  /** `generatePaymentReference`: "REF_" and the last eight characters of the id,
      upper-cased. */
  function GeneratePaymentReference(orderId: string): (r: string)
    ensures |r| == 4 + (if |orderId| < 8 then |orderId| else 8)
    ensures IsPrefix("REF_", r)
    ensures forall k :: 4 <= k < |r| ==> !IsLowerAscii(r[k])
    ensures forall k :: 0 <= k < |r| - 4 ==> r[4 + k] == UpperChar(SliceLast(orderId, 8)[k])
  {
    var r := "REF_" + ToUpperCase(SliceLast(orderId, 8));
    assert r[..4] == "REF_";
    r
  }

  /** When the random suffix has at least eight characters, the reference is made
      of it alone: two orders whose suffixes end alike share a reference whatever
      their timestamps. */
  lemma ReferenceFromRandomSuffix(timestamp: nat, randomString: string)
    requires |randomString| >= 8
    ensures GeneratePaymentReference(GenerateOrderId(timestamp, randomString))
      == "REF_" + ToUpperCase(randomString[|randomString| - 8..])
  {
    var id := GenerateOrderId(timestamp, randomString);
    assert id[|id| - 8..] == randomString[|randomString| - 8..];
  }

  /** `customerEmail || null`: an empty address is stored as null. */
  function EmailOrNull(email: Option<string>): Option<string> {
    if email.Some? && email.value != "" then email else None
  }

  /** The row a valid request inserts. */
  function NewOrderRow(body: CreateOrderRequest, inputs: OrderInputs): DbOrder
    requires body.total.Some?
  {
    var orderId := GenerateOrderId(inputs.timestamp, inputs.randomString);
    DbOrder(orderId, inputs.itemsJson, body.total.value, EmailOrNull(body.customerEmail),
      inputs.mainAccountAddress, GeneratePaymentReference(orderId), "pending", inputs.createdAt)
  }

  /** `POST /api/orders`: the reply and the orders table afterwards. A body that
      is not JSON makes `request.json()` throw: 500. */
  function CreateOrder(orders: seq<DbOrder>, contentType: Option<string>, body: Option<CreateOrderRequest>, inputs: OrderInputs)
    : (PostReply, seq<DbOrder>)
  {
    if contentType.None? || !Contains(contentType.value, "application/json") then
      (PostError(400, JsonOnly), orders)
    else if body.None? then (PostError(500, CreateFailed), orders)
    else match ValidateOrderRequest(body.value)
      case Some(error) => (PostError(400, error), orders)
      case None =>
        var row := NewOrderRow(body.value, inputs);
        (OrderCreated(CreatedOrder(row.id, inputs.mainAccountAddress, row.paymentReference,
           body.value.total.value, "USDC", "pending")),
         orders + [row])
  }

  /** A request without a JSON content type, or one that fails validation, is
      answered 400 and inserts nothing. */
  lemma RejectedRequestInsertsNothing(orders: seq<DbOrder>, contentType: Option<string>, body: Option<CreateOrderRequest>, inputs: OrderInputs)
    requires contentType.None? || !Contains(contentType.value, "application/json")
      || (body.Some? && ValidateOrderRequest(body.value).Some?)
    ensures var (reply, orders') := CreateOrder(orders, contentType, body, inputs);
      && reply.PostError? && reply.httpStatus == 400
      && orders' == orders
  {
  }

  /** The content-type test is `includes`: a request is refused for its content
      type exactly when "application/json" occurs nowhere in the header, so a
      JSON type with parameters around it passes. */
  lemma JsonContentTypeRequired(orders: seq<DbOrder>, contentType: Option<string>, body: Option<CreateOrderRequest>, inputs: OrderInputs)
    ensures CreateOrder(orders, contentType, body, inputs).0 == PostError(400, JsonOnly)
      <==> contentType.None? || !exists i: nat :: OccursAt(contentType.value, "application/json", i)
  {
    if contentType.Some? {
      ContainsIff(contentType.value, "application/json");
    }
  }

  /** A valid request inserts exactly one order, at the end: its id is made of
      the clock and the random suffix, it holds the request's items and total,
      the email or null, the configured address, the reference derived from its
      id, `pending` and the creation time. The reply names that order and asks
      for USDC. */
  lemma AcceptedRequestInsertsPending(orders: seq<DbOrder>, contentType: Option<string>, body: Option<CreateOrderRequest>, inputs: OrderInputs)
    requires contentType.Some? && Contains(contentType.value, "application/json")
    requires body.Some? && ValidateOrderRequest(body.value).None?
    ensures var (reply, orders') := CreateOrder(orders, contentType, body, inputs);
      && |orders'| == |orders| + 1
      && orders'[..|orders|] == orders
      && var row := orders'[|orders|];
      && row.id == GenerateOrderId(inputs.timestamp, inputs.randomString)
      && row.items == inputs.itemsJson
      && row.total == body.value.total.value > 0.0
      && row.customerEmail == EmailOrNull(body.value.customerEmail)
      && row.paymentAddress == inputs.mainAccountAddress
      && row.paymentReference == GeneratePaymentReference(row.id)
      && row.status == "pending"
      && row.createdAt == inputs.createdAt
      && reply == OrderCreated(CreatedOrder(row.id, inputs.mainAccountAddress, row.paymentReference,
                                            row.total, "USDC", "pending"))
  {
    var (reply, orders') := CreateOrder(orders, contentType, body, inputs);
    assert orders'[..|orders|] == orders;
  }

  /** `formatOrderResponse`. */
  function FormatOrderResponse(o: DbOrder): (v: OrderView)
    ensures ToDbOrder(v) == o
  {
    OrderView(o.id, o.items, o.total, o.customerEmail, o.paymentAddress,
      o.paymentReference, o.status, o.createdAt)
  }

  /** The stored row an order view shows. */
  function ToDbOrder(v: OrderView): DbOrder {
    DbOrder(v.orderId, v.items, v.total, v.customerEmail, v.paymentAddress,
      v.paymentReference, v.status, v.createdAt)
  }

  /** The reshaping only renames fields: `id` becomes `orderId`, `created_at`
      becomes `createdAt`, the rest are copied, and nothing is lost either way. */
  lemma FormatOrderRoundTrip(o: DbOrder, v: OrderView)
    ensures ToDbOrder(FormatOrderResponse(o)) == o
    ensures FormatOrderResponse(ToDbOrder(v)) == v
    ensures FormatOrderResponse(o).orderId == o.id && FormatOrderResponse(o).createdAt == o.createdAt
  {
  }

  function FormatOrders(rows: seq<DbOrder>): (r: seq<OrderView>)
    ensures |r| == |rows|
    ensures forall k :: 0 <= k < |rows| ==> r[k] == FormatOrderResponse(rows[k])
  {
    seq(|rows|, k requires 0 <= k < |rows| => FormatOrderResponse(rows[k]))
  }

  /** `GET /api/orders`: one order when a non-empty `orderId` is given (404 when
      it is absent), otherwise every order, newest first. */
  function GetOrders(orders: seq<DbOrder>, orderIdParam: Option<string>): GetReply {
    if orderIdParam.Some? && orderIdParam.value != "" then
      match FindOrderById(orders, orderIdParam.value)
      case None => OrderNotFound
      case Some(o) => OneOrder(FormatOrderResponse(o))
    else OrderList(FormatOrders(OrdersNewestFirst(orders)))
  }

  /** A lookup by an id no order has is answered 404; one by an id some order
      has answers the first order with that id, every column of it. */
  lemma GetByIdFindsOrder(orders: seq<DbOrder>, id: string)
    requires id != ""
    ensures (forall k :: 0 <= k < |orders| ==> orders[k].id != id)
      ==> GetOrders(orders, Some(id)) == OrderNotFound
    ensures (exists k :: 0 <= k < |orders| && orders[k].id == id)
      ==> 0 <= OrderIndex(orders, id)
          && GetOrders(orders, Some(id)) == OneOrder(FormatOrderResponse(orders[OrderIndex(orders, id)]))
  {
  }

  /** The listing holds one view per stored order, newest first, and reading the
      views back gives the stored rows, rearranged only. */
  lemma ListingIsNewestFirst(orders: seq<DbOrder>, param: Option<string>)
    requires param.None? || param.value == ""
    ensures var r := GetOrders(orders, param);
      && r.OrderList?
      && |r.orders| == |orders|
      && (forall i, j :: 0 <= i < j < |r.orders| ==> r.orders[i].createdAt >= r.orders[j].createdAt)
      && multiset(seq(|r.orders|, k requires 0 <= k < |r.orders| => ToDbOrder(r.orders[k]))) == multiset(orders)
  {
    SortDescCorrect(orders, OrderCreatedAt);
    SortDescLength(orders, OrderCreatedAt);
    var rows := OrdersNewestFirst(orders);
    var r := GetOrders(orders, param).orders;
    forall i, j | 0 <= i < j < |r| ensures r[i].createdAt >= r[j].createdAt {
      assert OrderCreatedAt(rows[i]) >= OrderCreatedAt(rows[j]);
    }
    assert seq(|r|, k requires 0 <= k < |r| => ToDbOrder(r[k])) == rows;
  }

  // ---------------------------------------------------------------------------
  // The handlers as written: they call `DATABASE_CLIENT.execute`, which the
  // ledger module does not provide, so every ledger access throws.

  /** `POST /api/orders` as written: the checks before the insertion behave as
      intended, and the insertion itself throws into the inner catch. */
  function AsWrittenCreateOrder(orders: seq<DbOrder>, contentType: Option<string>, body: Option<CreateOrderRequest>, inputs: OrderInputs)
    : (PostReply, seq<DbOrder>)
  {
    var (reply, _) := CreateOrder(orders, contentType, body, inputs);
    if reply.OrderCreated? then (PostError(500, SaveFailed), orders) else (reply, orders)
  }

  /** As written, no order is ever saved: a request the intended handler would
      store is answered 500 "Failed to save order" and the table stays as it was. */
  lemma AsWrittenOrderNeverSaved(orders: seq<DbOrder>, contentType: Option<string>, body: Option<CreateOrderRequest>, inputs: OrderInputs)
    ensures AsWrittenCreateOrder(orders, contentType, body, inputs).1 == orders
    ensures CreateOrder(orders, contentType, body, inputs).0.OrderCreated? ==>
      && AsWrittenCreateOrder(orders, contentType, body, inputs).0 == PostError(500, SaveFailed)
      && |CreateOrder(orders, contentType, body, inputs).1| == |orders| + 1
  {
  }

  /** `GET /api/orders` as written: both the lookup and the listing throw into
      the outer catch. */
  function AsWrittenGetOrders(orders: seq<DbOrder>, orderIdParam: Option<string>): GetReply {
    GetError(500, RetrieveFailed)
  }

  /** As written, even a stored order cannot be read back. */
  lemma AsWrittenStoredOrderUnreadable(orders: seq<DbOrder>, k: nat)
    requires k < |orders| && orders[k].id != ""
    ensures AsWrittenGetOrders(orders, Some(orders[k].id)) == GetError(500, RetrieveFailed)
    ensures GetOrders(orders, Some(orders[k].id)).OneOrder?
  {
    GetByIdFindsOrder(orders, orders[k].id);
  }

  // ---------------------------------------------------------------------------

  /** `POST /api/orders` against the ledger. */
  method Post(db: Db, contentType: Option<string>, body: Option<CreateOrderRequest>, inputs: OrderInputs)
    returns (reply: PostReply)
    modifies db
    ensures (reply, db.orders) == CreateOrder(old(db.orders), contentType, body, inputs)
    ensures db.payouts == old(db.payouts)
  {
    if contentType.None? || !Contains(contentType.value, "application/json") {
      return PostError(400, JsonOnly);
    }
    if body.None? {
      return PostError(500, CreateFailed);
    }
    var requestBody := body.value;
    var validationError := ValidateOrderRequest(requestBody);
    if validationError.Some? {
      return PostError(400, validationError.value);
    }
    var orderId := GenerateOrderId(inputs.timestamp, inputs.randomString);
    var paymentReference := GeneratePaymentReference(orderId);
    var _ := db.Run(InsertOrder(DbOrder(orderId, inputs.itemsJson, requestBody.total.value,
      EmailOrNull(requestBody.customerEmail), inputs.mainAccountAddress, paymentReference,
      "pending", inputs.createdAt)));
    reply := OrderCreated(CreatedOrder(orderId, inputs.mainAccountAddress, paymentReference,
      requestBody.total.value, "USDC", "pending"));
  }

  /** `GET /api/orders` against the ledger. */
  method Get(db: Db, orderIdParam: Option<string>) returns (reply: GetReply)
    ensures reply == GetOrders(db.orders, orderIdParam)
  {
    if orderIdParam.Some? && orderIdParam.value != "" {
      var databaseOrder := db.Get(OrderById(orderIdParam.value));
      if databaseOrder.None? {
        return OrderNotFound;
      }
      return OneOrder(FormatOrderResponse(databaseOrder.value));
    }
    var rows := db.All(OrdersByCreatedDesc);
    reply := OrderList(FormatOrders(rows.orders));
  }
}
