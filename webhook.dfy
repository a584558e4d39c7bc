/** The Mural webhook endpoint of app/api/webhooks/mural/route.ts: it dispatches a
    delivery on its payload type, reconciles an `account_credited` event with a
    pending order and drives the payout, and copies payout status changes into the
    ledger. Signature checking is disabled in the source and is not modelled. */
module MuralWebhook {
  import opened Wrappers
  import opened Seqs
  import opened Ledger
  import opened Payouts

  /** `tokenAmount` of a credit. */
  datatype CreditedAmount = CreditedAmount(
    blockchain: string, tokenAmount: real, tokenSymbol: string, tokenContractAddress: string)

  /** `statusChangeDetails`: the `type` of the previous and of the current status. */
  datatype StatusChange = StatusChange(previousStatus: string, currentStatus: string)

  /** A payload `type` tag the handler has no case for. */
  type UnknownKind = k: string
    | k != "account_credited" && k != "payout_request_status_changed" && k != "payout_status_changed"
    witness ""

  /** The payload union; `UnknownPayload` stands for any other `type` tag. */
  datatype Payload =
    | AccountCredited(
        accountId: string, organizationId: string, transactionId: string,
        accountWalletAddress: string, credit: CreditedAmount)
    | PayoutRequestStatusChanged(
        organizationId: string, payoutRequestId: string, details: StatusChange)
    | PayoutStatusChanged(
        organizationId: string, payoutRequestId: string, payoutId: string,
        rail: string, details: StatusChange)
    | UnknownPayload(kind: UnknownKind)

  /** A delivery: the parsed envelope, or a body that `JSON.parse` rejects. */
  datatype Delivery =
    | Envelope(
        eventId: string, deliveryId: string, attemptNumber: int,
        eventCategory: string, occurredAt: int, payload: Payload)
    | Unparseable

  /** The JSON reply: `{success, message, orderId?}` or `{error}`, with its HTTP status. */
  datatype ReplyBody =
    | Ack(success: bool, message: string, orderId: Option<string>)
    | Failure(error: string)

  datatype Reply = Reply(httpStatus: int, body: ReplyBody)

  /** The environment: `MURAL_SOURCE_ACCOUNT_ID`, absent when unset. */
  datatype Env = Env(sourceAccountId: Option<string>)

  /** The payout rail, as the answers it gives. */
  datatype Rail = Rail(
    create: MuralPayoutRequest -> CreateReply,
    execute: string -> ExecuteReply)

  /** The clock readings one delivery may take: two `Date.now()` calls for a
      failed payout (stored id, returned id), the ISO time of the stored payout row,
      and the ISO time of the status update. */
  datatype Clock = Clock(storeMillis: nat, returnMillis: nat, storedAt: int, updatedAt: int)

  /** Both tables, as values. */
  datatype Tables = Tables(orders: seq<DbOrder>, payouts: seq<DbPayout>)

  const ReceivableToken: string := "USDC"

  const IncorrectAccount: Reply := Reply(200, Ack(false, "Payment to incorrect account", None))
  const NoMatchingOrder: Reply := Reply(200, Ack(true, "Payment received but no matching order found", None))
  const UnknownType: Reply := Reply(400, Failure("Unknown webhook type"))
  const ProcessingFailed: Reply := Reply(500, Failure("Webhook processing failed"))
  const PayoutRequestUpdated: Reply := Reply(200, Ack(true, "Payout request status updated", None))
  const PayoutUpdated: Reply := Reply(200, Ack(true, "Payout status updated", None))

  function PaymentConfirmed(orderId: string): Reply {
    Reply(200, Ack(true, "Payment confirmed and payout initiated", Some(orderId)))
  }

  // ---------------------------------------------------------------------------
  // The specification: what one delivery does to the tables and what it answers.

  /** `findMatchingOrder`: nothing for a token other than USDC, otherwise the first
      pending order whose total is within 0.01 of the amount. */
  function MatchOrder(orders: seq<DbOrder>, amount: real, tokenSymbol: string): Option<DbOrder> {
    if tokenSymbol != ReceivableToken then None
    else FindByAmountAndStatus(orders, amount, "pending")
  }

  /** `payoutResult?.id && payoutResult.status !== 'failed'` (an empty id is falsy). */
  predicate ShouldExecute(r: Option<PayoutResult>) {
    r.Some? && r.value.id != "" && r.value.status != "failed"
  }

  /** `executeResult.status || 'pending'`. */
  function StatusOrPending(status: Option<string>): string {
    if status.Some? && status.value != "" then status.value else "pending"
  }

  /** What `initiatePayoutToCOP` is asked for when an order is matched: the
      credited amount and token, not the order's total. */
  function PayoutDataFor(orderId: string, p: Payload): PayoutRequestData
    requires p.AccountCredited?
  {
    PayoutRequestData(p.credit.tokenAmount, p.credit.tokenSymbol, orderId, p.transactionId)
  }

  /** The payouts table after `processMatchedOrder` initiated, and maybe executed,
      the payout for `orderId`. */
  function PayoutsAfterProcessing(
    payouts: seq<DbPayout>, orderId: string, p: Payload, env: Env, rail: Rail, clock: Clock): seq<DbPayout>
    requires p.AccountCredited?
  {
    var data := PayoutDataFor(orderId, p);
    var reply := rail.create(CreatePayoutRequest(data, env.sourceAccountId));
    var rows := payouts + InitiatedRows(data, reply, clock.storeMillis, clock.storedAt);
    var result := InitiateOutcome(data, reply, clock.returnMillis);
    if ShouldExecute(result) then
      match ExecutePayoutRequest(result.value.id, rail.execute)
      case Some(executed) => WithPayoutStatus(rows, result.value.id, StatusOrPending(executed.status), clock.updatedAt)
      case None => rows
    else rows
  }

  /** `handleAccountCreditedEvent`. */
  function AccountCreditedEffect(t: Tables, p: Payload, env: Env, rail: Rail, clock: Clock): (Reply, Tables)
    requires p.AccountCredited?
  {
    if env.sourceAccountId != Some(p.accountId) then (IncorrectAccount, t)
    else match MatchOrder(t.orders, p.credit.tokenAmount, p.credit.tokenSymbol)
      case None => (NoMatchingOrder, t)
      case Some(order) =>
        (PaymentConfirmed(order.id),
         Tables(WithOrderStatus(t.orders, order.id, "paid"),
                PayoutsAfterProcessing(t.payouts, order.id, p, env, rail, clock)))
  }

  /** `POST`: what one delivery answers and leaves in the tables. */
  function Deliver(t: Tables, d: Delivery, env: Env, rail: Rail, clock: Clock): (Reply, Tables) {
    match d
    case Unparseable => (ProcessingFailed, t)
    case Envelope(_, _, _, _, _, payload) =>
      match payload
      case AccountCredited(_, _, _, _, _) => AccountCreditedEffect(t, payload, env, rail, clock)
      case PayoutRequestStatusChanged(_, id, details) =>
        (PayoutRequestUpdated, t.(payouts := WithPayoutStatus(t.payouts, id, details.currentStatus, clock.updatedAt)))
      case PayoutStatusChanged(_, id, _, _, details) =>
        (PayoutUpdated, t.(payouts := WithPayoutStatus(t.payouts, id, details.currentStatus, clock.updatedAt)))
      case UnknownPayload(_) => (UnknownType, t)
  }

  // ---------------------------------------------------------------------------
  // Properties of the specification.

  /** A payload of an unknown type is answered 400 and changes nothing; so is an
      unreadable body answered 500. */
  lemma UnknownTypeRejected(t: Tables, d: Delivery, env: Env, rail: Rail, clock: Clock)
    requires d.Envelope? && d.payload.UnknownPayload?
    ensures Deliver(t, d, env, rail, clock) == (UnknownType, t)
    ensures Deliver(t, Unparseable, env, rail, clock) == (ProcessingFailed, t)
  {
  }

  /** A credit to any account but the configured one is refused and changes nothing. */
  lemma WrongAccountChangesNothing(t: Tables, d: Delivery, env: Env, rail: Rail, clock: Clock)
    requires d.Envelope? && d.payload.AccountCredited?
    requires env.sourceAccountId != Some(d.payload.accountId)
    ensures Deliver(t, d, env, rail, clock) == (IncorrectAccount, t)
  {
  }

  /** A token other than USDC never matches an order: the credit is acknowledged
      with "no matching order found" and nothing changes. */
  lemma OtherTokenNeverMatches(t: Tables, d: Delivery, env: Env, rail: Rail, clock: Clock)
    requires d.Envelope? && d.payload.AccountCredited?
    requires env.sourceAccountId == Some(d.payload.accountId)
    requires d.payload.credit.tokenSymbol != ReceivableToken
    ensures Deliver(t, d, env, rail, clock) == (NoMatchingOrder, t)
  {
  }

  /** A USDC credit whose amount is at least 0.01 away from every pending total
      matches nothing and changes nothing. */
  lemma NoPendingOrderWithinTolerance(t: Tables, d: Delivery, env: Env, rail: Rail, clock: Clock)
    requires d.Envelope? && d.payload.AccountCredited?
    requires env.sourceAccountId == Some(d.payload.accountId)
    requires forall k :: 0 <= k < |t.orders| && t.orders[k].status == "pending" ==>
      Abs(t.orders[k].total - d.payload.credit.tokenAmount) >= Tolerance
    ensures Deliver(t, d, env, rail, clock) == (NoMatchingOrder, t)
  {
  }

  /** When a USDC credit matches, the reply names the first pending order within
      tolerance, that order (ids being unique) is now `paid`, no other order
      changes, and the payout rows written carry the credited amount and token,
      not the order's total. */
  lemma MatchedOrderMarkedPaid(t: Tables, d: Delivery, env: Env, rail: Rail, clock: Clock)
    requires d.Envelope? && d.payload.AccountCredited?
    requires env.sourceAccountId == Some(d.payload.accountId)
    requires UniqueOrderIds(t.orders)
    requires MatchOrder(t.orders, d.payload.credit.tokenAmount, d.payload.credit.tokenSymbol).Some?
    ensures var order := MatchOrder(t.orders, d.payload.credit.tokenAmount, d.payload.credit.tokenSymbol).value;
      var (reply, t') := Deliver(t, d, env, rail, clock);
      && reply == PaymentConfirmed(order.id)
      && order.status == "pending"
      && |t'.orders| == |t.orders|
      && forall k :: 0 <= k < |t.orders| ==>
           t'.orders[k] == if t.orders[k] == order then order.(status := "paid") else t.orders[k]
    ensures var order := MatchOrder(t.orders, d.payload.credit.tokenAmount, d.payload.credit.tokenSymbol).value;
      var t' := Deliver(t, d, env, rail, clock).1;
      && |t.payouts| <= |t'.payouts| <= |t.payouts| + 1
      && forall k :: |t.payouts| <= k < |t'.payouts| ==>
           && t'.payouts[k].orderId == order.id
           && t'.payouts[k].amount == d.payload.credit.tokenAmount
           && t'.payouts[k].currency == d.payload.credit.tokenSymbol
  {
    var p := d.payload;
    ProcessingPaysCredit(t.payouts, MatchOrder(t.orders, p.credit.tokenAmount, p.credit.tokenSymbol).value.id,
      p, env, rail, clock);
    var order := MatchOrder(t.orders, p.credit.tokenAmount, p.credit.tokenSymbol).value;
    var m := FirstIndex(t.orders, (o: DbOrder) => MatchesAmount(o, p.credit.tokenAmount, "pending"));
    assert t.orders[m] == order;
    var i := OrderIndex(t.orders, order.id);
    assert 0 <= i <= m;
    assert i == m;
    forall k | 0 <= k < |t.orders|
      ensures (t.orders[k] == order) <==> k == m
    {
      if k != m {
        assert t.orders[k].id != t.orders[m].id;
      }
    }
  }

  /** Processing a matched order appends at most one payout row, for that order
      and for the credited amount and token; a later status write changes only
      the status and update time of a row. */
  lemma ProcessingPaysCredit(payouts: seq<DbPayout>, orderId: string, p: Payload, env: Env, rail: Rail, clock: Clock)
    requires p.AccountCredited?
    ensures var r := PayoutsAfterProcessing(payouts, orderId, p, env, rail, clock);
      && |payouts| <= |r| <= |payouts| + 1
      && forall k :: |payouts| <= k < |r| ==>
           r[k].orderId == orderId && r[k].amount == p.credit.tokenAmount && r[k].currency == p.credit.tokenSymbol
  {
    var data := PayoutDataFor(orderId, p);
    var reply := rail.create(CreatePayoutRequest(data, env.sourceAccountId));
    var rows := payouts + InitiatedRows(data, reply, clock.storeMillis, clock.storedAt);
    var result := InitiateOutcome(data, reply, clock.returnMillis);
    if ShouldExecute(result) {
      match ExecutePayoutRequest(result.value.id, rail.execute)
      case Some(executed) =>
        UpdatePayoutEffect(rows, result.value.id, StatusOrPending(executed.status), clock.updatedAt);
      case None =>
    }
  }

  /** After a credit claims an order, the same credit delivered again cannot claim
      it a second time: the order is no longer `pending`. (Nothing stops it from
      claiming another pending order of the same total: deliveries are not
      deduplicated by `eventId`.) */
  lemma ClaimedOrderNotClaimedAgain(t: Tables, d: Delivery, env: Env, rail: Rail, clock: Clock)
    requires d.Envelope? && d.payload.AccountCredited?
    requires env.sourceAccountId == Some(d.payload.accountId)
    requires UniqueOrderIds(t.orders)
    requires MatchOrder(t.orders, d.payload.credit.tokenAmount, d.payload.credit.tokenSymbol).Some?
    ensures var order := MatchOrder(t.orders, d.payload.credit.tokenAmount, d.payload.credit.tokenSymbol).value;
      var t' := Deliver(t, d, env, rail, clock).1;
      var again := MatchOrder(t'.orders, d.payload.credit.tokenAmount, d.payload.credit.tokenSymbol);
      again.Some? ==> again.value.id != order.id
  {
    var p := d.payload;
    var order := MatchOrder(t.orders, p.credit.tokenAmount, p.credit.tokenSymbol).value;
    MatchedOrderMarkedPaid(t, d, env, rail, clock);
    var t' := Deliver(t, d, env, rail, clock).1;
    var again := MatchOrder(t'.orders, p.credit.tokenAmount, p.credit.tokenSymbol);
    if again.Some? {
      var j := FirstIndex(t'.orders, (o: DbOrder) => MatchesAmount(o, p.credit.tokenAmount, "pending"));
      assert t'.orders[j] == again.value && again.value.status == "pending";
      assert t'.orders[j] == t.orders[j];
      assert t.orders[j] != order;
      var m := FirstIndex(t.orders, (o: DbOrder) => MatchesAmount(o, p.credit.tokenAmount, "pending"));
      assert t.orders[m] == order;
      assert j != m;
    }
  }

  /** A rejected payout creation stores one `failed` row and skips execution; the
      order stays `paid` all the same. */
  lemma RejectedPayoutNotExecuted(payouts: seq<DbPayout>, orderId: string, p: Payload, env: Env, rail: Rail, clock: Clock)
    requires p.AccountCredited?
    requires rail.create(CreatePayoutRequest(PayoutDataFor(orderId, p), env.sourceAccountId)).Rejected?
    ensures PayoutsAfterProcessing(payouts, orderId, p, env, rail, clock)
      == payouts + [FailedPayoutRow(PayoutDataFor(orderId, p), clock.storeMillis, clock.storedAt)]
  {
  }

  /** A creation that could not reach the rail stores nothing and skips execution. */
  lemma UnreachableRailStoresNothing(payouts: seq<DbPayout>, orderId: string, p: Payload, env: Env, rail: Rail, clock: Clock)
    requires p.AccountCredited?
    requires rail.create(CreatePayoutRequest(PayoutDataFor(orderId, p), env.sourceAccountId)).Unreachable?
    ensures PayoutsAfterProcessing(payouts, orderId, p, env, rail, clock) == payouts
  {
  }

  /** An accepted creation under a fresh id, followed by a successful execution,
      leaves exactly one new row: the created payout, carrying the executed status
      (or `pending` when the rail gave none) and the update time. */
  lemma ExecutedStatusWrittenBack(payouts: seq<DbPayout>, orderId: string, p: Payload, env: Env, rail: Rail, clock: Clock)
    requires p.AccountCredited?
    requires var reply := rail.create(CreatePayoutRequest(PayoutDataFor(orderId, p), env.sourceAccountId));
      && reply.Accepted? && reply.body.id != "" && reply.body.status != "failed"
      && rail.execute(reply.body.id).Executed?
      && forall k :: 0 <= k < |payouts| ==> payouts[k].id != reply.body.id
    ensures var reply := rail.create(CreatePayoutRequest(PayoutDataFor(orderId, p), env.sourceAccountId));
      var s := rail.execute(reply.body.id).result.status;
      var status := if s.Some? && s.value != "" then s.value else "pending";
      PayoutsAfterProcessing(payouts, orderId, p, env, rail, clock)
        == payouts + [CreatedPayoutRow(PayoutDataFor(orderId, p), reply.body.id, clock.storedAt)
                        .(status := status, updatedAt := clock.updatedAt)]
  {
    var data := PayoutDataFor(orderId, p);
    var reply := rail.create(CreatePayoutRequest(data, env.sourceAccountId));
    var rows := payouts + [CreatedPayoutRow(data, reply.body.id, clock.storedAt)];
    var i := PayoutIndex(rows, reply.body.id);
    assert rows[|payouts|].id == reply.body.id;
    assert i == |payouts|;
  }

  /** When execution is attempted but the rail refuses it or cannot be reached,
      nothing is written back: the freshly created payout keeps its `created`
      status and creation time. */
  lemma FailedExecutionKeepsCreated(payouts: seq<DbPayout>, orderId: string, p: Payload, env: Env, rail: Rail, clock: Clock)
    requires p.AccountCredited?
    requires var reply := rail.create(CreatePayoutRequest(PayoutDataFor(orderId, p), env.sourceAccountId));
      && reply.Accepted? && reply.body.id != "" && reply.body.status != "failed"
      && !rail.execute(reply.body.id).Executed?
    ensures var reply := rail.create(CreatePayoutRequest(PayoutDataFor(orderId, p), env.sourceAccountId));
      PayoutsAfterProcessing(payouts, orderId, p, env, rail, clock)
        == payouts + [CreatedPayoutRow(PayoutDataFor(orderId, p), reply.body.id, clock.storedAt)]
  {
  }

  /** Execution is attempted only for an initiation that returned a non-empty id
      and a status other than `failed`: when the rail was unreachable, refused the
      payout, or accepted it with an empty id or a `failed` status, nothing beyond
      the initiation's own rows is written. */
  lemma NoExecutionWithoutInitiation(payouts: seq<DbPayout>, orderId: string, p: Payload, env: Env, rail: Rail, clock: Clock)
    requires p.AccountCredited?
    requires var reply := rail.create(CreatePayoutRequest(PayoutDataFor(orderId, p), env.sourceAccountId));
      || reply.Unreachable?
      || reply.Rejected?
      || (reply.Accepted? && (reply.body.id == "" || reply.body.status == "failed"))
    ensures var reply := rail.create(CreatePayoutRequest(PayoutDataFor(orderId, p), env.sourceAccountId));
      PayoutsAfterProcessing(payouts, orderId, p, env, rail, clock)
        == payouts + InitiatedRows(PayoutDataFor(orderId, p), reply, clock.storeMillis, clock.storedAt)
  {
  }

  /** Either status-changed event writes its current status into the payout keyed
      by the payout-request id, whatever that payout's status was: a terminal
      `executed` or `canceled` can be overwritten by an earlier stage. */
  lemma StatusEventOverwrites(t: Tables, d: Delivery, env: Env, rail: Rail, clock: Clock, k: nat)
    requires d.Envelope? && (d.payload.PayoutRequestStatusChanged? || d.payload.PayoutStatusChanged?)
    requires UniquePayoutIds(t.payouts)
    requires k < |t.payouts| && t.payouts[k].id == d.payload.payoutRequestId
    ensures var t' := Deliver(t, d, env, rail, clock).1;
      && t'.orders == t.orders
      && |t'.payouts| == |t.payouts|
      && t'.payouts[k] == t.payouts[k].(status := d.payload.details.currentStatus, updatedAt := clock.updatedAt)
      && forall j :: 0 <= j < |t.payouts| && j != k ==> t'.payouts[j] == t.payouts[j]
  {
    PayoutStatusOverwrites(t.payouts, k, d.payload.details.currentStatus, clock.updatedAt);
    var i := PayoutIndex(t.payouts, d.payload.payoutRequestId);
    assert 0 <= i <= k;
    assert i == k;
  }

  /** A status event for an id the ledger does not hold is still acknowledged as
      success and changes nothing. */
  lemma StatusEventForUnknownPayout(t: Tables, d: Delivery, env: Env, rail: Rail, clock: Clock)
    requires d.Envelope? && (d.payload.PayoutRequestStatusChanged? || d.payload.PayoutStatusChanged?)
    requires forall k :: 0 <= k < |t.payouts| ==> t.payouts[k].id != d.payload.payoutRequestId
    ensures var (reply, t') := Deliver(t, d, env, rail, clock);
      reply.httpStatus == 200 && reply.body.success && t' == t
  {
  }

  // ---------------------------------------------------------------------------
  // The endpoint as written reaches the ledger through `DATABASE_CLIENT.execute`,
  // but the ledger module it imports offers only `prepare(sql).run/get/all`, so
  // every such call throws a TypeError that the handler's `catch` turns into a 500.
  // `Deliver` above models the evidently intended ledger semantics instead.

  /** `POST` as written: each path that reaches `execute` fails before touching a table. */
  function AsWrittenDeliver(t: Tables, d: Delivery, env: Env): (Reply, Tables) {
    match d
    case Unparseable => (ProcessingFailed, t)
    case Envelope(_, _, _, _, _, payload) =>
      match payload
      case AccountCredited(accountId, _, _, _, credit) =>
        if env.sourceAccountId != Some(accountId) then (IncorrectAccount, t)
        else if credit.tokenSymbol != ReceivableToken then (NoMatchingOrder, t)
        else (Reply(500, Failure("Processing failed")), t)
      case PayoutRequestStatusChanged(_, _, _) =>
        (Reply(500, Failure("Failed to update payout request status")), t)
      case PayoutStatusChanged(_, _, _, _, _) =>
        (Reply(500, Failure("Failed to update payout status")), t)
      case UnknownPayload(_) => (UnknownType, t)
  }

  /** As written, a USDC credit to the right account for which a pending order
      matches is answered 500 and no order is ever marked paid, where the intended
      ledger confirms the payment. */
  lemma AsWrittenNeverReconciles(t: Tables, d: Delivery, env: Env, rail: Rail, clock: Clock)
    requires d.Envelope? && d.payload.AccountCredited?
    requires env.sourceAccountId == Some(d.payload.accountId)
    requires MatchOrder(t.orders, d.payload.credit.tokenAmount, d.payload.credit.tokenSymbol).Some?
    ensures AsWrittenDeliver(t, d, env) == (Reply(500, Failure("Processing failed")), t)
    ensures Deliver(t, d, env, rail, clock).0
      == PaymentConfirmed(MatchOrder(t.orders, d.payload.credit.tokenAmount, d.payload.credit.tokenSymbol).value.id)
  {
  }

  /** A concrete case: one pending order of 25.00 and a 25.00 USDC credit. */
  lemma AsWrittenScenario(rail: Rail, clock: Clock)
    ensures var order := DbOrder("order_1_abcdefghi", "[]", 25.0, None, "addr", "REF_BCDEFGHI", "pending", 0);
      var d := Envelope("e", "d", 1, "MURAL_ACCOUNT_BALANCE_ACTIVITY", 0,
        AccountCredited("acct", "org", "tx", "wallet", CreditedAmount("POLYGON", 25.0, "USDC", "0x")));
      var t := Tables([order], []);
      && AsWrittenDeliver(t, d, Env(Some("acct"))).0.httpStatus == 500
      && Deliver(t, d, Env(Some("acct")), rail, clock).0 == PaymentConfirmed(order.id)
      && Deliver(t, d, Env(Some("acct")), rail, clock).1.orders == [order.(status := "paid")]
  {
    var order := DbOrder("order_1_abcdefghi", "[]", 25.0, None, "addr", "REF_BCDEFGHI", "pending", 0);
    assert MatchesAmount(order, 25.0, "pending");
    assert OrderIndex([order], order.id) == 0;
  }

  /** As written, every status-changed event is answered 500 and changes nothing. */
  lemma AsWrittenStatusEventsFail(t: Tables, d: Delivery, env: Env)
    requires d.Envelope? && (d.payload.PayoutRequestStatusChanged? || d.payload.PayoutStatusChanged?)
    ensures AsWrittenDeliver(t, d, env).0.httpStatus == 500
    ensures AsWrittenDeliver(t, d, env).1 == t
  {
  }

  // ---------------------------------------------------------------------------
  // The handlers, step by step against the ledger.

  /** `findMatchingOrder`. */
  method FindMatchingOrder(db: Db, amount: real, tokenSymbol: string) returns (r: Option<DbOrder>)
    ensures r == MatchOrder(db.orders, amount, tokenSymbol)
  {
    if tokenSymbol != ReceivableToken {
      return None;
    }
    r := db.Get(OrderByAmountAndStatus(amount, "pending"));
  }

  /** `updatePayoutStatus`. */
  method UpdatePayoutStatus(db: Db, payoutId: string, status: string, updatedAt: int)
    modifies db
    ensures db.payouts == WithPayoutStatus(old(db.payouts), payoutId, status, updatedAt)
    ensures db.orders == old(db.orders)
  {
    var _ := db.Run(UpdatePayout(status, updatedAt, payoutId));
  }

  /** `processMatchedOrder`: mark the order paid, initiate the payout, execute it
      when initiation went through, and record the execution status. */
  method ProcessMatchedOrder(db: Db, order: DbOrder, p: Payload, env: Env, rail: Rail, clock: Clock)
    requires p.AccountCredited?
    modifies db
    ensures db.orders == WithOrderStatus(old(db.orders), order.id, "paid")
    ensures db.payouts == PayoutsAfterProcessing(old(db.payouts), order.id, p, env, rail, clock)
  {
    var _ := db.Run(UpdateOrder("paid", order.id));
    var payoutResult := InitiatePayoutToCop(db, PayoutDataFor(order.id, p), env.sourceAccountId,
      rail.create, clock.storeMillis, clock.returnMillis, clock.storedAt);
    if ShouldExecute(payoutResult) {
      var executeResult := ExecutePayoutRequest(payoutResult.value.id, rail.execute);
      if executeResult.Some? {
        UpdatePayoutStatus(db, payoutResult.value.id, StatusOrPending(executeResult.value.status), clock.updatedAt);
      }
    }
  }

  /** `handleAccountCreditedEvent`. */
  method HandleAccountCredited(db: Db, p: Payload, env: Env, rail: Rail, clock: Clock) returns (reply: Reply)
    requires p.AccountCredited?
    modifies db
    ensures (reply, Tables(db.orders, db.payouts))
      == AccountCreditedEffect(old(Tables(db.orders, db.payouts)), p, env, rail, clock)
  {
    if env.sourceAccountId != Some(p.accountId) {
      return IncorrectAccount;
    }
    var matchedOrder := FindMatchingOrder(db, p.credit.tokenAmount, p.credit.tokenSymbol);
    if matchedOrder.None? {
      return NoMatchingOrder;
    }
    ProcessMatchedOrder(db, matchedOrder.value, p, env, rail, clock);
    reply := PaymentConfirmed(matchedOrder.value.id);
  }

  /** `POST /api/webhooks/mural`. */
  method Post(db: Db, d: Delivery, env: Env, rail: Rail, clock: Clock) returns (reply: Reply)
    modifies db
    ensures (reply, Tables(db.orders, db.payouts))
      == Deliver(old(Tables(db.orders, db.payouts)), d, env, rail, clock)
  {
    if d.Unparseable? {
      return ProcessingFailed;
    }
    var payload := d.payload;
    match payload
    case AccountCredited(_, _, _, _, _) =>
      reply := HandleAccountCredited(db, payload, env, rail, clock);
    case PayoutRequestStatusChanged(_, id, details) =>
      UpdatePayoutStatus(db, id, details.currentStatus, clock.updatedAt);
      reply := PayoutRequestUpdated;
    case PayoutStatusChanged(_, id, _, _, details) =>
      UpdatePayoutStatus(db, id, details.currentStatus, clock.updatedAt);
      reply := PayoutUpdated;
    case UnknownPayload(_) =>
      reply := UnknownType;
  }
}
