/** The payout orchestration of app/api/payouts/service.ts: building the payout
    request for the rail, recording the rail's answer to it in the payouts table,
    and reading the answer to an execute call. The rail itself is a pair of
    functions passed in (its HTTP calls are not modelled). */
module Payouts {
  import opened Wrappers
  import opened Text
  import opened Ledger

  /** What the webhook hands to `initiatePayoutToCOP`. */
  datatype PayoutRequestData = PayoutRequestData(
    amount: real,
    currency: string,
    orderId: string,
    transactionId: string)

  datatype TokenAmount = TokenAmount(tokenAmount: real, tokenSymbol: string)

  /** The Colombian bank rail details; the tags `type: 'cop'`, `symbol: 'COP'`,
      `accountType: 'CHECKING'` and `documentType: 'NATIONAL_ID'` are fixed by the
      request type and are not repeated as fields. */
  datatype CopRailDetails = CopRailDetails(
    phoneNumber: string,
    bankAccountNumber: string,
    documentNumber: string)

  /** `payoutDetails` of type `'fiat'`. */
  datatype FiatPayoutDetails = FiatPayoutDetails(
    bankName: string,
    bankAccountOwner: string,
    fiatAndRailDetails: CopRailDetails)

  datatype PhysicalAddress = PhysicalAddress(
    address1: string, country: string, state: string, city: string, zip: string)

  /** `recipientInfo` of type `'individual'`. */
  datatype RecipientInfo = RecipientInfo(
    firstName: string, lastName: string, email: string, physicalAddress: PhysicalAddress)

  datatype PayoutEntry = PayoutEntry(
    amount: TokenAmount,
    payoutDetails: FiatPayoutDetails,
    recipientInfo: RecipientInfo)

  /** The body of `POST /api/payouts/payout`. `sourceAccountId` is the configured
      source account, absent when the environment does not set it. */
  datatype MuralPayoutRequest = MuralPayoutRequest(
    sourceAccountId: Option<string>,
    memo: string,
    payouts: seq<PayoutEntry>)

  /** The JSON the rail answers a successful creation or execution with, as far
      as the code reads it. */
  datatype PayoutResult = PayoutResult(id: string, status: string, error: Option<string>)

  /** The rail's answer to the creation request: an ok response with its parsed
      body, a non-ok response with its body text, or a thrown error (network
      failure, unreadable body). */
  datatype CreateReply =
    | Accepted(body: PayoutResult)
    | Rejected(errorText: string)
    | Unreachable

  /** The parsed body of a successful execute call; `status` may be missing. */
  datatype ExecuteResult = ExecuteResult(status: Option<string>)

  /** The rail's answer to `POST /api/payouts/payout/{id}/execute`. */
  datatype ExecuteReply =
    | Executed(result: ExecuteResult)
    | ExecutionRejected(errorText: string)
    | ExecutionUnreachable

  /** The fixed merchant bank profile every payout goes to. */
  const MerchantPayoutDetails: FiatPayoutDetails :=
    FiatPayoutDetails("Bancamia S.A.", "Mock Name",
      CopRailDetails("+57 601 555 5555", "1234567890", "1234567890"))

  const MerchantRecipient: RecipientInfo :=
    RecipientInfo("Javier", "Gomez", "merchant@example.com",
      PhysicalAddress("123 Main St", "CO", "DC", "Bogotá", "110111"))

  const MemoPrefix: string := "Payout for order "

  /** `createPayoutRequest`: one payout of the given amount and token to the
      merchant profile, with a memo naming the order. */
  function CreatePayoutRequest(data: PayoutRequestData, sourceAccountId: Option<string>): (r: MuralPayoutRequest)
    ensures r.sourceAccountId == sourceAccountId
    ensures IsPrefix(MemoPrefix, r.memo)
    ensures |r.payouts| == 1
    ensures r.payouts[0].amount.tokenAmount == data.amount
    ensures r.payouts[0].amount.tokenSymbol == data.currency
    ensures r.payouts[0].payoutDetails == MerchantPayoutDetails
    ensures r.payouts[0].recipientInfo == MerchantRecipient
  {
    MuralPayoutRequest(
      sourceAccountId,
      MemoPrefix + data.orderId,
      [PayoutEntry(TokenAmount(data.amount, data.currency), MerchantPayoutDetails, MerchantRecipient)])
  }

  /** Reads the order id back out of a payout memo. */
  function MemoOrderId(memo: string): Option<string> {
    if IsPrefix(MemoPrefix, memo) then Some(memo[|MemoPrefix|..]) else None
  }

  /** The memo names the order the payout is for: it can be read back exactly. */
  lemma MemoNamesOrder(data: PayoutRequestData, sourceAccountId: Option<string>)
    ensures MemoOrderId(CreatePayoutRequest(data, sourceAccountId).memo) == Some(data.orderId)
  {
    var memo := CreatePayoutRequest(data, sourceAccountId).memo;
    assert memo[|MemoPrefix|..] == data.orderId;
  }

  /** `failed_${Date.now()}_${orderId}`. */
  function FailedPayoutId(millis: nat, orderId: string): (id: string)
    ensures IsPrefix("failed_", id) && IsSuffix(orderId, id)
  {
    var id := "failed_" + NatToString(millis) + "_" + orderId;
    assert id[..7] == "failed_";
    assert id[|id| - |orderId|..] == orderId;
    id
  }

  /** The row `storeFailedPayout` inserts. */
  function FailedPayoutRow(data: PayoutRequestData, millis: nat, timestamp: int): DbPayout {
    DbPayout(FailedPayoutId(millis, data.orderId), data.orderId, data.amount, data.currency,
      "failed", timestamp, timestamp)
  }

  /** The row `storeSuccessfulPayout` inserts. */
  function CreatedPayoutRow(data: PayoutRequestData, payoutId: string, timestamp: int): DbPayout {
    DbPayout(payoutId, data.orderId, data.amount, data.currency, "created", timestamp, timestamp)
  }

  /** The rows an initiation appends, given the rail's answer; `storeMillis` and
      `timestamp` are the clock readings taken while storing. */
  function InitiatedRows(data: PayoutRequestData, reply: CreateReply, storeMillis: nat, timestamp: int): seq<DbPayout> {
    match reply
    case Accepted(body) => [CreatedPayoutRow(data, body.id, timestamp)]
    case Rejected(errorText) => [FailedPayoutRow(data, storeMillis, timestamp)]
    case Unreachable => []
  }

  /** What `initiatePayoutToCOP` returns, given the rail's answer; `returnMillis`
      is the separate clock reading taken for the returned failed id. */
  function InitiateOutcome(data: PayoutRequestData, reply: CreateReply, returnMillis: nat): Option<PayoutResult> {
    match reply
    case Accepted(body) => Some(body)
    case Rejected(errorText) =>
      Some(PayoutResult(FailedPayoutId(returnMillis, data.orderId), "failed", Some(errorText)))
    case Unreachable => None
  }

  /** An accepted creation stores one `created` row under the rail's id, for the
      order, amount and currency asked for, with equal creation and update times,
      and hands the rail's body back. */
  lemma AcceptedStoresCreated(data: PayoutRequestData, reply: CreateReply, storeMillis: nat, returnMillis: nat, timestamp: int)
    requires reply.Accepted?
    ensures var rows := InitiatedRows(data, reply, storeMillis, timestamp);
      && |rows| == 1
      && rows[0].id == reply.body.id && rows[0].status == "created"
      && rows[0].orderId == data.orderId && rows[0].amount == data.amount && rows[0].currency == data.currency
      && rows[0].createdAt == rows[0].updatedAt
    ensures InitiateOutcome(data, reply, returnMillis) == Some(reply.body)
  {
  }

  /** A rejected creation stores one `failed` row for the order, amount and
      currency asked for, and answers `failed` with the rail's error text as it
      was and an id of the form `failed_..._<orderId>`. The stored and the
      returned ids come from two clock readings, so nothing here says they agree. */
  lemma RejectedStoresFailed(data: PayoutRequestData, reply: CreateReply, storeMillis: nat, returnMillis: nat, timestamp: int)
    requires reply.Rejected?
    ensures var rows := InitiatedRows(data, reply, storeMillis, timestamp);
      && |rows| == 1
      && rows[0].status == "failed"
      && rows[0].orderId == data.orderId && rows[0].amount == data.amount && rows[0].currency == data.currency
      && IsPrefix("failed_", rows[0].id) && IsSuffix(data.orderId, rows[0].id)
    ensures var r := InitiateOutcome(data, reply, returnMillis);
      && r.Some? && r.value.status == "failed" && r.value.error == Some(reply.errorText)
      && IsPrefix("failed_", r.value.id) && IsSuffix(data.orderId, r.value.id)
  {
  }

  /** Different clock readings give different failed ids, so the id returned
      for a rejected payout need not name the row stored for it. */
  lemma FailedIdsDependOnClock(m: nat, n: nat, orderId: string)
    requires m != n
    ensures FailedPayoutId(m, orderId) != FailedPayoutId(n, orderId)
  {
    var a, b := NatToString(m), NatToString(n);
    NatToStringInjective(m, n);
    var x, y := FailedPayoutId(m, orderId), FailedPayoutId(n, orderId);
    if |a| == |b| {
      assert x[7..7 + |a|] == a && y[7..7 + |b|] == b;
    } else {
      assert |x| != |y|;
    }
  }

  /** A thrown error stores nothing and answers `null`. */
  lemma UnreachableStoresNothing(data: PayoutRequestData, storeMillis: nat, returnMillis: nat, timestamp: int)
    ensures InitiatedRows(data, Unreachable, storeMillis, timestamp) == []
    ensures InitiateOutcome(data, Unreachable, returnMillis) == None
  {
  }

  /** `executePayoutRequest`: the parsed body of an ok reply, `null` otherwise. It
      is a function of the reply alone, so it cannot touch the ledger. */
  function ExecutePayoutRequest(payoutRequestId: string, execute: string -> ExecuteReply): (r: Option<ExecuteResult>)
    ensures r.Some? <==> execute(payoutRequestId).Executed?
    ensures r.Some? ==> r.value == execute(payoutRequestId).result
  {
    match execute(payoutRequestId)
    case Executed(result) => Some(result)
    case ExecutionRejected(_) => None
    case ExecutionUnreachable => None
  }

  /** `storeFailedPayout`. */
  method StoreFailedPayout(db: Db, data: PayoutRequestData, millis: nat, timestamp: int)
    modifies db
    ensures db.payouts == old(db.payouts) + [FailedPayoutRow(data, millis, timestamp)]
    ensures db.orders == old(db.orders)
  {
    var failedPayoutId := FailedPayoutId(millis, data.orderId);
    db.InsertPayout(DbPayout(failedPayoutId, data.orderId, data.amount, data.currency,
      "failed", timestamp, timestamp));
  }

  /** `storeSuccessfulPayout`. */
  method StoreSuccessfulPayout(db: Db, data: PayoutRequestData, payoutId: string, timestamp: int)
    modifies db
    ensures db.payouts == old(db.payouts) + [CreatedPayoutRow(data, payoutId, timestamp)]
    ensures db.orders == old(db.orders)
  {
    db.InsertPayout(DbPayout(payoutId, data.orderId, data.amount, data.currency,
      "created", timestamp, timestamp));
  }

  /** `initiatePayoutToCOP`: sends the request built from `data` through `create`
      and records the answer. */
  method InitiatePayoutToCop(
    db: Db, data: PayoutRequestData, sourceAccountId: Option<string>,
    create: MuralPayoutRequest -> CreateReply, storeMillis: nat, returnMillis: nat, timestamp: int)
    returns (r: Option<PayoutResult>)
    modifies db
    ensures var reply := create(CreatePayoutRequest(data, sourceAccountId));
      && db.payouts == old(db.payouts) + InitiatedRows(data, reply, storeMillis, timestamp)
      && r == InitiateOutcome(data, reply, returnMillis)
    ensures db.orders == old(db.orders)
  {
    var payoutRequest := CreatePayoutRequest(data, sourceAccountId);
    var payoutResponse := create(payoutRequest);
    match payoutResponse
    case Rejected(errorText) =>
      StoreFailedPayout(db, data, storeMillis, timestamp);
      r := Some(PayoutResult(FailedPayoutId(returnMillis, data.orderId), "failed", Some(errorText)));
    case Accepted(payoutResult) =>
      StoreSuccessfulPayout(db, data, payoutResult.id, timestamp);
      r := Some(payoutResult);
    case Unreachable =>
      r := None;
  }
}
