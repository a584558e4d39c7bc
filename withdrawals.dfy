/** The withdrawals API of app/api/withdrawals/route.ts: every stored payout,
    newest first, reshaped for the reply. */
module Withdrawals {
  import opened Ledger

  /** The statuses the reply type declares. */
  const DeclaredStatuses: set<string> :=
    {"created", "awaitingExecution", "pending", "executed", "failed", "canceled"}

  /** A payout as the API shows it. */
  datatype PayoutView = PayoutView(
    payoutRequestId: string, orderId: string, amount: real, currency: string,
    status: string, createdAt: int, updatedAt: int)

  /** `formatPayoutResponse`: the status is cast, not checked. */
  function FormatPayoutResponse(p: DbPayout): (v: PayoutView)
    ensures ToDbPayout(v) == p
  {
    PayoutView(p.id, p.orderId, p.amount, p.currency, p.status, p.createdAt, p.updatedAt)
  }

  /** The stored row a payout view shows. */
  function ToDbPayout(v: PayoutView): DbPayout {
    DbPayout(v.payoutRequestId, v.orderId, v.amount, v.currency, v.status, v.createdAt, v.updatedAt)
  }

  /** The reshaping only renames `id`, `order_id`, `created_at` and `updated_at`;
      amount, currency and status are copied, and nothing is lost either way. */
  lemma FormatPayoutRoundTrip(p: DbPayout, v: PayoutView)
    ensures ToDbPayout(FormatPayoutResponse(p)) == p
    ensures FormatPayoutResponse(ToDbPayout(v)) == v
  {
  }

  /** The status cast checks nothing: every stored status reaches the reply as
      it is, including one outside the six the reply type declares. */
  lemma StatusNotValidated(p: DbPayout)
    ensures FormatPayoutResponse(p).status == p.status
  {
  }

  function FormatPayouts(rows: seq<DbPayout>): (r: seq<PayoutView>)
    ensures |r| == |rows|
    ensures forall k :: 0 <= k < |rows| ==> r[k] == FormatPayoutResponse(rows[k])
  {
    seq(|rows|, k requires 0 <= k < |rows| => FormatPayoutResponse(rows[k]))
  }

  /** `GET /api/withdrawals`: one view per stored payout, in the order of the
      newest-first listing. */
  function ListWithdrawals(payouts: seq<DbPayout>): seq<PayoutView> {
    FormatPayouts(PayoutsNewestFirst(payouts))
  }

  /** The reply has as many entries as the ledger has payouts, newest first, and
      reading the views back gives the stored rows, rearranged only. */
  lemma WithdrawalsMirrorLedger(payouts: seq<DbPayout>)
    ensures var r := ListWithdrawals(payouts);
      && |r| == |payouts|
      && (forall i, j :: 0 <= i < j < |r| ==> r[i].createdAt >= r[j].createdAt)
      && multiset(seq(|r|, k requires 0 <= k < |r| => ToDbPayout(r[k]))) == multiset(payouts)
  {
    var rows := PayoutsNewestFirst(payouts);
    SortDescCorrect(payouts, PayoutCreatedAt);
    SortDescLength(payouts, PayoutCreatedAt);
    var r := ListWithdrawals(payouts);
    forall i, j | 0 <= i < j < |r| ensures r[i].createdAt >= r[j].createdAt {
      assert PayoutCreatedAt(rows[i]) >= PayoutCreatedAt(rows[j]);
    }
    assert seq(|r|, k requires 0 <= k < |r| => ToDbPayout(r[k])) == rows;
  }

  /** `GET /api/withdrawals` against the ledger. */
  method Get(db: Db) returns (r: seq<PayoutView>)
    ensures r == ListWithdrawals(db.payouts)
  {
    var rows := db.All(PayoutsByCreatedDesc);
    r := FormatPayouts(rows.payouts);
  }

  // ---------------------------------------------------------------------------

  /** The reply of `GET /api/withdrawals`: the payouts, or an error. */
  datatype ListReply = Listed(payouts: seq<PayoutView>) | ListFailed(httpStatus: int, error: string)

  const RetrieveFailed: string := "Failed to retrieve payouts"

  /** `GET /api/withdrawals` as written: the listing goes through
      `DATABASE_CLIENT.execute`, which the ledger module does not provide, so it
      throws into the catch. */
  function AsWrittenListWithdrawals(payouts: seq<DbPayout>): ListReply {
    ListFailed(500, RetrieveFailed)
  }

  /** As written, the withdrawals page never sees the stored payouts: the reply is
      500 whatever the ledger holds, never the listing. */
  lemma AsWrittenWithdrawalsFail(payouts: seq<DbPayout>)
    ensures AsWrittenListWithdrawals(payouts) == ListFailed(500, RetrieveFailed)
  {
  }
}
