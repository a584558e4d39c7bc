/** The JSON-file ledger of lib/db.ts: two tables, `orders` and `payouts`, reached
    through `prepare(sql).run / get / all`. The file is read into memory at every
    call and written back after every change; here the tables are the fields of one
    object that the `run` branches update in place. */
module Ledger {
  import opened Wrappers
  import opened Seqs

  /** A row of `orders`. `items` is the JSON text the order API stored;
      `createdAt` is the instant the ISO-8601 `created_at` names. */
  datatype DbOrder = DbOrder(
    id: string,
    items: string,
    total: real,
    customerEmail: Option<string>,
    paymentAddress: string,
    paymentReference: string,
    status: string,
    createdAt: int)

  /** A row of `payouts`. */
  datatype DbPayout = DbPayout(
    id: string,
    orderId: string,
    amount: real,
    currency: string,
    status: string,
    createdAt: int,
    updatedAt: int)

  /** The statements `run` recognises, one per `sql.includes(...)` branch, with
      their positional parameters as named fields (INSERT rows take params 0..7 and
      0..6 in field order; UPDATE orders takes (status, id); UPDATE payouts takes
      (status, updated_at, id)). Any other SQL text is `Unrecognised`. */
  datatype Command =
    | InsertOrder(order: DbOrder)
    | InsertPayout(payout: DbPayout)
    | UpdateOrder(orderStatus: string, orderId: string)
    | UpdatePayout(payoutStatus: string, updatedAt: int, payoutId: string)
    | Unrecognised

  /** The lookups `get` recognises. */
  datatype Query =
    | OrderByAmountAndStatus(amount: real, status: string)
    | OrderById(id: string)
    | UnrecognisedQuery

  /** The listings `all` recognises. */
  datatype Listing = OrdersByCreatedDesc | PayoutsByCreatedDesc | UnrecognisedListing

  /** What `all` resolves with. */
  datatype Rows = OrderRows(orders: seq<DbOrder>) | PayoutRows(payouts: seq<DbPayout>)

  /** What `run` resolves with. */
  datatype RunResult = RunResult(changes: nat)

  /** The money tolerance of the amount lookup. */
  const Tolerance: real := 0.01

  function Abs(x: real): real {
    if x < 0.0 then -x else x
  }

  /** The predicate of the amount/status lookup: `Math.abs(o.total - amount) < 0.01 && o.status === status`. */
  predicate MatchesAmount(o: DbOrder, amount: real, status: string) {
    Abs(o.total - amount) < Tolerance && o.status == status
  }

  /** The first order, in insertion order, that the amount/status lookup accepts. */
  function FindByAmountAndStatus(orders: seq<DbOrder>, amount: real, status: string): Option<DbOrder> {
    Find(orders, (o: DbOrder) => MatchesAmount(o, amount, status))
  }

  /** The first order with this id (`find(o => o.id === id)`). */
  function FindOrderById(orders: seq<DbOrder>, id: string): Option<DbOrder> {
    Find(orders, (o: DbOrder) => o.id == id)
  }

  /** `findIndex(o => o.id === id)` on orders. */
  function OrderIndex(orders: seq<DbOrder>, id: string): int {
    FirstIndex(orders, (o: DbOrder) => o.id == id)
  }

  /** `findIndex(p => p.id === id)` on payouts. */
  function PayoutIndex(payouts: seq<DbPayout>, id: string): int {
    FirstIndex(payouts, (p: DbPayout) => p.id == id)
  }

  /** The orders table after `UPDATE orders SET status = ? WHERE id = ?`. */
  function WithOrderStatus(orders: seq<DbOrder>, id: string, status: string): seq<DbOrder> {
    var i := OrderIndex(orders, id);
    if i == -1 then orders else orders[i := orders[i].(status := status)]
  }

  /** The payouts table after `UPDATE payouts SET status = ?, updated_at = ? WHERE id = ?`. */
  function WithPayoutStatus(payouts: seq<DbPayout>, id: string, status: string, updatedAt: int): seq<DbPayout> {
    var i := PayoutIndex(payouts, id);
    if i == -1 then payouts else payouts[i := payouts[i].(status := status, updatedAt := updatedAt)]
  }

  predicate UniqueOrderIds(orders: seq<DbOrder>) {
    forall i, j :: 0 <= i < j < |orders| ==> orders[i].id != orders[j].id
  }

  predicate UniquePayoutIds(payouts: seq<DbPayout>) {
    forall i, j :: 0 <= i < j < |payouts| ==> payouts[i].id != payouts[j].id
  }

  // ---------------------------------------------------------------------------
  // Sorting by `created_at`, newest first (`sort((a, b) => b - a)`, a stable sort).

  predicate SortedDesc<T>(s: seq<T>, key: T -> int) {
    forall i, j :: 0 <= i < j < |s| ==> key(s[i]) >= key(s[j])
  }

  /** Inserts `x` in front of the first element whose key is not greater, so that
      `x` stays ahead of the later elements with an equal key. */
  function InsertDesc<T>(x: T, s: seq<T>, key: T -> int): seq<T> {
    if s == [] || key(s[0]) <= key(x) then [x] + s
    else [s[0]] + InsertDesc(x, s[1..], key)
  }

  function SortDesc<T>(s: seq<T>, key: T -> int): seq<T> {
    if s == [] then [] else InsertDesc(s[0], SortDesc(s[1..], key), key)
  }

  function OrderCreatedAt(o: DbOrder): int { o.createdAt }

  function PayoutCreatedAt(p: DbPayout): int { p.createdAt }

  /** `SELECT * FROM orders ORDER BY created_at DESC`. */
  function OrdersNewestFirst(orders: seq<DbOrder>): seq<DbOrder> {
    SortDesc(orders, OrderCreatedAt)
  }

  /** `SELECT * FROM payouts ORDER BY created_at DESC`. */
  function PayoutsNewestFirst(payouts: seq<DbPayout>): seq<DbPayout> {
    SortDesc(payouts, PayoutCreatedAt)
  }

  /** Every element of `s` has a key of at most `b`. */
  predicate KeysAtMost<T>(s: seq<T>, key: T -> int, b: int) {
    forall k :: 0 <= k < |s| ==> key(s[k]) <= b
  }

  lemma {:induction false} InsertDescKeysAtMost<T>(x: T, s: seq<T>, key: T -> int, b: int)
    requires KeysAtMost(s, key, b) && key(x) <= b
    ensures KeysAtMost(InsertDesc(x, s, key), key, b)
    decreases |s|
  {
    if !(s == [] || key(s[0]) <= key(x)) {
      InsertDescKeysAtMost(x, s[1..], key, b);
      var r := InsertDesc(x, s, key);
      forall k | 0 <= k < |r| ensures key(r[k]) <= b {
        if k > 0 { assert r[k] == InsertDesc(x, s[1..], key)[k - 1]; }
      }
    }
  }

  lemma {:induction false} InsertDescSorted<T>(x: T, s: seq<T>, key: T -> int)
    requires SortedDesc(s, key)
    ensures SortedDesc(InsertDesc(x, s, key), key)
    decreases |s|
  {
    if !(s == [] || key(s[0]) <= key(x)) {
      var rest := InsertDesc(x, s[1..], key);
      InsertDescSorted(x, s[1..], key);
      assert KeysAtMost(s[1..], key, key(s[0])) by {
        forall k | 0 <= k < |s[1..]| ensures key(s[1..][k]) <= key(s[0]) {
          assert s[1..][k] == s[k + 1];
        }
      }
      InsertDescKeysAtMost(x, s[1..], key, key(s[0]));
      var r := [s[0]] + rest;
      forall i, j | 0 <= i < j < |r|
        ensures key(r[i]) >= key(r[j])
      {
        assert r[j] == rest[j - 1];
        if i > 0 {
          assert r[i] == rest[i - 1];
        }
      }
    }
  }

  lemma {:induction false} InsertDescPermutes<T>(x: T, s: seq<T>, key: T -> int)
    ensures multiset(InsertDesc(x, s, key)) == multiset(s) + multiset{x}
    decreases |s|
  {
    if s == [] || key(s[0]) <= key(x) {
      assert multiset([x] + s) == multiset{x} + multiset(s);
    } else {
      InsertDescPermutes(x, s[1..], key);
      assert s == [s[0]] + s[1..];
      assert multiset(s) == multiset{s[0]} + multiset(s[1..]);
      assert multiset([s[0]] + InsertDesc(x, s[1..], key))
          == multiset{s[0]} + multiset(InsertDesc(x, s[1..], key));
    }
  }

  /** The listing is ordered newest first and holds exactly the stored rows. */
  lemma {:induction false} SortDescCorrect<T>(s: seq<T>, key: T -> int)
    ensures SortedDesc(SortDesc(s, key), key)
    ensures multiset(SortDesc(s, key)) == multiset(s)
  {
    if s != [] {
      SortDescCorrect(s[1..], key);
      InsertDescSorted(s[0], SortDesc(s[1..], key), key);
      InsertDescPermutes(s[0], SortDesc(s[1..], key), key);
      assert s == [s[0]] + s[1..];
      assert multiset(s) == multiset{s[0]} + multiset(s[1..]);
    }
  }

  lemma SortDescLength<T>(s: seq<T>, key: T -> int)
    ensures |SortDesc(s, key)| == |s|
  {
    SortDescCorrect(s, key);
    assert |multiset(SortDesc(s, key))| == |multiset(s)|;
  }

  // ---------------------------------------------------------------------------
  // What each `run` branch does to the tables.

  /** UPDATE orders changes only the status of the first order with the given id;
      an absent id leaves the table as it was. */
  lemma UpdateOrderEffect(orders: seq<DbOrder>, id: string, status: string)
    ensures var r := WithOrderStatus(orders, id, status);
      && |r| == |orders|
      && ((forall k :: 0 <= k < |orders| ==> orders[k].id != id) ==> r == orders)
      && forall k :: 0 <= k < |orders| ==>
           r[k] == if orders[k].id == id && (forall j :: 0 <= j < k ==> orders[j].id != id)
                   then orders[k].(status := status) else orders[k]
  {
  }

  /** UPDATE payouts changes only `status` and `updated_at` of the first payout with
      the given id; an absent id leaves the table as it was. */
  lemma UpdatePayoutEffect(payouts: seq<DbPayout>, id: string, status: string, updatedAt: int)
    ensures var r := WithPayoutStatus(payouts, id, status, updatedAt);
      && |r| == |payouts|
      && ((forall k :: 0 <= k < |payouts| ==> payouts[k].id != id) ==> r == payouts)
      && forall k :: 0 <= k < |payouts| ==>
           r[k] == if payouts[k].id == id && (forall j :: 0 <= j < k ==> payouts[j].id != id)
                   then payouts[k].(status := status, updatedAt := updatedAt) else payouts[k]
  {
  }

  /** The status UPDATE writes its value whatever the row held before: no
      ordering between statuses is checked. */
  lemma PayoutStatusOverwrites(payouts: seq<DbPayout>, k: nat, status: string, updatedAt: int)
    requires k < |payouts| && UniquePayoutIds(payouts)
    ensures WithPayoutStatus(payouts, payouts[k].id, status, updatedAt)[k].status == status
  {
    var i := PayoutIndex(payouts, payouts[k].id);
    assert 0 <= i <= k;
  }

  // ---------------------------------------------------------------------------
  // The amount/status lookup.

  /** The lookup answers with the first row, in insertion order, within the
      tolerance and with the status asked for; it answers nothing exactly when no
      such row exists. */
  lemma FindByAmountFirstMatch(orders: seq<DbOrder>, amount: real, status: string)
    ensures var r := FindByAmountAndStatus(orders, amount, status);
      && (r.None? <==> forall k :: 0 <= k < |orders| ==> !MatchesAmount(orders[k], amount, status))
      && (r.Some? ==> exists i :: 0 <= i < |orders| && orders[i] == r.value
                        && MatchesAmount(orders[i], amount, status)
                        && forall k :: 0 <= k < i ==> !MatchesAmount(orders[k], amount, status))
  {
    var r := FindByAmountAndStatus(orders, amount, status);
    if r.Some? {
      var i := FirstIndex(orders, (o: DbOrder) => MatchesAmount(o, amount, status));
      assert orders[i] == r.value;
    }
  }

  /** An amount at least 0.01 away from a total never selects that order, and the
      selected order is always within the tolerance of the amount. */
  lemma FindByAmountWithinTolerance(orders: seq<DbOrder>, amount: real, status: string)
    ensures var r := FindByAmountAndStatus(orders, amount, status);
      r.Some? ==> -Tolerance < r.value.total - amount < Tolerance && r.value.status == status
  {
  }

  /** Of two pending orders that both match, the one inserted earlier is selected
      and the later one is not. */
  lemma FindByAmountPrefersEarlier(orders: seq<DbOrder>, amount: real, status: string, i: nat, j: nat)
    requires UniqueOrderIds(orders)
    requires i < j < |orders|
    requires MatchesAmount(orders[i], amount, status) && MatchesAmount(orders[j], amount, status)
    ensures FindByAmountAndStatus(orders, amount, status) != Some(orders[j])
  {
    var p := (o: DbOrder) => MatchesAmount(o, amount, status);
    var f := FirstIndex(orders, p);
    assert p(orders[i]);
    assert 0 <= f <= i;
    assert orders[f].id != orders[j].id;
  }

  // ---------------------------------------------------------------------------

  /** The in-memory database: `readDb` yields it, `writeDb` stores it. */
  class Db {
    var orders: seq<DbOrder>
    var payouts: seq<DbPayout>

    /** A missing or unreadable file reads as two empty tables. */
    constructor ()
      ensures orders == [] && payouts == []
    {
      orders := [];
      payouts := [];
    }

    /** `INSERT INTO orders`: the row built from params 0..7 goes at the end. */
    method InsertOrder(order: DbOrder)
      modifies this
      ensures orders == old(orders) + [order]
      ensures payouts == old(payouts)
    {
      orders := orders + [order];
    }

    /** `INSERT INTO payouts`: the row built from params 0..6 goes at the end. */
    method InsertPayout(payout: DbPayout)
      modifies this
      ensures payouts == old(payouts) + [payout]
      ensures orders == old(orders)
    {
      payouts := payouts + [payout];
    }

    /** `UPDATE orders SET status = ? WHERE id = ?`. */
    method UpdateOrderStatus(status: string, id: string)
      modifies this
      ensures orders == WithOrderStatus(old(orders), id, status)
      ensures payouts == old(payouts)
    {
      var orderIndex := OrderIndex(orders, id);
      if orderIndex != -1 {
        orders := orders[orderIndex := orders[orderIndex].(status := status)];
      }
    }

    /** `UPDATE payouts SET status = ?, updated_at = ? WHERE id = ?`. */
    method UpdatePayoutStatus(status: string, updatedAt: int, id: string)
      modifies this
      ensures payouts == WithPayoutStatus(old(payouts), id, status, updatedAt)
      ensures orders == old(orders)
    {
      var payoutIndex := PayoutIndex(payouts, id);
      if payoutIndex != -1 {
        payouts := payouts[payoutIndex := payouts[payoutIndex].(status := status, updatedAt := updatedAt)];
      }
    }

    /** `prepare(sql).run(...params)`: dispatches on the statement and always
        reports one change, even when an UPDATE found no row or the SQL was not
        recognised. */
    method Run(command: Command) returns (r: RunResult)
      modifies this
      ensures r.changes == 1
      ensures command.InsertOrder? ==>
        orders == old(orders) + [command.order] && payouts == old(payouts)
      ensures command.InsertPayout? ==>
        payouts == old(payouts) + [command.payout] && orders == old(orders)
      ensures command.UpdateOrder? ==>
        orders == WithOrderStatus(old(orders), command.orderId, command.orderStatus) && payouts == old(payouts)
      ensures command.UpdatePayout? ==>
        payouts == WithPayoutStatus(old(payouts), command.payoutId, command.payoutStatus, command.updatedAt)
        && orders == old(orders)
      ensures command.Unrecognised? ==> orders == old(orders) && payouts == old(payouts)
    {
      r := RunResult(1);
      match command
      case InsertOrder(order) => InsertOrder(order);
      case InsertPayout(payout) => InsertPayout(payout);
      case UpdateOrder(status, id) => UpdateOrderStatus(status, id);
      case UpdatePayout(status, updatedAt, id) => UpdatePayoutStatus(status, updatedAt, id);
      case Unrecognised =>
    }

    /** `prepare(sql).get(...params)`: the first matching order, or nothing
        (`undefined` / `null`). */
    method Get(query: Query) returns (r: Option<DbOrder>)
      ensures query.OrderByAmountAndStatus? ==>
        r == FindByAmountAndStatus(orders, query.amount, query.status)
      ensures query.OrderById? ==> r == FindOrderById(orders, query.id)
      ensures query.UnrecognisedQuery? ==> r == None
    {
      match query
      case OrderByAmountAndStatus(amount, status) => r := FindByAmountAndStatus(orders, amount, status);
      case OrderById(id) => r := FindOrderById(orders, id);
      case UnrecognisedQuery => r := None;
    }

    /** `prepare(sql).all()`: a sorted copy of a table, or `[]`. The sort works on
        the copy just read from the file, which is not written back, so the stored
        order is unchanged. */
    method All(listing: Listing) returns (r: Rows)
      ensures listing.OrdersByCreatedDesc? ==> r == OrderRows(OrdersNewestFirst(orders))
      ensures listing.PayoutsByCreatedDesc? ==> r == PayoutRows(PayoutsNewestFirst(payouts))
      ensures listing.UnrecognisedListing? ==> r == OrderRows([])
    {
      match listing
      case OrdersByCreatedDesc => r := OrderRows(OrdersNewestFirst(orders));
      case PayoutsByCreatedDesc => r := PayoutRows(PayoutsNewestFirst(payouts));
      case UnrecognisedListing => r := OrderRows([]);
    }
  }
}
