/**
 The database the services share.  `Tables` is its content as a value; `Database` is the session the
 services write through, one field per table.  Row ids of append-only tables are positions.
 */
module Store {
  import opened Prelude
  import opened OrderStatus
  import Commissions

  /** Amounts in whole cents; `markup` and `carrierPrice` are the quote-time snapshots, NULL on old orders. */
  datatype Order = Order(
    user: int, carrier: string, status: Status,
    price: int, currency: string, markup: Option<int>, carrierPrice: Option<int>)

  datatype RequestStatus = Pending | Approved | ApiCancelled | Rejected

  datatype Response = NoResponse | Comment(text: string) | MovedOn(status: Status)

  datatype Request = Request(
    order: int, author: int, carrier: string, reason: string, status: RequestStatus,
    apiAttempted: bool, apiError: Option<string>, response: Response,
    resolvedBy: Option<int>, resolvedAt: Option<int>,
    retries: nat, nextRetry: Option<int>, createdAt: int)

  datatype TxStatus =
    | TxUnpaid | TxAwaiting | TxUnderReview | TxPaid | TxRejected
    | TxRefundPending | TxRefunded | TxCancelled | TxExpired

  datatype Tx = Tx(order: int, amount: int, status: TxStatus)

  datatype TxRow = TxRow(tx: nat, before: TxStatus, after: TxStatus, actor: Option<int>, comment: string)

  datatype JobStatus = Queued | Processing | Completed | Failed | JobCancelled

  datatype Job = Job(order: int, status: JobStatus)

  datatype HistoryRow = HistoryRow(
    order: int, before: Status, after: Status, actor: Option<int>, source: string, comment: string)

  datatype TrackingRow = TrackingRow(order: int, status: Status, raw: Option<string>, note: string)

  /** An inbound webhook row, keyed by carrier and external event id. */
  datatype WebhookRow = WebhookRow(order: Option<int>, processed: bool)

  /** One automatic call for a cancellation request: what the retry worker did, and when. */
  datatype Attempt = Attempt(request: nat, at: int)

  datatype Tables = Tables(
    now: int,
    orders: map<int, Order>,
    requests: seq<Request>,
    txs: seq<Tx>,
    txHistory: seq<TxRow>,
    jobs: seq<Job>,
    ledger: seq<Commissions.Row>,
    history: seq<HistoryRow>,
    tracking: seq<TrackingRow>,
    webhooks: map<(string, string), WebhookRow>,
    attempts: seq<Attempt>)

  /** The clock never goes back: every step says how much time has passed. */
  function Wait(t: Tables, elapsed: nat): Tables {
    t.(now := t.now + elapsed)
  }

  class Database {
    var now: int
    var orders: map<int, Order>
    var requests: seq<Request>
    var txs: seq<Tx>
    var txHistory: seq<TxRow>
    var jobs: seq<Job>
    var ledger: seq<Commissions.Row>
    var history: seq<HistoryRow>
    var tracking: seq<TrackingRow>
    var webhooks: map<(string, string), WebhookRow>
    ghost var attempts: seq<Attempt>

    constructor (now: int)
      ensures Snapshot() == Tables(now, map[], [], [], [], [], [], [], [], map[], [])
    {
      this.now := now;
      orders, requests, txs, txHistory, jobs, ledger := map[], [], [], [], [], [];
      history, tracking, webhooks, attempts := [], [], map[], [];
    }

    ghost function Snapshot(): Tables
      reads this
    {
      Tables(now, orders, requests, txs, txHistory, jobs, ledger, history, tracking, webhooks, attempts)
    }
  }

  // ---- writes that several services share ----

  /** Set the order's status and log the move, as every status writer does. */
  function SetStatus(t: Tables, id: int, next: Status, actor: Option<int>, source: string, comment: string): Tables
    requires id in t.orders
  {
    var o := t.orders[id];
    t.(orders := t.orders[id := o.(status := next)],
       history := t.history + [HistoryRow(id, o.status, next, actor, source, comment)])
  }

  method WriteStatus(db: Database, id: int, next: Status, actor: Option<int>, source: string, comment: string)
    requires id in db.orders
    modifies db`orders, db`history
    ensures db.Snapshot() == SetStatus(old(db.Snapshot()), id, next, actor, source, comment)
  {
    var order := db.orders[id];
    db.orders := db.orders[id := order.(status := next)];
    db.history := db.history + [HistoryRow(id, order.status, next, actor, source, comment)];
  }

  function Track(t: Tables, id: int, status: Status, raw: Option<string>, note: string): Tables {
    t.(tracking := t.tracking + [TrackingRow(id, status, raw, note)])
  }

  predicate Hits(tx: Tx, order: int, from: set<TxStatus>) {
    tx.order == order && tx.status in from
  }

  function Moved(tx: Tx, order: int, from: set<TxStatus>, to: TxStatus): Tx {
    if Hits(tx, order, from) then tx.(status := to) else tx
  }

  function MoveTxs(txs: seq<Tx>, order: int, from: set<TxStatus>, to: TxStatus): (moved: seq<Tx>)
    ensures |moved| == |txs|
    ensures forall i :: 0 <= i < |txs| ==>
              moved[i] == Moved(txs[i], order, from, to)
  {
    if txs == [] then []
    else
      var n := |txs| - 1;
      MoveTxs(txs[..n], order, from, to) + [Moved(txs[n], order, from, to)]
  }

  /** One history row per moved transaction, in id order. */
  function MoveRows(txs: seq<Tx>, order: int, from: set<TxStatus>, to: TxStatus, actor: int, comment: string): seq<TxRow> {
    if txs == [] then []
    else
      var n := |txs| - 1;
      MoveRows(txs[..n], order, from, to, actor, comment) + MoveRow(txs, order, from, to, actor, comment, n)
  }

  function RowsFor(rows: seq<TxRow>, tx: nat): seq<TxRow> {
    if rows == [] then []
    else
      var n := |rows| - 1;
      RowsFor(rows[..n], tx) + if rows[n].tx == tx then [rows[n]] else []
  }

  lemma {:induction false} RowsForConcat(a: seq<TxRow>, b: seq<TxRow>, tx: nat)
    ensures RowsFor(a + b, tx) == RowsFor(a, tx) + RowsFor(b, tx)
  {
    if b == [] {
      assert a + b == a;
    } else {
      var n := |b| - 1;
      RowsForConcat(a, b[..n], tx);
      assert (a + b)[..|a + b| - 1] == a + b[..n];
    }
  }

  function MoveRow(txs: seq<Tx>, order: int, from: set<TxStatus>, to: TxStatus, actor: int, comment: string, i: nat)
    : seq<TxRow>
  {
    if i < |txs| && Hits(txs[i], order, from) then [TxRow(i, txs[i].status, to, Some(actor), comment)] else []
  }

  lemma OwnRow(txs: seq<Tx>, order: int, from: set<TxStatus>, to: TxStatus, actor: int, comment: string, n: nat, i: nat)
    requires n < |txs|
    ensures RowsFor(MoveRow(txs, order, from, to, actor, comment, n), i)
         == if i == n then MoveRow(txs, order, from, to, actor, comment, n) else []
    ensures MoveRow(txs[..n], order, from, to, actor, comment, i)
         == if i < n then MoveRow(txs, order, from, to, actor, comment, i) else []
  {
  }

  lemma MoveRowsStep(txs: seq<Tx>, order: int, from: set<TxStatus>, to: TxStatus, actor: int, comment: string, n: nat)
    requires n < |txs|
    ensures MoveRows(txs[..n + 1], order, from, to, actor, comment)
         == MoveRows(txs[..n], order, from, to, actor, comment) + MoveRow(txs, order, from, to, actor, comment, n)
  {
    assert txs[..n + 1][..n] == txs[..n];
  }

  /** A moved transaction gets exactly its own row, an unmoved one gets none. */
  lemma {:induction false} OneRowPerMove(
    txs: seq<Tx>, order: int, from: set<TxStatus>, to: TxStatus, actor: int, comment: string, i: nat)
    ensures RowsFor(MoveRows(txs, order, from, to, actor, comment), i) == MoveRow(txs, order, from, to, actor, comment, i)
  {
    if txs != [] {
      var n := |txs| - 1;
      var front := MoveRows(txs[..n], order, from, to, actor, comment);
      var last := MoveRow(txs, order, from, to, actor, comment, n);
      assert MoveRows(txs, order, from, to, actor, comment) == front + last;
      OwnRow(txs, order, from, to, actor, comment, n, i);
      NoRow(txs, order, from, to, actor, comment, i);
      hide MoveRow;
      OneRowPerMove(txs[..n], order, from, to, actor, comment, i);
      hide MoveRows;
      RowsForConcat(front, last, i);
      hide RowsFor;
      if i < n {
        AppendNothing(RowsFor(front, i));
      } else {
        AppendNothing(last);
      }
    }
  }

  lemma AppendNothing(rows: seq<TxRow>)
    ensures rows + [] == rows && [] + rows == rows
  {
  }

  lemma NoRow(txs: seq<Tx>, order: int, from: set<TxStatus>, to: TxStatus, actor: int, comment: string, i: nat)
    ensures i >= |txs| ==> MoveRow(txs, order, from, to, actor, comment, i) == []
  {
  }

  /** `for tx in ...: add a history row; tx.status = to`, over the order's transactions in `from`. */
  method MoveTransactions(
    db: Database, order: int, from: set<TxStatus>, to: TxStatus, actor: int, comment: string)
    modifies db`txs, db`txHistory
    ensures db.txs == MoveTxs(old(db.txs), order, from, to)
    ensures db.txHistory == old(db.txHistory) + MoveRows(old(db.txs), order, from, to, actor, comment)
  {
    ghost var was := db.txs;
    var i := 0;
    while i < |db.txs|
      invariant i <= |db.txs| == |was|
      invariant forall k :: 0 <= k < i ==> db.txs[k] == Moved(was[k], order, from, to)
      invariant forall k :: i <= k < |was| ==> db.txs[k] == was[k]
      invariant db.txHistory == old(db.txHistory) + MoveRows(was[..i], order, from, to, actor, comment)
    {
      MoveRowsStep(was, order, from, to, actor, comment, i);
      hide MoveRows;
      if Hits(db.txs[i], order, from) {
        db.txHistory := db.txHistory + [TxRow(i, db.txs[i].status, to, Some(actor), comment)];
        db.txs := db.txs[i := db.txs[i].(status := to)];
      }
      i := i + 1;
    }
    assert was[..i] == was;
  }
}
