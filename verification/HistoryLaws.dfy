/**
 What an order's status history records.  Checkout moves an order without a row; everything else writes one.
 So the rows link up to the present status exactly as long as checkout never moves an order that has rows
 already, which only an admin override makes possible.
 */
module HistoryLaws {
  import opened Prelude
  import opened OrderStatus
  import opened Store
  import opened Cancellations
  import opened World
  import W = Writers

  /** The order's own rows, oldest first. */
  function OrderRows(history: seq<HistoryRow>, id: int): seq<HistoryRow> {
    if history == [] then []
    else
      var n := |history| - 1;
      OrderRows(history[..n], id) + if history[n].order == id then [history[n]] else []
  }

  /** Each row starts where the one before it ended. */
  predicate Linked(rows: seq<HistoryRow>) {
    forall k :: 0 <= k < |rows| - 1 ==> rows[k].after == rows[k + 1].before
  }

  /** What the database knows of one order: its status, and its rows. */
  datatype Record = Record(status: Option<Status>, rows: seq<HistoryRow>) {
    function Last(): Status
      requires rows != []
    {
      rows[|rows| - 1].after
    }

    /** The rows are a chain that ends at the present status. */
    predicate Chained() {
      Linked(rows) && (rows != [] ==> status == Some(Last()))
    }

    /** The chain is broken, or the status has run ahead of it through checkout. */
    predicate Torn() {
      rows != [] && status.Some? && (!Linked(rows) || RanAhead(Last(), status.value))
    }
  }

  predicate RanAhead(recorded: Status, present: Status) {
    || (recorded == Draft && (present == ShipmentDetailsCompleted || present == ReadyForCheckout))
    || (recorded == ShipmentDetailsCompleted && present == ReadyForCheckout)
  }

  function RecordOf(t: Tables, id: int): Record {
    Record(if id in t.orders then Some(t.orders[id].status) else None, OrderRows(t.history, id))
  }

  // ---- how a step writes ----

  /** One status write: a row from the order's present status, and the order moved to the row's end. */
  predicate WritesOne(t: Tables, u: Tables) {
    && |u.history| == |t.history| + 1
    && u.history[..|t.history|] == t.history
    && var row := u.history[|t.history|];
       && row.order in t.orders && row.before == t.orders[row.order].status
       && u.orders == t.orders[row.order := t.orders[row.order].(status := row.after)]
  }

  predicate Unwritten(t: Tables, u: Tables) {
    u.orders == t.orders && u.history == t.history
  }

  /** One write along the graph, to a status checkout does not set. */
  predicate WritesLawfully(t: Tables, u: Tables) {
    && WritesOne(t, u)
    && var row := u.history[|t.history|]; CanTransition(row.before, row.after) && !ByCheckout(row.after)
  }

  /** At most one such write, and no payment. */
  predicate LawfulWrite(t: Tables, u: Tables) {
    Unwritten(t, u) || (WritesLawfully(t, u) && u.history[|t.history|].after != Paid)
  }

  lemma CloseWrites(
    s: Tables, id: int, actor: int, comment: Option<string>, status: RequestStatus, source: string)
    requires HasRequest(s, id)
    ensures LawfulWrite(s, Close(s, id, actor, comment, status, source).0)
  {
  }

  lemma CustomerWrites(t: Tables, user: int, order: int, text: string, api: ApiCall)
    ensures LawfulWrite(t, RequestCancellation(t, user, order, text, api).0)
  {
  }

  lemma RetryApiWrites(t: Tables, id: int, actor: int, api: ApiCall)
    ensures LawfulWrite(t, RetryApi(t, id, actor, api).0)
  {
    if IsPending(t, id) {
      var s := SetRequest(Wait(t, api.took), id, t.requests[id].(apiAttempted := true, nextRetry := None));
      CloseWrites(s, id, actor, None, ApiCancelled, "admin_retry_api");
    }
  }

  lemma RetryCallWrites(t: Tables, id: int, api: ApiCall)
    requires HasRequest(t, id)
    ensures LawfulWrite(t, RetryCall(t, id, api).0)
  {
  }

  lemma ServiceWrites(t: Tables, e: Event)
    requires IsService(e)
    ensures LawfulWrite(t, ServiceStep(t, e).0)
  {
    match e
    case Customer(user, order, text, api) => CustomerWrites(t, user, order, text, api);
    case CarrierApproves(id, actor, carrier, comment) =>
      if HasRequest(t, id) {
        CloseWrites(t, id, actor, comment, Approved, "carrier_approved");
      }
    case AdminApproves(id, actor, comment) =>
      if HasRequest(t, id) {
        CloseWrites(t, id, actor, comment, Approved, "admin_approved");
      }
    case AdminRetries(id, actor, api) => RetryApiWrites(t, id, actor, api);
    case WorkerRetries(id, api) =>
      if HasRequest(t, id) {
        RetryCallWrites(t, id, api);
      }
    case StaffRejects(id, actor, isAdmin, own, text) =>
  }

  /** The in-between state of a confirmed payment: paid, not yet queued. */
  function PaidOnly(t: Tables, tx: int, actor: Option<int>, source: string): Tables
    requires W.HasTx(t, tx) && t.txs[tx].order in t.orders
  {
    SetStatus(t, t.txs[tx].order, Paid, actor, source, "Payment approved")
  }

  lemma ConfirmWrites(
    t: Tables, tx: int, accepted: set<TxStatus>, actor: Option<int>, source: string, settings: W.Settings)
    ensures var u := W.ConfirmPayment(t, tx, accepted, actor, source, settings).0;
            Unwritten(t, u)
            || (W.HasTx(t, tx) && t.txs[tx].order in t.orders
                && WritesLawfully(t, PaidOnly(t, tx, actor, source)) && LawfulWrite(PaidOnly(t, tx, actor, source), u))
  {
  }

  predicate IsConfirmation(e: Event) {
    e.PaymentApproved? || e.PaymentAutoConfirmed?
  }

  lemma DeclineAndRefundWrite(t: Tables, tx: int, admin: int, text: string)
    ensures LawfulWrite(t, W.RejectPayment(t, tx, admin, text).0)
    ensures LawfulWrite(t, W.AdminRefund(t, tx, admin, text).0)
  {
  }

  lemma PaymentWrites(t: Tables, e: Event)
    requires IsPayment(e) && !IsConfirmation(e)
    ensures LawfulWrite(t, PaymentStep(t, e))
  {
    match e
    case PaymentOpened(order, actor, bankSet) =>
    case ProofSubmitted(tx, order, actor) =>
    case PaymentDeclined(tx, admin, text) => DeclineAndRefundWrite(t, tx, admin, text);
    case Refunded(tx, admin, text) => DeclineAndRefundWrite(t, tx, admin, text);
    case ProviderCancelled(order) =>
  }

  lemma CarrierStatusIsLater(raw: string)
    ensures W.MapCarrierStatus(raw) != Paid && !ByCheckout(W.MapCarrierStatus(raw))
  {
  }

  lemma WebhookWrites(t: Tables, carrier: string, msg: W.Message)
    ensures LawfulWrite(t, W.Webhook(t, carrier, msg).0)
  {
    CarrierStatusIsLater(msg.status);
    hide W.MapCarrierStatus;
  }

  lemma PortalWrites(t: Tables, carrier: string, order: int, actor: int, text: string)
    ensures LawfulWrite(t, W.PortalAccept(t, carrier, order, actor).0)
    ensures LawfulWrite(t, W.PortalReject(t, carrier, order, actor, text).0)
    ensures LawfulWrite(t, W.PortalPod(t, carrier, order, actor).0)
  {
  }

  lemma TrackingWrites(t: Tables, order: int, status: Status, raw: Option<string>, note: string, caption: string)
    ensures LawfulWrite(t, W.AddTrackingEvent(t, order, status, raw, note, caption).0)
  {
  }

  lemma OverrideWrites(t: Tables, order: int, next: Status, admin: int)
    ensures var u := W.AdminOverride(t, order, next, admin).0;
            Unwritten(t, u) || (WritesOne(t, u) && u.history[|t.history|].order == order)
  {
  }

  predicate IsCheckout(e: Event) {
    e.OrderPlaced? || e.DetailsSaved? || e.CheckedOut?
  }

  lemma OtherWrites(t: Tables, e: Event)
    requires !IsService(e) && !IsPayment(e) && !IsCheckout(e) && !e.AdminOverrides?
    ensures LawfulWrite(t, OtherStep(t, e))
  {
    match e
    case WorkerCrashes(_, _, _) =>
    case CarrierPosts(carrier, msg) => WebhookWrites(t, carrier, msg);
    case PortalAccepts(carrier, order, actor) => PortalWrites(t, carrier, order, actor, "");
    case PortalRejects(carrier, order, actor, text) => PortalWrites(t, carrier, order, actor, text);
    case PortalPods(carrier, order, actor) => PortalWrites(t, carrier, order, actor, "");
    case AdminDispatches(order, admin) =>
    case TrackingAdded(order, status, raw, note, caption) => TrackingWrites(t, order, status, raw, note, caption);
    case GraphMove(order, next, source) =>
    case JobChanges(job, state) =>
  }

  // ---- one order's record, step by step ----

  predicate Writes(r: Record, s: Record, row: HistoryRow) {
    r.status == Some(row.before) && s == Record(Some(row.after), r.rows + [row])
  }

  lemma WriteRecord(t: Tables, u: Tables, id: int)
    requires Unwritten(t, u) || WritesOne(t, u)
    ensures RecordOf(u, id) == RecordOf(t, id)
            || (WritesOne(t, u) && u.history[|t.history|].order == id
                && Writes(RecordOf(t, id), RecordOf(u, id), u.history[|t.history|]))
  {
  }

  lemma LinkedMore(rows: seq<HistoryRow>, row: HistoryRow)
    ensures Linked(rows + [row]) <==> Linked(rows) && (rows != [] ==> rows[|rows| - 1].after == row.before)
  {
    var more := rows + [row];
    if Linked(more) {
      forall k | 0 <= k < |rows| - 1
        ensures rows[k].after == rows[k + 1].before
      {
        assert more[k].after == more[k + 1].before;
      }
      assert rows != [] ==> more[|rows| - 1].after == more[|rows| - 1 + 1].before;
    }
  }

  lemma WriteKeepsChain(r: Record, s: Record, row: HistoryRow)
    requires Writes(r, s, row)
    ensures r.Chained() ==> s.Chained()
    ensures r.Torn() ==> s.Torn()
  {
    LinkedMore(r.rows, row);
    hide Linked;
  }

  /** The step moves the order through checkout although it has rows. */
  predicate LateCheckout(t: Tables, e: Event, id: int) {
    && id in t.orders && OrderRows(t.history, id) != []
    && ((e.DetailsSaved? && e.order == id && t.orders[id].user == e.user && t.orders[id].status == Draft)
        || (e.CheckedOut? && e.order == id && t.orders[id].user == e.user
            && t.orders[id].status == ShipmentDetailsCompleted && e.complete))
  }

  ghost predicate KeepsChain(t: Tables, u: Tables, id: int) {
    && (RecordOf(t, id).Chained() ==> RecordOf(u, id).Chained())
    && (RecordOf(t, id).Torn() ==> RecordOf(u, id).Torn())
  }

  /** Rows belong to orders. */
  predicate NoStrayRows(t: Tables, id: int) {
    id !in t.orders ==> OrderRows(t.history, id) == []
  }

  lemma WriteKeeps(t: Tables, u: Tables, id: int)
    requires (Unwritten(t, u) || WritesOne(t, u)) && NoStrayRows(t, id)
    ensures KeepsChain(t, u, id) && NoStrayRows(u, id)
  {
    WriteRecord(t, u, id);
    if RecordOf(u, id) != RecordOf(t, id) {
      WriteKeepsChain(RecordOf(t, id), RecordOf(u, id), u.history[|t.history|]);
    }
  }

  lemma ConfirmKeepsChain(
    t: Tables, tx: int, accepted: set<TxStatus>, actor: Option<int>, source: string, settings: W.Settings, id: int)
    requires NoStrayRows(t, id)
    ensures var u := W.ConfirmPayment(t, tx, accepted, actor, source, settings).0;
            KeepsChain(t, u, id) && NoStrayRows(u, id)
  {
    hide RecordOf;
    var u := W.ConfirmPayment(t, tx, accepted, actor, source, settings).0;
    ConfirmWrites(t, tx, accepted, actor, source, settings);
    hide W.ConfirmPayment;
    if Unwritten(t, u) {
      WriteKeeps(t, u, id);
    } else {
      WriteKeeps(t, PaidOnly(t, tx, actor, source), id);
      WriteKeeps(PaidOnly(t, tx, actor, source), u, id);
    }
  }

  /** Late is: the status moves and there are rows. */
  lemma CheckoutRecord(t: Tables, e: Event, id: int)
    requires IsCheckout(e)
    ensures var r, s := RecordOf(t, id), RecordOf(OtherStep(t, e), id);
            && s.rows == r.rows
            && (s.status == r.status || (r.status == None && s.status == Some(Draft))
                || (r.status == Some(Draft) && s.status == Some(ShipmentDetailsCompleted))
                || (r.status == Some(ShipmentDetailsCompleted) && s.status == Some(ReadyForCheckout)))
            && (LateCheckout(t, e, id) <==> r.rows != [] && r.status.Some? && s.status != r.status)
  {
  }

  lemma CheckoutKeepsChain(t: Tables, e: Event, id: int)
    requires IsCheckout(e) && NoStrayRows(t, id)
    ensures NoStrayRows(OtherStep(t, e), id)
    ensures !LateCheckout(t, e, id) ==> KeepsChain(t, OtherStep(t, e), id)
    ensures LateCheckout(t, e, id) && (RecordOf(t, id).Chained() || RecordOf(t, id).Torn()) ==>
              RecordOf(OtherStep(t, e), id).Torn()
  {
    CheckoutRecord(t, e, id);
    hide LateCheckout;
    hide OtherStep;
    hide Linked;
    hide OrderRows;
  }

  lemma StepChain(t: Tables, e: Timed, id: int)
    requires NoStrayRows(t, id)
    ensures NoStrayRows(Step(t, e), id)
    ensures !LateCheckout(t, e.event, id) ==> KeepsChain(t, Step(t, e), id)
    ensures LateCheckout(t, e.event, id) && (RecordOf(t, id).Chained() || RecordOf(t, id).Torn()) ==>
              RecordOf(Step(t, e), id).Torn()
  {
    var woken, u := Wait(t, e.elapsed), Step(t, e);
    assert RecordOf(woken, id) == RecordOf(t, id);
    hide RecordOf;
    hide OtherStep;
    hide ServiceStep;
    hide PaymentStep;
    if IsService(e.event) {
      ServiceWrites(woken, e.event);
      WriteKeeps(woken, u, id);
    } else if IsConfirmation(e.event) {
      ConfirmationChain(woken, e.event, id);
    } else if IsPayment(e.event) {
      PaymentWrites(woken, e.event);
      WriteKeeps(woken, u, id);
    } else if IsCheckout(e.event) {
      CheckoutKeepsChain(woken, e.event, id);
    } else {
      OtherWritesOne(woken, e.event);
      WriteKeeps(woken, u, id);
    }
  }

  lemma ConfirmationChain(t: Tables, e: Event, id: int)
    requires IsConfirmation(e) && NoStrayRows(t, id)
    ensures KeepsChain(t, PaymentStep(t, e), id) && NoStrayRows(PaymentStep(t, e), id)
  {
    hide RecordOf;
    hide W.ConfirmPayment;
    if e.PaymentApproved? {
      ConfirmKeepsChain(t, e.tx, W.REVIEWED, Some(e.admin), "admin", e.settings, id);
    } else {
      ConfirmKeepsChain(t, e.tx, W.AUTO_CONFIRM, None, e.source, e.settings, id);
    }
  }

  lemma OtherWritesOne(t: Tables, e: Event)
    requires !IsService(e) && !IsPayment(e) && !IsCheckout(e)
    ensures Unwritten(t, OtherStep(t, e)) || WritesOne(t, OtherStep(t, e))
  {
    if e.AdminOverrides? {
      OverrideWrites(t, e.order, e.next, e.admin);
    } else {
      OtherWrites(t, e);
    }
  }

  // ---- every run, overrides included ----

  predicate LateAt(es: seq<Timed>, i: nat, id: int)
    requires i < |es|
  {
    LateCheckout(Run(es[..i]), es[i].event, id)
  }

  lemma LatePrefix(es: seq<Timed>, i: nat, id: int)
    requires i < |es| - 1
    ensures LateAt(es[..|es| - 1], i, id) == LateAt(es, i, id)
  {
    var before := es[..|es| - 1];
    assert before[..i] == es[..i] && before[i] == es[i];
  }

  lemma {:induction false} RunChain(es: seq<Timed>, id: int)
    ensures NoStrayRows(Run(es), id)
    ensures (exists i :: 0 <= i < |es| && LateAt(es, i, id)) ==> RecordOf(Run(es), id).Torn()
    ensures !(exists i :: 0 <= i < |es| && LateAt(es, i, id)) ==> RecordOf(Run(es), id).Chained()
  {
    hide Step;
    hide LateCheckout;
    if es != [] {
      var n := |es| - 1;
      RunChain(es[..n], id);
      StepChain(Run(es[..n]), es[n], id);
      assert LateAt(es, n, id) == LateCheckout(Run(es[..n]), es[n].event, id);
      hide LateAt;
      hide RecordOf;
      forall i | 0 <= i < n
        ensures LateAt(es[..n], i, id) == LateAt(es, i, id)
      {
        LatePrefix(es, i, id);
      }
    }
  }

  /**
   In every run, admin overrides included: an order's rows are a chain that ends at its present status if
   and only if checkout never moved it when it already had rows.
   */
  lemma HistoryChained(es: seq<Timed>, id: int)
    ensures RecordOf(Run(es), id).Chained() <==> !(exists i :: 0 <= i < |es| && LateAt(es, i, id))
  {
    hide Run;
    RunChain(es, id);
  }

  // ---- orders nobody overrode ----

  /** No admin override of this order. */
  predicate Untampered(es: seq<Timed>, id: int) {
    forall i :: 0 <= i < |es| ==> !(es[i].event.AdminOverrides? && es[i].event.order == id)
  }

  /** A chain along the graph that starts in checkout; no rows as long as checkout lasts. */
  ghost predicate Tidy(r: Record) {
    && r.Chained()
    && (forall k :: 0 <= k < |r.rows| ==> CanTransition(r.rows[k].before, r.rows[k].after) && !ByCheckout(r.rows[k].after))
    && (r.rows == [] && r.status.Some? ==> ByCheckout(r.status.value))
    && (r.rows != [] ==> ByCheckout(r.rows[0].before))
  }

  lemma WriteKeepsTidy(t: Tables, u: Tables, id: int)
    requires Tidy(RecordOf(t, id))
    requires Unwritten(t, u) || WritesLawfully(t, u) || (WritesOne(t, u) && u.history[|t.history|].order != id)
    ensures Tidy(RecordOf(u, id))
  {
    WriteRecord(t, u, id);
  }

  lemma ConfirmKeepsTidy(
    t: Tables, tx: int, accepted: set<TxStatus>, actor: Option<int>, source: string, settings: W.Settings, id: int)
    requires Tidy(RecordOf(t, id))
    ensures Tidy(RecordOf(W.ConfirmPayment(t, tx, accepted, actor, source, settings).0, id))
  {
    var u := W.ConfirmPayment(t, tx, accepted, actor, source, settings).0;
    ConfirmWrites(t, tx, accepted, actor, source, settings);
    hide W.ConfirmPayment;
    hide Tidy;
    hide RecordOf;
    if Unwritten(t, u) {
      WriteKeepsTidy(t, u, id);
    } else {
      WriteKeepsTidy(t, PaidOnly(t, tx, actor, source), id);
      WriteKeepsTidy(PaidOnly(t, tx, actor, source), u, id);
    }
  }

  lemma CheckoutKeepsTidy(t: Tables, e: Event, id: int)
    requires IsCheckout(e) && Tidy(RecordOf(t, id)) && NoStrayRows(t, id)
    ensures Tidy(RecordOf(OtherStep(t, e), id))
    ensures !LateCheckout(t, e, id)
  {
  }

  lemma StepKeepsTidy(t: Tables, e: Timed, id: int)
    requires Tidy(RecordOf(t, id)) && NoStrayRows(t, id)
    requires !(e.event.AdminOverrides? && e.event.order == id)
    ensures Tidy(RecordOf(Step(t, e), id)) && !LateCheckout(t, e.event, id)
  {
    var woken, u := Wait(t, e.elapsed), Step(t, e);
    assert RecordOf(woken, id) == RecordOf(t, id);
    hide RecordOf;
    hide Tidy;
    hide ServiceStep;
    hide W.ConfirmPayment;
    if IsService(e.event) {
      ServiceWrites(woken, e.event);
      WriteKeepsTidy(woken, u, id);
    } else if e.event.PaymentApproved? {
      ConfirmKeepsTidy(woken, e.event.tx, W.REVIEWED, Some(e.event.admin), "admin", e.event.settings, id);
    } else if e.event.PaymentAutoConfirmed? {
      ConfirmKeepsTidy(woken, e.event.tx, W.AUTO_CONFIRM, None, e.event.source, e.event.settings, id);
    } else {
      hide PaymentStep;
      if IsPayment(e.event) {
        PaymentWrites(woken, e.event);
        WriteKeepsTidy(woken, u, id);
      } else if IsCheckout(e.event) {
        CheckoutKeepsTidy(woken, e.event, id);
      } else if e.event.AdminOverrides? {
        OverrideWrites(woken, e.event.order, e.event.next, e.event.admin);
        WriteKeepsTidy(woken, u, id);
      } else {
        hide OtherStep;
        OtherWrites(woken, e.event);
        WriteKeepsTidy(woken, u, id);
      }
    }
  }

  lemma {:induction false} RunKeepsTidy(es: seq<Timed>, id: int)
    requires Untampered(es, id)
    ensures Tidy(RecordOf(Run(es), id))
    ensures !(exists i :: 0 <= i < |es| && LateAt(es, i, id))
  {
    hide Step;
    hide LateCheckout;
    if es != [] {
      var n := |es| - 1;
      RunKeepsTidy(es[..n], id);
      RunChain(es[..n], id);
      StepKeepsTidy(Run(es[..n]), es[n], id);
      assert LateAt(es, n, id) == LateCheckout(Run(es[..n]), es[n].event, id);
      hide LateAt;
      hide Tidy;
      hide RecordOf;
      forall i | 0 <= i < n
        ensures LateAt(es[..n], i, id) == LateAt(es, i, id)
      {
        LatePrefix(es, i, id);
      }
    }
  }

  /** The statuses the rows tell of, first to last. */
  function Trail(rows: seq<HistoryRow>): (trail: seq<Status>)
    requires rows != []
    ensures |trail| == |rows| + 1 && trail[0] == rows[0].before
    ensures forall k :: 0 <= k < |rows| ==> trail[k + 1] == rows[k].after
  {
    [rows[0].before] + seq(|rows|, k requires 0 <= k < |rows| => rows[k].after)
  }

  lemma TidyTrail(r: Record)
    requires Tidy(r) && r.rows != []
    ensures GraphRun(Trail(r.rows))
  {
    var trail := Trail(r.rows);
    forall k | 0 <= k < |trail| - 1
      ensures CanTransition(trail[k], trail[k + 1])
    {
      assert CanTransition(r.rows[k].before, r.rows[k].after);
      if k > 0 {
        assert r.rows[k - 1].after == r.rows[k - 1 + 1].before && trail[k - 1 + 1] == r.rows[k - 1].after;
      }
    }
  }

  lemma TidyShowsPayment(r: Record)
    requires Tidy(r) && r.rows != [] && r.status.Some?
    ensures var trail := Trail(r.rows);
            GraphRun(trail) && ByCheckout(trail[0]) && trail[|trail| - 1] == r.status.value
    ensures Phase(r.status.value) != UNPAID && r.status.value != Cancelled ==>
              exists k :: 0 <= k < |r.rows| && r.rows[k].after == Paid
  {
    TidyTrail(r);
    var trail := Trail(r.rows);
    assert trail[|r.rows| - 1 + 1] == r.rows[|r.rows| - 1].after;
    if Phase(r.status.value) != UNPAID && r.status.value != Cancelled {
      hide GraphRun;
      OnlyThroughPaid(trail, |trail| - 1);
      var i :| 0 < i < |trail| && trail[i] == Paid;
      assert trail[i - 1 + 1] == r.rows[i - 1].after;
    }
  }

  /**
   Of an order nobody overrode, in any run: no rows means it is still in checkout; else the rows are a run
   of the graph from a checkout status to the present one.  So an order being dispatched, delivered or
   returned has its payment on record.
   */
  lemma HistoryShowsPayment(es: seq<Timed>, id: int)
    requires Untampered(es, id) && id in Run(es).orders
    ensures var status, rows := Run(es).orders[id].status, OrderRows(Run(es).history, id);
            && (rows == [] <==> ByCheckout(status))
            && (rows != [] ==>
                  var trail := Trail(rows);
                  GraphRun(trail) && ByCheckout(trail[0]) && trail[|trail| - 1] == status)
            && (Phase(status) != UNPAID && status != Cancelled ==> exists k :: 0 <= k < |rows| && rows[k].after == Paid)
  {
    hide Run;
    hide GraphRun;
    hide Trail;
    RunKeepsTidy(es, id);
    var r := RecordOf(Run(es), id);
    if r.rows != [] {
      TidyShowsPayment(r);
    }
  }

  lemma NeverInManualQueue(es: seq<Timed>, id: int)
    requires OnGraph(es) && id in Run(es).orders
    ensures Run(es).orders[id].status != PendingManual && Run(es).orders[id].status != PendingManualDispatch
  {
    hide Step;
    HistoryShowsPayment(es, id);
    var rows := OrderRows(Run(es).history, id);
    if rows != [] {
      var trail := Trail(rows);
      assert CanTransition(trail[|trail| - 2], trail[|trail| - 2 + 1]);
      NothingEntersManualQueues(trail[|trail| - 2], trail[|trail| - 1]);
    }
  }

  /** Without overrides no order is ever in a manual queue, so the portal's reject never succeeds. */
  lemma PortalRejectIsDead(es: seq<Timed>, carrier: string, order: int, actor: int, text: string)
    requires OnGraph(es)
    ensures W.PortalReject(Run(es), carrier, order, actor, text).1 != W.Done
  {
    hide Step;
    if W.OwnOrder(Run(es), carrier, order) {
      NeverInManualQueue(es, order);
      W.RejectOnlyFromManualQueues(Run(es), carrier, order, actor, text);
    }
  }
}
