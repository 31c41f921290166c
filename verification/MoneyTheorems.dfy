/** What cancelling does to an order's money, over whole runs. */
module MoneyTheorems {
  import opened Prelude
  import opened OrderStatus
  import opened Store
  import opened Cancellations
  import opened World
  import opened MoneyLaws
  import R = RequestLaws
  import C = Commissions
  import W = Writers

  // ---- what one finalization does ----

  function OrderFilter(order: int): C.Filter {
    C.Filter(Some(order), None, None)
  }

  ghost predicate LedgerIsZero(t: Tables, order: int) {
    forall m :: C.IsMoney(m) ==> C.Total(t.ledger, m, OrderFilter(order)) == 0
  }

  /** Every paid transaction of the order waits for its refund, with its own row in the new history. */
  ghost predicate PaymentsReturned(t: Tables, u: Tables, order: int) {
    && |t.txs| == |u.txs| && |t.txHistory| <= |u.txHistory|
    && (forall i :: 0 <= i < |u.txs| ==> !(u.txs[i].order == order && u.txs[i].status == TxPaid))
    && (forall i :: 0 <= i < |t.txs| && t.txs[i].order == order && t.txs[i].status == TxPaid ==>
          && u.txs[i] == t.txs[i].(status := TxRefundPending)
          && exists actor, comment ::
               RowsFor(u.txHistory[|t.txHistory|..], i) == [TxRow(i, TxPaid, TxRefundPending, Some(actor), comment)])
    && (forall i :: 0 <= i < |t.txs| && !(t.txs[i].order == order && t.txs[i].status == TxPaid) ==>
          u.txs[i] == t.txs[i] && RowsFor(u.txHistory[|t.txHistory|..], i) == [])
  }

  ghost predicate OthersUntouched(t: Tables, u: Tables, order: int) {
    && |t.txs| == |u.txs|
    && (forall i :: 0 <= i < |t.txs| && t.txs[i].order != order ==> u.txs[i] == t.txs[i])
    && (forall other, m :: other != order ==>
          C.Total(u.ledger, m, OrderFilter(other)) == C.Total(t.ledger, m, OrderFilter(other)))
  }

  /** Jobs are cancelled only from the four statuses between payment and the carrier. */
  predicate BeforeCarrier(s: Status) {
    s == DispatchQueued || s == DispatchFailed || s == PendingManual || s == PendingManualDispatch
  }

  predicate StillToRun(j: Job, order: int) {
    j.order == order && (j.status == Queued || j.status == Failed)
  }

  /** The order's queued and failed jobs are cancelled, no other job changes, and none is left to run. */
  ghost predicate DispatchStopped(t: Tables, u: Tables, order: int)
    requires order in t.orders
  {
    && |u.jobs| == |t.jobs|
    && (BeforeCarrier(t.orders[order].status) ==> forall i :: 0 <= i < |u.jobs| ==> !StillToRun(u.jobs[i], order))
    && (forall i :: 0 <= i < |t.jobs| && u.jobs[i] != t.jobs[i] ==> u.jobs[i] == t.jobs[i].(status := JobCancelled))
    && forall i :: 0 <= i < |t.jobs| ==>
         (u.jobs[i] != t.jobs[i] <==> BeforeCarrier(t.orders[order].status) && StillToRun(t.jobs[i], order))
  }

  lemma FinalizedMoney(t: Tables, order: int, reason: string, actor: int, source: string)
    requires order in t.orders && LedgerOk(t)
    ensures var u := Finalized(t, order, reason, actor, source);
            LedgerIsZero(u, order) && PaymentsReturned(t, u, order)
            && OthersUntouched(t, u, order) && DispatchStopped(t, u, order)
  {
    var u := Finalized(t, order, reason, actor, source);
    forall m | C.IsMoney(m)
      ensures C.Total(u.ledger, m, OrderFilter(order)) == 0
    {
      C.ReversedOrderIsZero(t.ledger, order, source + ": " + reason, t.now, m);
    }
    forall other, m | other != order
      ensures C.Total(u.ledger, m, OrderFilter(other)) == C.Total(t.ledger, m, OrderFilter(other))
    {
      C.ReverseKeepsOtherOrders(t.ledger, order, source + ": " + reason, t.now, m, OrderFilter(other));
    }
    assert u.txHistory[|t.txHistory|..] == MoveRows(t.txs, order, PAID_TX, TxRefundPending, actor, reason);
    forall i | 0 <= i < |t.txs| && t.txs[i].order == order && t.txs[i].status == TxPaid
      ensures u.txs[i] == t.txs[i].(status := TxRefundPending)
      ensures RowsFor(u.txHistory[|t.txHistory|..], i) == [TxRow(i, TxPaid, TxRefundPending, Some(actor), reason)]
    {
      assert Hits(t.txs[i], order, PAID_TX);
      OneRowPerMove(t.txs, order, PAID_TX, TxRefundPending, actor, reason, i);
    }
    forall i | 0 <= i < |u.txs|
      ensures !(u.txs[i].order == order && u.txs[i].status == TxPaid)
      ensures !(t.txs[i].order == order && t.txs[i].status == TxPaid) ==>
                u.txs[i] == t.txs[i] && RowsFor(u.txHistory[|t.txHistory|..], i) == []
    {
      assert u.txs[i] == Moved(t.txs[i], order, PAID_TX, TxRefundPending);
      OneRowPerMove(t.txs, order, PAID_TX, TxRefundPending, actor, reason, i);
    }
    StoppedJobs(t, order, reason, actor, source);
  }

  lemma StoppedJobs(t: Tables, order: int, reason: string, actor: int, source: string)
    requires order in t.orders
    ensures DispatchStopped(t, Finalized(t, order, reason, actor, source), order)
  {
  }

  // ---- every cancellation by the service is one finalization ----

  /** `u` has the books of `v`: everything but the requests, the clock and the call log. */
  ghost predicate SameBooks(u: Tables, v: Tables) {
    u.orders == v.orders && u.ledger == v.ledger && u.txs == v.txs && u.txHistory == v.txHistory
    && u.jobs == v.jobs && u.history == v.history
  }

  ghost predicate FinalizedFrom(s: Tables, u: Tables, order: int)
    requires order in s.orders
  {
    exists reason, actor, source :: SameBooks(u, Finalized(s, order, reason, actor, source))
  }

  lemma CloseFinalizes(
    s: Tables, id: int, actor: int, comment: Option<string>, status: RequestStatus, source: string, order: int)
    requires HasRequest(s, id) && order in s.orders && s.orders[order].status != Cancelled
    requires Close(s, id, actor, comment, status, source).0.orders[order].status == Cancelled
    ensures FinalizedFrom(s, Close(s, id, actor, comment, status, source).0, order)
  {
  }

  lemma CustomerFinalizes(t: Tables, user: int, order: int, text: string, api: ApiCall)
    requires order in t.orders && t.orders[order].status != Cancelled && !UnpaidCancellable(t.orders[order].status)
    requires RequestCancellation(t, user, order, text, api).0.orders[order].status == Cancelled
    ensures FinalizedFrom(Wait(t, api.took), RequestCancellation(t, user, order, text, api).0, order)
  {
    var u := RequestCancellation(t, user, order, text, api).0;
    assert u == Finalized(Wait(t, api.took), order, Strip(text), user, "customer_cancel_via_api");
    assert SameBooks(u, Finalized(Wait(t, api.took), order, Strip(text), user, "customer_cancel_via_api"));
  }

  /** The state the finalization starts from: the books of `t`, at a later time. */
  lemma ServiceFinalizes(t: Tables, e: Event, order: int) returns (s: Tables)
    requires IsService(e) && order in t.orders && t.orders[order].status != Cancelled
    requires e.Customer? ==> e.order == order && !UnpaidCancellable(t.orders[order].status)
    requires order in ServiceStep(t, e).0.orders && ServiceStep(t, e).0.orders[order].status == Cancelled
    ensures SameBooks(s, t) && FinalizedFrom(s, ServiceStep(t, e).0, order)
  {
    match e
    case Customer(user, _, text, api) =>
      CustomerFinalizes(t, user, order, text, api);
      s := Wait(t, api.took);
    case CarrierApproves(id, actor, carrier, comment) =>
      CloseFinalizes(t, id, actor, comment, Approved, "carrier_approved", order);
      s := t;
    case AdminApproves(id, actor, comment) =>
      CloseFinalizes(t, id, actor, comment, Approved, "admin_approved", order);
      s := t;
    case AdminRetries(id, actor, api) =>
      s := SetRequest(Wait(t, api.took), id, t.requests[id].(apiAttempted := true, nextRetry := None));
      CloseFinalizes(s, id, actor, None, ApiCancelled, "admin_retry_api", order);
    case WorkerRetries(id, api) =>
      var r := t.requests[id].(apiAttempted := true, nextRetry := None);
      s := SetRequest(Wait(t, api.took).(attempts := t.attempts + [Attempt(id, t.now)]), id, r);
      CloseFinalizes(s, id, r.author, None, ApiCancelled, "auto_retry_api", order);
  }

  lemma OnlyOwnOrder(t: Tables, e: Event, order: int)
    requires e.Customer? && order in t.orders && order != e.order
    ensures ServiceStep(t, e).0.orders[order] == t.orders[order]
  {
  }

  // ---- the theorems ----

  /** The graph alone keeps an order from ever being paid, and charged, twice. */
  lemma OneActiveCommission(es: seq<Timed>, order: int)
    requires OnGraph(es)
    ensures C.AtMostOneActive(Run(es).ledger, order)
  {
    hide Step;
    RunKeeps(EMPTY, es);
  }

  /** An order in the unpaid stage has no commission and no money taken, at any time. */
  lemma UnpaidHasNoMoney(es: seq<Timed>, order: int)
    requires OnGraph(es) && order in Run(es).orders && Phase(Run(es).orders[order].status) == UNPAID
    ensures forall i :: 0 <= i < |Run(es).ledger| ==> Run(es).ledger[i].order != order
    ensures forall i :: 0 <= i < |Run(es).txs| && Run(es).txs[i].order == order ==> !Settled(Run(es).txs[i].status)
  {
    hide Step;
    RunKeeps(EMPTY, es);
    var t := Run(es);
    forall i | 0 <= i < |t.txs| && t.txs[i].order == order
      ensures !Settled(t.txs[i].status)
    {
      assert TxOk(t, t.txs[i]);
    }
  }

  /** The step took an order past payment to cancelled. */
  predicate CancelsPaidFor(t: Tables, u: Tables, order: int) {
    && order in t.orders && t.orders[order].status != Cancelled && Phase(t.orders[order].status) != UNPAID
    && order in u.orders && u.orders[order].status == Cancelled
  }

  /**
   Whenever the cancellation service turns a paid-for order cancelled, in any run on the graph: its
   ledger is zero in every column, its payments wait for their refund, its waiting jobs are cancelled, and
   no other order's money moves.
   */
  lemma ServiceCancellationNets(es: seq<Timed>, e: Timed, order: int)
    requires OnGraph(es) && IsService(e.event)
    ensures CancelsPaidFor(Run(es), Step(Run(es), e), order) ==>
              var t, u := Run(es), Step(Run(es), e);
              LedgerIsZero(u, order) && PaymentsReturned(t, u, order)
              && OthersUntouched(t, u, order) && DispatchStopped(t, u, order)
  {
    hide Finalized;
    hide LedgerIsZero;
    hide PaymentsReturned;
    hide OthersUntouched;
    hide DispatchStopped;
    hide ServiceStep;
    hide PaymentStep;
    hide OtherStep;
    var t := Run(es);
    var woken := Wait(t, e.elapsed);
    if CancelsPaidFor(t, Step(t, e), order) {
      RunKeeps(EMPTY, es);
      if e.event.Customer? && e.event.order != order {
        OnlyOwnOrder(woken, e.event, order);
      } else {
        var s := ServiceFinalizes(woken, e.event, order);
        var u := Step(t, e);
        var reason, actor, source :| SameBooks(u, Finalized(s, order, reason, actor, source));
        assert LedgerOk(s);
        FinalizedMoney(s, order, reason, actor, source);
        SameMoneyFacts(t, s, u, Finalized(s, order, reason, actor, source), order);
      }
    }
  }

  lemma SameMoneyFacts(t: Tables, s: Tables, u: Tables, v: Tables, order: int)
    requires order in t.orders && SameBooks(s, t) && SameBooks(u, v)
    requires LedgerIsZero(v, order) && PaymentsReturned(s, v, order)
    requires OthersUntouched(s, v, order) && DispatchStopped(s, v, order)
    ensures LedgerIsZero(u, order) && PaymentsReturned(t, u, order)
            && OthersUntouched(t, u, order) && DispatchStopped(t, u, order)
  {
  }

  lemma UnpaidStepIsFree(t: Tables, user: int, order: int, text: string, api: ApiCall)
    requires order in t.orders && UnpaidCancellable(t.orders[order].status)
    requires forall i :: 0 <= i < |t.ledger| ==> t.ledger[i].order != order
    requires forall i :: 0 <= i < |t.txs| && t.txs[i].order == order ==> t.txs[i].status != TxPaid
    ensures var u := RequestCancellation(t, user, order, text, api).0;
            && u.ledger == t.ledger
            && (u.txs == t.txs || u.txs == MoveTxs(t.txs, order, OPEN_TX, TxCancelled))
  {
    var closed := MoveTxs(t.txs, order, OPEN_TX, TxCancelled);
    var u := RequestCancellation(t, user, order, text, api).0;
    if u != t {
      assert u.txs == MoveTxs(closed, order, PAID_TX, TxRefundPending);
      forall i | 0 <= i < |t.txs|
        ensures u.txs[i] == closed[i]
      {
        assert closed[i] == Moved(t.txs[i], order, OPEN_TX, TxCancelled);
        assert u.txs[i] == Moved(closed[i], order, PAID_TX, TxRefundPending);
      }
    }
  }

  /** Cancelling before payment moves no money at all: there is none to return. */
  lemma UnpaidCancellationIsFree(es: seq<Timed>, elapsed: nat, user: int, order: int, text: string, api: ApiCall)
    requires OnGraph(es) && order in Run(es).orders && UnpaidCancellable(Run(es).orders[order].status)
    ensures var t, u := Run(es), RequestCancellation(Wait(Run(es), elapsed), user, order, text, api).0;
            && u.ledger == t.ledger
            && (u.txs == t.txs || u.txs == MoveTxs(t.txs, order, OPEN_TX, TxCancelled))
  {
    hide Step;
    hide Cancellations.RequestCancellation;
    UnpaidHasNoMoney(es, order);
    UnpaidStepIsFree(Wait(Run(es), elapsed), user, order, text, api);
  }

  // ---- refunds that cannot be completed ----

  lemma CloseLeavesRefund(
    s: Tables, id: int, actor: int, comment: Option<string>, status: RequestStatus, source: string, i: nat)
    requires HasRequest(s, id) && i < |s.txs| && s.txs[i].status == TxRefundPending
    ensures var u := Close(s, id, actor, comment, status, source).0; i < |u.txs| && u.txs[i] == s.txs[i]
  {
  }

  lemma CustomerLeavesRefund(t: Tables, user: int, order: int, text: string, api: ApiCall, i: nat)
    requires i < |t.txs| && t.txs[i].status == TxRefundPending
    ensures var u := RequestCancellation(t, user, order, text, api).0; i < |u.txs| && u.txs[i] == t.txs[i]
  {
  }

  lemma ServiceLeavesRefund(t: Tables, e: Event, i: nat)
    requires IsService(e) && i < |t.txs| && t.txs[i].status == TxRefundPending
    ensures i < |ServiceStep(t, e).0.txs| && ServiceStep(t, e).0.txs[i] == t.txs[i]
  {
    match e
    case Customer(user, order, text, api) => CustomerLeavesRefund(t, user, order, text, api, i);
    case CarrierApproves(id, actor, carrier, comment) =>
      if HasRequest(t, id) {
        CloseLeavesRefund(t, id, actor, comment, Approved, "carrier_approved", i);
      }
    case AdminApproves(id, actor, comment) =>
      if HasRequest(t, id) {
        CloseLeavesRefund(t, id, actor, comment, Approved, "admin_approved", i);
      }
    case AdminRetries(id, actor, api) =>
      if HasRequest(t, id) {
        var s := SetRequest(Wait(t, api.took), id, t.requests[id].(apiAttempted := true, nextRetry := None));
        CloseLeavesRefund(s, id, actor, None, ApiCancelled, "admin_retry_api", i);
      }
    case WorkerRetries(id, api) =>
      if HasRequest(t, id) {
        var r := t.requests[id].(apiAttempted := true, nextRetry := None);
        var s := SetRequest(Wait(t, api.took).(attempts := t.attempts + [Attempt(id, t.now)]), id, r);
        CloseLeavesRefund(s, id, r.author, None, ApiCancelled, "auto_retry_api", i);
      }
    case StaffRejects(id, actor, isAdmin, own, text) =>
  }

  lemma ConfirmLeavesRefund(
    t: Tables, tx: int, accepted: set<TxStatus>, actor: Option<int>, source: string, settings: W.Settings, i: nat)
    requires i < |t.txs| && t.txs[i].status == TxRefundPending && TxRefundPending !in accepted
    ensures var u := W.ConfirmPayment(t, tx, accepted, actor, source, settings).0; i < |u.txs| && u.txs[i] == t.txs[i]
  {
  }

  lemma PaymentLeavesRefund(t: Tables, e: Event, i: nat)
    requires IsPayment(e) && TxsOk(t) && i < |t.txs| && t.txs[i].status == TxRefundPending
    ensures i < |PaymentStep(t, e).txs| && PaymentStep(t, e).txs[i] == t.txs[i]
  {
    match e
    case PaymentOpened(order, actor, bankSet) =>
    case ProofSubmitted(tx, order, actor) =>
    case PaymentApproved(tx, admin, settings) =>
      ConfirmLeavesRefund(t, tx, W.REVIEWED, Some(admin), "admin", settings, i);
    case PaymentAutoConfirmed(tx, source, settings) =>
      ConfirmLeavesRefund(t, tx, W.AUTO_CONFIRM, None, source, settings, i);
    case PaymentDeclined(tx, admin, text) =>
    case Refunded(tx, admin, text) => PendingRefundIsRefused(t, i, admin, text);
    case ProviderCancelled(order) =>
  }

  /** A pending refund can be completed if and only if its order may still be cancelled; else nothing happens. */
  lemma RefundNeedsLiveOrder(t: Tables, i: nat, admin: int, text: string)
    requires i < |t.txs| && t.txs[i].status == TxRefundPending && t.txs[i].order in t.orders
    ensures W.AdminRefund(t, i, admin, text).1 == W.Done <==> CanTransition(t.orders[t.txs[i].order].status, Cancelled)
    ensures W.AdminRefund(t, i, admin, text).1 == W.Done || W.AdminRefund(t, i, admin, text) == (t, W.Invalid)
  {
  }

  /** In a database in order it may not: the order of a pending refund is cancelled. */
  lemma PendingRefundIsRefused(t: Tables, i: nat, admin: int, text: string)
    requires TxsOk(t) && i < |t.txs| && t.txs[i].status == TxRefundPending
    ensures W.AdminRefund(t, i, admin, text) == (t, W.Invalid)
  {
    assert TxOk(t, t.txs[i]);
    RefundNeedsLiveOrder(t, i, admin, text);
  }

  /**
   The refund an accepted cancellation asks for is never paid out by the refund endpoint: it refuses
   cancelled orders, and the order of a pending refund is cancelled for good.
   */
  lemma {:induction false} PendingRefundIsStuck(t: Tables, es: seq<Timed>, i: nat)
    requires MoneyInv(t) && OnGraph(es) && i < |t.txs| && t.txs[i].status == TxRefundPending
    ensures i < |RunFrom(t, es).txs| && RunFrom(t, es).txs[i] == t.txs[i]
    ensures forall admin, text :: W.AdminRefund(RunFrom(t, es), i, admin, text) == (RunFrom(t, es), W.Invalid)
  {
    hide Step;
    var u := RunFrom(t, es);
    RunKeeps(t, es);
    if es != [] {
      var n := |es| - 1;
      var before := RunFrom(t, es[..n]);
      PendingRefundIsStuck(t, es[..n], i);
      RunKeeps(t, es[..n]);
      RefundStep(before, es[n], i);
    }
    forall admin, text
      ensures W.AdminRefund(u, i, admin, text) == (u, W.Invalid)
    {
      PendingRefundIsRefused(u, i, admin, text);
    }
  }

  lemma RefundStep(t: Tables, e: Timed, i: nat)
    requires MoneyInv(t) && !e.event.AdminOverrides? && i < |t.txs| && t.txs[i].status == TxRefundPending
    ensures i < |Step(t, e).txs| && Step(t, e).txs[i] == t.txs[i]
  {
    var woken := Wait(t, e.elapsed);
    MoneyUntouched(t, woken);
    if IsService(e.event) {
      ServiceLeavesRefund(woken, e.event, i);
    } else if IsPayment(e.event) {
      PaymentLeavesRefund(woken, e.event, i);
    } else if !e.event.TrackingAdded? {
      OthersLeaveMoney(woken, e.event);
    }
  }
}
