/**
 Money over whole runs.  The status graph lets an order be paid once, so it gets at most one active
 commission; cancelling through the service then nets its ledger to zero and turns every paid
 transaction into a pending refund.
 */
module MoneyLaws {
  import opened Prelude
  import opened OrderStatus
  import opened Store
  import opened Cancellations
  import opened World
  import C = Commissions
  import W = Writers

  // ---- the invariant ----

  /** Only orders past the unpaid stage have commission rows, one of them active at most. */
  ghost predicate LedgerOk(t: Tables) {
    && (forall i :: 0 <= i < |t.ledger| ==>
          t.ledger[i].order in t.orders && Phase(t.orders[t.ledger[i].order].status) != UNPAID)
    && (forall order :: C.AtMostOneActive(t.ledger, order))
    && C.Paired(t.ledger)
    && C.Netted(t.ledger)
  }

  predicate Settled(s: TxStatus) {
    s == TxPaid || s == TxRefundPending || s == TxRefunded
  }

  /** Money received belongs to an order past the unpaid stage; a pending refund, to a cancelled one. */
  ghost predicate TxOk(t: Tables, tx: Tx) {
    && tx.order in t.orders
    && (Settled(tx.status) ==> Phase(t.orders[tx.order].status) != UNPAID)
    && (tx.status == TxRefundPending ==> t.orders[tx.order].status == Cancelled)
  }

  ghost predicate TxsOk(t: Tables) {
    forall i :: 0 <= i < |t.txs| ==> TxOk(t, t.txs[i])
  }

  ghost predicate MoneyInv(t: Tables) {
    LedgerOk(t) && TxsOk(t)
  }

  // ---- preservation, table by table ----

  lemma SameLedger(t: Tables, u: Tables)
    requires LedgerOk(t) && OrdersFollow(t, u) && u.ledger == t.ledger
    ensures LedgerOk(u)
  {
  }

  lemma ReversedLedger(t: Tables, u: Tables, order: int, reason: string, now: int)
    requires LedgerOk(t) && OrdersFollow(t, u) && u.ledger == C.Reverse(t.ledger, order, reason, now)
    ensures LedgerOk(u)
  {
    C.ReverseKeepsPaired(t.ledger, order, reason, now);
    C.ReverseKeepsNetted(t.ledger, order, reason, now);
    forall i | 0 <= i < |u.ledger|
      ensures u.ledger[i].order in u.orders && Phase(u.orders[u.ledger[i].order].status) != UNPAID
    {
      var k := if i < |t.ledger| then i else C.FindActive(t.ledger, order).value;
      assert u.ledger[i].order == t.ledger[k].order;
      FollowsFacts(t.orders[t.ledger[k].order].status, u.orders[t.ledger[k].order].status);
    }
    forall other
      ensures C.AtMostOneActive(u.ledger, other)
    {
      assert C.AtMostOneActive(t.ledger, other);
    }
  }

  /** The first commission of an order: before its payment it has no row at all. */
  lemma RecordedLedger(t: Tables, u: Tables, row: C.Row)
    requires LedgerOk(t) && OrdersFollow(t, u) && u.ledger == t.ledger + [row]
    requires row.status == C.Active && row.order in t.orders
    requires Phase(t.orders[row.order].status) == UNPAID && Phase(u.orders[row.order].status) != UNPAID
    ensures LedgerOk(u)
  {
    C.RecordKeepsPaired(t.ledger, row);
    C.RecordKeepsNetted(t.ledger, row);
    forall i | 0 <= i < |u.ledger|
      ensures u.ledger[i].order in u.orders && Phase(u.orders[u.ledger[i].order].status) != UNPAID
    {
      if i < |t.ledger| {
        FollowsFacts(t.orders[t.ledger[i].order].status, u.orders[t.ledger[i].order].status);
      }
    }
    forall order
      ensures C.AtMostOneActive(u.ledger, order)
    {
      assert C.AtMostOneActive(t.ledger, order);
      forall i, j | 0 <= i < j < |u.ledger| && C.IsActive(u.ledger[i], order)
        ensures !C.IsActive(u.ledger[j], order)
      {
        if j == |t.ledger| {
          assert t.ledger[i].order != row.order;
        }
      }
    }
  }

  /** Transactions kept, or moved to statuses that are in order for the new tables. */
  lemma MovedTransactions(t: Tables, u: Tables)
    requires TxsOk(t) && OrdersFollow(t, u) && |u.txs| == |t.txs|
    requires forall i :: 0 <= i < |t.txs| ==>
               u.txs[i] == t.txs[i] || (u.txs[i].order == t.txs[i].order && TxOk(u, u.txs[i]))
    ensures TxsOk(u)
  {
  }

  // ---- preservation, step by step ----

  lemma FinalizedKeeps(t: Tables, id: int, reason: string, actor: int, source: string)
    requires MoneyInv(t) && id in t.orders && CanTransition(t.orders[id].status, Cancelled)
    ensures MoneyInv(Finalized(t, id, reason, actor, source))
  {
    var u := Finalized(t, id, reason, actor, source);
    assert OrdersFollow(t, u);
    ReversedLedger(t, u, id, source + ": " + reason, t.now);
    forall i | 0 <= i < |t.txs|
      ensures u.txs[i] == t.txs[i] || (u.txs[i].order == t.txs[i].order && TxOk(u, u.txs[i]))
    {
      assert TxOk(t, t.txs[i]);
    }
    MovedTransactions(t, u);
  }

  /** A step that leaves ledger and transactions alone. */
  lemma MoneyUntouched(t: Tables, u: Tables)
    requires MoneyInv(t) && OrdersFollow(t, u) && u.ledger == t.ledger && u.txs == t.txs
    ensures MoneyInv(u)
  {
    SameLedger(t, u);
    MovedTransactions(t, u);
  }

  lemma CloseKeeps(
    s: Tables, id: int, actor: int, comment: Option<string>, status: RequestStatus, source: string)
    requires MoneyInv(s) && HasRequest(s, id)
    ensures MoneyInv(Close(s, id, actor, comment, status, source).0)
  {
    var r := s.requests[id];
    var u := Close(s, id, actor, comment, status, source).0;
    if r.order in s.orders && CanTransition(s.orders[r.order].status, Cancelled) && Cancellable(s.orders[r.order].status) {
      var f := Finalized(s, r.order, r.reason, actor, source);
      FinalizedKeeps(s, r.order, r.reason, actor, source);
      MoneyUntouched(f, u);
    } else {
      MoneyUntouched(s, u);
    }
  }

  lemma CancelUnpaidKeeps(t: Tables, id: int, actor: int, reason: string)
    requires MoneyInv(t) && id in t.orders && UnpaidCancellable(t.orders[id].status)
    ensures MoneyInv(CancelUnpaid(t, id, actor, reason).0)
  {
    var closed := t.(txs := MoveTxs(t.txs, id, OPEN_TX, TxCancelled),
                     txHistory := t.txHistory + MoveRows(t.txs, id, OPEN_TX, TxCancelled, actor, reason));
    SameLedger(t, closed);
    forall i | 0 <= i < |t.txs|
      ensures closed.txs[i] == t.txs[i] || (closed.txs[i].order == t.txs[i].order && TxOk(closed, closed.txs[i]))
    {
      assert TxOk(t, t.txs[i]);
    }
    MovedTransactions(t, closed);
    FinalizedKeeps(closed, id, reason, actor, "customer_cancel_unpaid");
  }

  lemma CustomerKeeps(t: Tables, user: int, order: int, text: string, api: ApiCall)
    requires MoneyInv(t)
    ensures MoneyInv(RequestCancellation(t, user, order, text, api).0)
  {
    hide Cancellations.Finalized;
    hide Cancellations.CancelUnpaid;
    var u := RequestCancellation(t, user, order, text, api).0;
    CustomerFollows(t, user, order, text, api);
    if u.txs == t.txs && u.ledger == t.ledger {
      MoneyUntouched(t, u);
    } else if UnpaidCancellable(t.orders[order].status) {
      CancelUnpaidKeeps(t, order, user, Strip(text));
    } else {
      MoneyUntouched(t, Wait(t, api.took));
      FinalizedKeeps(Wait(t, api.took), order, Strip(text), user, "customer_cancel_via_api");
    }
  }

  lemma RetryApiKeeps(t: Tables, id: int, actor: int, api: ApiCall)
    requires MoneyInv(t)
    ensures MoneyInv(RetryApi(t, id, actor, api).0)
  {
    if IsPending(t, id) {
      var called := Wait(t, api.took);
      var r := t.requests[id].(apiAttempted := true);
      var s := SetRequest(called, id, r.(nextRetry := None));
      MoneyUntouched(t, s);
      CloseKeeps(s, id, actor, None, ApiCancelled, "admin_retry_api");
      MoneyUntouched(t, SetRequest(called, id, r.(apiError := TryApi(api.answer))));
    }
  }

  lemma AutoRetryKeeps(t: Tables, id: int, api: ApiCall)
    requires MoneyInv(t)
    ensures MoneyInv(AutoRetry(t, id, api).0)
  {
    if WillCall(t, id) && TryApi(api.answer).None? {
      var r := t.requests[id].(apiAttempted := true, nextRetry := None);
      var called := Wait(t, api.took).(attempts := t.attempts + [Attempt(id, t.now)]);
      MoneyUntouched(t, SetRequest(called, id, r));
      CloseKeeps(SetRequest(called, id, r), id, r.author, None, ApiCancelled, "auto_retry_api");
    } else {
      AutoRetryFollows(t, id, api);
      MoneyUntouched(t, AutoRetry(t, id, api).0);
    }
  }

  lemma ServiceKeeps(t: Tables, e: Event)
    requires MoneyInv(t) && IsService(e)
    ensures MoneyInv(ServiceStep(t, e).0)
  {
    hide MoneyInv;
    hide Close;
    hide RequestCancellation;
    hide RetryApi;
    hide AutoRetry;
    match e
    case Customer(user, order, text, api) => CustomerKeeps(t, user, order, text, api);
    case CarrierApproves(id, actor, carrier, comment) =>
      if HasRequest(t, id) {
        CloseKeeps(t, id, actor, comment, Approved, "carrier_approved");
      }
    case AdminApproves(id, actor, comment) =>
      if HasRequest(t, id) {
        CloseKeeps(t, id, actor, comment, Approved, "admin_approved");
      }
    case AdminRetries(id, actor, api) => RetryApiKeeps(t, id, actor, api);
    case WorkerRetries(id, api) => AutoRetryKeeps(t, id, api);
    case StaffRejects(id, actor, isAdmin, own, text) =>
      MoneyUntouched(t, Reject(t, id, actor, isAdmin, own, text).0);
  }

  lemma ConfirmKeeps(
    t: Tables, tx: int, accepted: set<TxStatus>, actor: Option<int>, source: string, settings: W.Settings)
    requires MoneyInv(t)
    ensures MoneyInv(W.ConfirmPayment(t, tx, accepted, actor, source, settings).0)
  {
    var u := W.ConfirmPayment(t, tx, accepted, actor, source, settings).0;
    if u != t {
      var order := t.txs[tx].order;
      assert TxOk(t, t.txs[tx]);
      ConfirmFollows(t, tx, accepted, actor, source, settings);
      RecordedLedger(t, u, u.ledger[|t.ledger|]);
      MovedTransactions(t, u);
    }
  }

  lemma RefundKeeps(t: Tables, tx: int, admin: int, text: string)
    requires MoneyInv(t)
    ensures MoneyInv(W.AdminRefund(t, tx, admin, text).0)
  {
    var u := W.AdminRefund(t, tx, admin, text).0;
    if u != t {
      assert TxOk(t, t.txs[tx]);
      RefundFollows(t, tx, admin, text);
      ReversedLedger(t, u, t.txs[tx].order, text, t.now);
      MovedTransactions(t, u);
    }
  }

  lemma DeclineKeeps(t: Tables, tx: int, admin: int, text: string)
    requires MoneyInv(t)
    ensures MoneyInv(W.RejectPayment(t, tx, admin, text).0)
  {
  }

  lemma SubmitKeeps(t: Tables, tx: int, order: int, actor: int)
    requires MoneyInv(t)
    ensures MoneyInv(W.SubmitProof(t, tx, order, actor).0)
  {
  }

  lemma OpenKeeps(t: Tables, order: int, actor: int, bankSet: bool)
    requires MoneyInv(t)
    ensures MoneyInv(W.OpenPayment(t, order, actor, bankSet).0)
  {
  }

  lemma ProviderCancelKeeps(t: Tables, order: int)
    requires MoneyInv(t)
    ensures MoneyInv(W.ProviderCancel(t, order).0)
  {
    var u := W.ProviderCancel(t, order).0;
    if u != t {
      ReversedLedger(t, u, order, "kaspi webhook: cancelled", t.now);
      MovedTransactions(t, u);
    }
  }

  lemma PaymentKeeps(t: Tables, e: Event)
    requires MoneyInv(t) && IsPayment(e)
    ensures MoneyInv(PaymentStep(t, e))
  {
    match e
    case PaymentOpened(order, actor, bankSet) => OpenKeeps(t, order, actor, bankSet);
    case ProofSubmitted(tx, order, actor) => SubmitKeeps(t, tx, order, actor);
    case PaymentApproved(tx, admin, settings) =>
      ConfirmKeeps(t, tx, W.REVIEWED, Some(admin), "admin", settings);
    case PaymentAutoConfirmed(tx, source, settings) =>
      ConfirmKeeps(t, tx, W.AUTO_CONFIRM, None, source, settings);
    case PaymentDeclined(tx, admin, text) => DeclineKeeps(t, tx, admin, text);
    case Refunded(tx, admin, text) => RefundKeeps(t, tx, admin, text);
    case ProviderCancelled(order) => ProviderCancelKeeps(t, order);
  }

  lemma OthersLeaveMoney(t: Tables, e: Event)
    requires !IsService(e) && !IsPayment(e) && !e.AdminOverrides? && !e.TrackingAdded?
    ensures OtherStep(t, e).ledger == t.ledger && OtherStep(t, e).txs == t.txs
  {
  }

  lemma TrackingBooks(t: Tables, order: int, status: Status, raw: Option<string>, note: string, caption: string)
    ensures var u := W.AddTrackingEvent(t, order, status, raw, note, caption).0;
            && u.txs == t.txs
            && (u.ledger == t.ledger || u.ledger == C.Reverse(t.ledger, order, "carrier tracking: " + caption, t.now))
  {
    hide W.Tracked;
    hide CanTransition;
    hide C.Reverse;
  }

  lemma TrackingKeeps(t: Tables, order: int, status: Status, raw: Option<string>, note: string, caption: string)
    requires MoneyInv(t)
    ensures MoneyInv(W.AddTrackingEvent(t, order, status, raw, note, caption).0)
  {
    var u := W.AddTrackingEvent(t, order, status, raw, note, caption).0;
    TrackingFollows(t, order, status, raw, note, caption);
    TrackingBooks(t, order, status, raw, note, caption);
    hide W.AddTrackingEvent;
    hide C.Reverse;
    hide OrdersFollow;
    hide LedgerOk;
    hide TxOk;
    if u.ledger == t.ledger {
      MoneyUntouched(t, u);
    } else {
      ReversedLedger(t, u, order, "carrier tracking: " + caption, t.now);
      MovedTransactions(t, u);
    }
  }

  lemma StepKeeps(t: Tables, e: Timed)
    requires MoneyInv(t) && !e.event.AdminOverrides?
    ensures MoneyInv(Step(t, e))
  {
    var woken := Wait(t, e.elapsed);
    MoneyUntouched(t, woken);
    if IsService(e.event) {
      ServiceKeeps(woken, e.event);
    } else if IsPayment(e.event) {
      PaymentKeeps(woken, e.event);
    } else if e.event.TrackingAdded? {
      TrackingKeeps(woken, e.event.order, e.event.status, e.event.raw, e.event.note, e.event.caption);
    } else {
      OthersLeaveMoney(woken, e.event);
      OtherFollows(woken, e.event);
      MoneyUntouched(woken, OtherStep(woken, e.event));
    }
  }

  lemma {:induction false} RunKeeps(t: Tables, es: seq<Timed>)
    requires MoneyInv(t) && OnGraph(es)
    ensures MoneyInv(RunFrom(t, es))
  {
    hide Step;
    if es != [] {
      RunKeeps(t, es[..|es| - 1]);
      StepKeeps(RunFrom(t, es[..|es| - 1]), es[|es| - 1]);
    }
  }
}
