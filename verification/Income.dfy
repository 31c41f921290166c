/**
 Every paid-for order that is not cancelled has its payment and its commission on the books, in every run on
 the graph.  So a cancellation that leaves the books alone always leaves money behind.
 */
module Income {
  import opened Prelude
  import opened OrderStatus
  import opened Store
  import opened Cancellations
  import opened World
  import opened MoneyLaws
  import opened MoneyTheorems
  import opened HistoryLaws
  import C = Commissions
  import W = Writers

  /** Paid for, and not cancelled since. */
  predicate Earning(s: Status) {
    Phase(s) != UNPAID && s != Cancelled
  }

  ghost predicate HasActive(t: Tables, order: int) {
    exists i :: 0 <= i < |t.ledger| && C.IsActive(t.ledger[i], order)
  }

  ghost predicate HasPaid(t: Tables, order: int) {
    exists i :: 0 <= i < |t.txs| && t.txs[i].order == order && t.txs[i].status == TxPaid
  }

  ghost predicate IncomeOk(t: Tables) {
    forall id :: id in t.orders && Earning(t.orders[id].status) ==> HasActive(t, id) && HasPaid(t, id)
  }

  predicate Gone(t: Tables, order: int) {
    order in t.orders ==> t.orders[order].status == Cancelled
  }

  /** Active rows and received payments stay, but for orders that are cancelled afterwards. */
  ghost predicate KeepsIncome(t: Tables, u: Tables) {
    && |t.ledger| <= |u.ledger| && |t.txs| <= |u.txs|
    && (forall i :: 0 <= i < |t.ledger| && t.ledger[i].status == C.Active ==>
          u.ledger[i] == t.ledger[i] || Gone(u, t.ledger[i].order))
    && (forall i :: 0 <= i < |t.txs| && t.txs[i].status == TxPaid ==>
          u.txs[i] == t.txs[i] || Gone(u, t.txs[i].order))
  }

  lemma FinalizedKeepsIncome(t: Tables, id: int, reason: string, actor: int, source: string)
    requires id in t.orders
    ensures KeepsIncome(t, Finalized(t, id, reason, actor, source))
  {
  }

  lemma CloseKeepsIncome(
    s: Tables, id: int, actor: int, comment: Option<string>, status: RequestStatus, source: string)
    requires HasRequest(s, id)
    ensures KeepsIncome(s, Close(s, id, actor, comment, status, source).0)
  {
    var r := s.requests[id];
    if r.order in s.orders {
      FinalizedKeepsIncome(s, r.order, r.reason, actor, source);
    }
  }

  lemma CancelUnpaidKeepsIncome(t: Tables, id: int, actor: int, reason: string)
    requires id in t.orders
    ensures KeepsIncome(t, CancelUnpaid(t, id, actor, reason).0)
  {
    var closed := t.(txs := MoveTxs(t.txs, id, OPEN_TX, TxCancelled),
                     txHistory := t.txHistory + MoveRows(t.txs, id, OPEN_TX, TxCancelled, actor, reason));
    FinalizedKeepsIncome(closed, id, reason, actor, "customer_cancel_unpaid");
    hide Finalized;
  }

  lemma CustomerKeepsIncome(t: Tables, user: int, order: int, text: string, api: ApiCall)
    ensures KeepsIncome(t, RequestCancellation(t, user, order, text, api).0)
  {
    hide Finalized;
    hide CancelUnpaid;
    if order in t.orders {
      FinalizedKeepsIncome(Wait(t, api.took), order, Strip(text), user, "customer_cancel_via_api");
      CancelUnpaidKeepsIncome(t, order, user, Strip(text));
    }
  }

  lemma ServiceKeepsIncome(t: Tables, e: Event)
    requires IsService(e)
    ensures KeepsIncome(t, ServiceStep(t, e).0)
  {
    hide RequestCancellation;
    hide Close;
    hide Gone;
    hide CanTransition;
    match e
    case Customer(user, order, text, api) => CustomerKeepsIncome(t, user, order, text, api);
    case CarrierApproves(id, actor, carrier, comment) =>
      if HasRequest(t, id) {
        CloseKeepsIncome(t, id, actor, comment, Approved, "carrier_approved");
      }
    case AdminApproves(id, actor, comment) =>
      if HasRequest(t, id) {
        CloseKeepsIncome(t, id, actor, comment, Approved, "admin_approved");
      }
    case AdminRetries(id, actor, api) =>
      if HasRequest(t, id) {
        var s := SetRequest(Wait(t, api.took), id, t.requests[id].(apiAttempted := true, nextRetry := None));
        CloseKeepsIncome(s, id, actor, None, ApiCancelled, "admin_retry_api");
      }
    case WorkerRetries(id, api) =>
      if HasRequest(t, id) {
        var r := t.requests[id].(apiAttempted := true, nextRetry := None);
        var s := SetRequest(Wait(t, api.took).(attempts := t.attempts + [Attempt(id, t.now)]), id, r);
        CloseKeepsIncome(s, id, r.author, None, ApiCancelled, "auto_retry_api");
      }
    case StaffRejects(id, actor, isAdmin, own, text) =>
  }

  lemma ConfirmKeepsIncome(
    t: Tables, tx: int, accepted: set<TxStatus>, actor: Option<int>, source: string, settings: W.Settings)
    requires TxPaid !in accepted
    ensures KeepsIncome(t, W.ConfirmPayment(t, tx, accepted, actor, source, settings).0)
  {
  }

  lemma RefundKeepsIncome(t: Tables, tx: int, admin: int, text: string)
    ensures KeepsIncome(t, W.AdminRefund(t, tx, admin, text).0)
  {
  }

  lemma ProviderKeepsIncome(t: Tables, order: int)
    ensures KeepsIncome(t, W.ProviderCancel(t, order).0)
  {
  }

  lemma OpeningKeepsIncome(t: Tables, order: int, actor: int, bankSet: bool)
    ensures KeepsIncome(t, W.OpenPayment(t, order, actor, bankSet).0)
  {
    hide CanTransition;
  }

  lemma ProofKeepsIncome(t: Tables, tx: int, order: int, actor: int)
    ensures KeepsIncome(t, W.SubmitProof(t, tx, order, actor).0)
  {
    hide CanTransition;
  }

  lemma PaymentKeepsIncome(t: Tables, e: Event)
    requires IsPayment(e)
    ensures KeepsIncome(t, PaymentStep(t, e))
  {
    hide W.OpenPayment;
    hide W.SubmitProof;
    hide W.ConfirmPayment;
    hide W.AdminRefund;
    hide W.ProviderCancel;
    hide CanTransition;
    match e
    case PaymentApproved(tx, admin, settings) =>
      ConfirmKeepsIncome(t, tx, W.REVIEWED, Some(admin), "admin", settings);
    case PaymentAutoConfirmed(tx, source, settings) =>
      ConfirmKeepsIncome(t, tx, W.AUTO_CONFIRM, None, source, settings);
    case Refunded(tx, admin, text) => RefundKeepsIncome(t, tx, admin, text);
    case ProviderCancelled(order) => ProviderKeepsIncome(t, order);
    case PaymentOpened(order, actor, bankSet) => OpeningKeepsIncome(t, order, actor, bankSet);
    case ProofSubmitted(tx, order, actor) => ProofKeepsIncome(t, tx, order, actor);
    case PaymentDeclined(_, _, _) =>
  }

  lemma OtherKeepsIncome(t: Tables, e: Event)
    requires !IsService(e) && !IsPayment(e) && !e.AdminOverrides?
    ensures KeepsIncome(t, OtherStep(t, e))
  {
    if !e.TrackingAdded? {
      OthersLeaveMoney(t, e);
      hide OtherStep;
    }
  }

  lemma StepKeepsIncome(t: Tables, e: Timed)
    requires !e.event.AdminOverrides?
    ensures KeepsIncome(t, Step(t, e))
  {
    var woken := Wait(t, e.elapsed);
    hide ServiceStep;
    hide PaymentStep;
    hide OtherStep;
    if IsService(e.event) {
      ServiceKeepsIncome(woken, e.event);
    } else if IsPayment(e.event) {
      PaymentKeepsIncome(woken, e.event);
    } else {
      OtherKeepsIncome(woken, e.event);
    }
  }

  // ---- an order starts earning only by its payment ----

  lemma LawfulEarning(t: Tables, u: Tables, id: int)
    requires LawfulWrite(t, u) && id in u.orders && Earning(u.orders[id].status)
    ensures id in t.orders && Earning(t.orders[id].status)
  {
    if !Unwritten(t, u) {
      var row := u.history[|t.history|];
      StepKeepsPhase(row.before, row.after);
    }
  }

  lemma StepEarning(t: Tables, e: Timed, id: int)
    requires !e.event.AdminOverrides? && !IsConfirmation(e.event)
    requires id in Step(t, e).orders && Earning(Step(t, e).orders[id].status)
    ensures id in t.orders && Earning(t.orders[id].status)
  {
    var woken, u := Wait(t, e.elapsed), Step(t, e);
    hide ServiceStep;
    hide PaymentStep;
    if IsService(e.event) {
      ServiceWrites(woken, e.event);
      LawfulEarning(woken, u, id);
    } else if IsPayment(e.event) {
      PaymentWrites(woken, e.event);
      LawfulEarning(woken, u, id);
    } else if !IsCheckout(e.event) {
      hide OtherStep;
      OtherWrites(woken, e.event);
      LawfulEarning(woken, u, id);
    }
  }

  /** A confirmation earns for its own order, and then with an active row and a payment. */
  lemma ConfirmEarns(
    t: Tables, tx: int, accepted: set<TxStatus>, actor: Option<int>, source: string, settings: W.Settings, id: int)
    requires var u := W.ConfirmPayment(t, tx, accepted, actor, source, settings).0;
             id in u.orders && Earning(u.orders[id].status)
    ensures var u := W.ConfirmPayment(t, tx, accepted, actor, source, settings).0;
            (id in t.orders && Earning(t.orders[id].status)) || (HasActive(u, id) && HasPaid(u, id))
  {
    var u := W.ConfirmPayment(t, tx, accepted, actor, source, settings).0;
    if u != t && t.txs[tx].order == id {
      assert C.IsActive(u.ledger[|t.ledger|], id);
      assert u.txs[tx].order == id && u.txs[tx].status == TxPaid;
    }
  }

  lemma StepKeepsIncomeOk(t: Tables, e: Timed)
    requires IncomeOk(t) && !e.event.AdminOverrides?
    ensures IncomeOk(Step(t, e))
  {
    var u := Step(t, e);
    StepKeepsIncome(t, e);
    forall id | id in u.orders && Earning(u.orders[id].status)
      ensures HasActive(u, id) && HasPaid(u, id)
    {
      var woken := Wait(t, e.elapsed);
      if e.event.PaymentApproved? {
        ConfirmEarns(woken, e.event.tx, W.REVIEWED, Some(e.event.admin), "admin", e.event.settings, id);
      } else if e.event.PaymentAutoConfirmed? {
        ConfirmEarns(woken, e.event.tx, W.AUTO_CONFIRM, None, e.event.source, e.event.settings, id);
      } else {
        StepEarning(t, e, id);
      }
      hide Step;
      if id in t.orders && Earning(t.orders[id].status) {
        StillEarns(t, u, id);
      }
    }
  }

  lemma StillEarns(t: Tables, u: Tables, id: int)
    requires KeepsIncome(t, u) && HasActive(t, id) && HasPaid(t, id)
    requires id in u.orders && Earning(u.orders[id].status)
    ensures HasActive(u, id) && HasPaid(u, id)
  {
    var i :| 0 <= i < |t.ledger| && C.IsActive(t.ledger[i], id);
    assert C.IsActive(u.ledger[i], id);
    var k :| 0 <= k < |t.txs| && t.txs[k].order == id && t.txs[k].status == TxPaid;
    assert u.txs[k].order == id && u.txs[k].status == TxPaid;
  }

  lemma {:induction false} RunKeepsIncome(es: seq<Timed>)
    requires OnGraph(es)
    ensures IncomeOk(Run(es))
  {
    hide Step;
    hide IncomeOk;
    if es == [] {
      NothingYet();
    } else {
      RunKeepsIncome(es[..|es| - 1]);
      StepKeepsIncomeOk(Run(es[..|es| - 1]), es[|es| - 1]);
    }
  }

  lemma NothingYet()
    ensures IncomeOk(EMPTY)
  {
  }

  // ---- cancellations that leave the books alone ----

  /** The carrier's webhook, and the poller: they move the order and touch no money. */
  predicate ByCarrier(e: Event) {
    e.CarrierPosts? || e.GraphMove?
  }

  predicate CancelsOrder(t: Tables, u: Tables, order: int) {
    && order in t.orders && t.orders[order].status != Cancelled
    && order in u.orders && u.orders[order].status == Cancelled
  }

  predicate WorthNothing(r: C.Row) {
    r.gross == 0 && r.amount == 0 && C.ValueOf(r, C.Payout) == 0
  }

  /** What an order's rows add up to is its one active row. */
  lemma {:induction false} OneRowTotal(rows: seq<C.Row>, order: int, i: nat, m: C.Measure)
    requires i < |rows| && C.IsActive(rows[i], order) && C.AtMostOneActive(rows, order)
    ensures C.Total(rows, m, C.Filter(Some(order), None, Some(C.Active))) == C.ValueOf(rows[i], m)
  {
    var n := |rows| - 1;
    var f := C.Filter(Some(order), None, Some(C.Active));
    if i < n {
      assert !C.IsActive(rows[n], order);
      OneRowTotal(rows[..n], order, i, m);
    } else {
      forall k | 0 <= k < n
        ensures !C.IsActive(rows[..n][k], order)
      {
        assert !C.IsActive(rows[k], order);
      }
      C.TotalOfNothing(rows[..n], m, f);
    }
  }

  lemma LedgerZeroIff(t: Tables, order: int)
    requires LedgerOk(t)
    ensures LedgerIsZero(t, order)
            <==> forall i :: 0 <= i < |t.ledger| && C.IsActive(t.ledger[i], order) ==> WorthNothing(t.ledger[i])
  {
    var all := OrderFilter(order);
    var active := all.(status := Some(C.Active));
    assert C.AtMostOneActive(t.ledger, order);
    forall m | C.IsMoney(m)
      ensures C.Total(t.ledger, m, all) == C.Total(t.ledger, m, active)
    {
    }
    if i :| 0 <= i < |t.ledger| && C.IsActive(t.ledger[i], order) {
      forall m
        ensures C.Total(t.ledger, m, active) == C.ValueOf(t.ledger[i], m)
      {
        OneRowTotal(t.ledger, order, i, m);
      }
      assert C.IsMoney(C.Gross) && C.IsMoney(C.Commission) && C.IsMoney(C.Payout);
    } else {
      forall m
        ensures C.Total(t.ledger, m, active) == 0
      {
        C.TotalOfNothing(t.ledger, m, active);
      }
    }
  }

  /**
   Whenever the carrier cancels an order, in any run on the graph: a received payment is left on the order
   exactly if it was past the unpaid stage; the ledger nets to zero exactly if the order's active row, which
   it has exactly past that stage, is worth nothing.
   */
  lemma CarrierCancelStrandsMoney(es: seq<Timed>, e: Timed, order: int)
    requires OnGraph(es) && ByCarrier(e.event)
    ensures CancelsOrder(Run(es), Step(Run(es), e), order) ==>
              var t, u := Run(es), Step(Run(es), e);
              && (HasPaid(u, order) <==> Phase(t.orders[order].status) != UNPAID)
              && (HasActive(u, order) <==> Phase(t.orders[order].status) != UNPAID)
              && (LedgerIsZero(u, order)
                  <==> forall i :: 0 <= i < |t.ledger| && C.IsActive(t.ledger[i], order) ==> WorthNothing(t.ledger[i]))
  {
    var t, u := Run(es), Step(Run(es), e);
    OthersLeaveMoney(Wait(t, e.elapsed), e.event);
    hide Step;
    hide Run;
    if CancelsOrder(t, u, order) {
      SameBooksSameMoney(t, u, order);
      MoneyLaws.RunKeeps(EMPTY, es);
      RunIs(es);
      LedgerZeroIff(t, order);
      hide LedgerIsZero;
      PaidOrNot(es, order);
    }
  }

  lemma RunIs(es: seq<Timed>)
    ensures Run(es) == RunFrom(EMPTY, es)
  {
  }

  lemma SameBooksSameMoney(t: Tables, u: Tables, order: int)
    requires t.ledger == u.ledger && t.txs == u.txs
    ensures LedgerIsZero(t, order) <==> LedgerIsZero(u, order)
    ensures HasPaid(t, order) <==> HasPaid(u, order)
    ensures HasActive(t, order) <==> HasActive(u, order)
  {
  }

  /** In a run on the graph an order that is not cancelled has its money exactly past the unpaid stage. */
  lemma PaidOrNot(es: seq<Timed>, order: int)
    requires OnGraph(es) && order in Run(es).orders && Run(es).orders[order].status != Cancelled
    ensures HasPaid(Run(es), order) <==> Phase(Run(es).orders[order].status) != UNPAID
    ensures HasActive(Run(es), order) <==> Phase(Run(es).orders[order].status) != UNPAID
  {
    hide Run;
    RunKeepsIncome(es);
    if Phase(Run(es).orders[order].status) == UNPAID {
      UnpaidHasNoMoney(es, order);
    }
  }

  /** A tracking event that cancels nets the ledger, but leaves the payments: it is half a cancellation. */
  lemma TrackingCancelNetsLedgerOnly(es: seq<Timed>, e: Timed, order: int)
    requires OnGraph(es) && e.event.TrackingAdded?
    ensures CancelsOrder(Run(es), Step(Run(es), e), order) ==>
              var t, u := Run(es), Step(Run(es), e);
              LedgerIsZero(u, order) && (HasPaid(u, order) <==> Phase(t.orders[order].status) != UNPAID)
  {
    var t, u := Run(es), Step(Run(es), e);
    if CancelsOrder(t, u, order) {
      TrackingBooks(Wait(t, e.elapsed), e.event, order);
      hide Step;
      MoneyLaws.RunKeeps(EMPTY, es);
      hide Run;
      hide C.Reverse;
      PaidOrNot(es, order);
      assert HasPaid(u, order) == HasPaid(t.(ledger := u.ledger), order) == HasPaid(t, order);
      forall m | C.IsMoney(m)
        ensures C.Total(u.ledger, m, OrderFilter(order)) == 0
      {
        var reason, now :| u.ledger == C.Reverse(t.ledger, order, reason, now);
        C.ReversedOrderIsZero(t.ledger, order, reason, now, m);
      }
    }
  }

  lemma TrackingBooks(t: Tables, e: Event, order: int)
    requires e.TrackingAdded? && CancelsOrder(t, OtherStep(t, e), order)
    ensures OtherStep(t, e).txs == t.txs
    ensures exists reason, now :: OtherStep(t, e).ledger == C.Reverse(t.ledger, order, reason, now)
  {
    hide W.Tracked;
    hide CanTransition;
    hide C.Reverse;
    assert OtherStep(t, e) == W.AddTrackingEvent(t, e.order, e.status, e.raw, e.note, e.caption).0;
    hide OtherStep;
    assert e.order == order;
    assert OtherStep(t, e).ledger == C.Reverse(t.ledger, order, "carrier tracking: " + e.caption, t.now);
  }
}
