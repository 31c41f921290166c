/**
 From the quoted price to the ledger, over whole runs: an order is charged what it was priced at, and its
 commission row gives carrier and platform exactly the parts the price was made of.
 */
module PaymentLaws {
  import opened Prelude
  import opened OrderStatus
  import opened Store
  import opened Cancellations
  import opened World
  import opened MoneyLaws
  import opened HistoryLaws
  import opened MoneyTheorems
  import I = Income
  import C = Commissions
  import M = Markup
  import W = Writers

  /** The row gives the order's price away as the order was quoted: stored parts as stored, the rest the carrier's. */
  predicate RowAsPriced(o: Order, r: C.Row) {
    && r.carrier == o.carrier && r.gross == o.price && r.currency == o.currency
    && (o.markup.Some? ==> r.amount == o.markup.value)
    && (o.carrierPrice.Some? ==> r.payout == o.carrierPrice)
    && (o.carrierPrice.None? ==> r.payout == Some(r.gross - r.amount))
  }

  // ---- one confirmation ----

  /**
   The row a confirmed payment adds: on the order's carrier, gross the amount paid, commission the stored markup
   and payout the stored carrier price; what is not stored is taken from the settings, and the carrier gets the rest.
   */
  lemma ConfirmedRow(t: Tables, tx: int, accepted: set<TxStatus>, actor: Option<int>, source: string, s: W.Settings)
    requires 0 <= tx < |t.txs| && t.txs[tx].order in t.orders
    requires W.ConfirmPayment(t, tx, accepted, actor, source, s).1 == W.Done
    ensures var u := W.ConfirmPayment(t, tx, accepted, actor, source, s).0;
            var o, amount := t.orders[t.txs[tx].order], t.txs[tx].amount;
            && |u.ledger| == |t.ledger| + 1 && u.ledger[..|t.ledger|] == t.ledger
            && var r := u.ledger[|t.ledger|];
               && r.order == t.txs[tx].order && r.status == C.Active
               && RowAsPriced(o.(price := amount), r)
               && (o.markup.None? ==> TakenFromSettings(r, s))
  {
    hide C.CommissionAmount;
    hide C.EffectiveRate;
    SettingsRow(t.orders[t.txs[tx].order], t.txs[tx].order, t.txs[tx].amount, s);
    hide TakenFromSettings;
  }

  lemma SettingsRow(o: Order, order: int, amount: int, s: W.Settings)
    ensures var r := C.RecordedRow(order, o.carrier, W.PaymentTerms(o, amount, s));
            && (o.markup.Some? ==> r.amount == o.markup.value) && (o.markup.None? ==> TakenFromSettings(r, s))
  {
    if s.config.Some? {
      M.CalculatedExactly(amount, s.config.value.kind, s.config.value.Rate(), s.config.value.FixedAmount());
      hide M.Calculate;
    } else {
      hide M.RoundHalfEven;
    }
  }

  /** Within half a cent: the carrier's own terms on the gross, else the global rate, else nothing. */
  predicate TakenFromSettings(r: C.Row, s: W.Settings) {
    var exact :=
      if s.config.Some? then M.ExactShare(r.gross, s.config.value.kind, s.config.value.Rate(), s.config.value.FixedAmount())
      else if s.globalRate.Some? then r.gross as real * s.globalRate.value
      else 0.0;
    r.amount as real - 0.5 <= exact <= r.amount as real + 0.5
  }

  // ---- over whole runs ----

  /** Payments are for the order's price, active rows as it was priced, and no order in checkout has either. */
  ghost predicate PricedInv(t: Tables) {
    && (forall i :: 0 <= i < |t.txs| ==>
          && t.txs[i].order in t.orders && !ByCheckout(t.orders[t.txs[i].order].status)
          && t.txs[i].amount == t.orders[t.txs[i].order].price)
    && (forall i :: 0 <= i < |t.ledger| && t.ledger[i].status == C.Active ==>
          && t.ledger[i].order in t.orders && !ByCheckout(t.orders[t.ledger[i].order].status)
          && RowAsPriced(t.orders[t.ledger[i].order], t.ledger[i]))
  }

  /** Transactions stay what they are for, and no active row appears or changes. */
  ghost predicate SameTerms(t: Tables, u: Tables) {
    && |u.txs| == |t.txs| && |t.ledger| <= |u.ledger|
    && (forall i :: 0 <= i < |t.txs| ==> u.txs[i].order == t.txs[i].order && u.txs[i].amount == t.txs[i].amount)
    && (forall i :: 0 <= i < |u.ledger| && u.ledger[i].status == C.Active ==> i < |t.ledger| && u.ledger[i] == t.ledger[i])
  }

  lemma WriteKeepsPriced(t: Tables, u: Tables)
    requires PricedInv(t) && LawfulWrite(t, u) && SameTerms(t, u)
    ensures PricedInv(u)
  {
    hide RowAsPriced;
    if !Unwritten(t, u) {
      var row := u.history[|t.history|];
      forall i | 0 <= i < |u.ledger| && u.ledger[i].status == C.Active
        ensures u.ledger[i].order in u.orders && !ByCheckout(u.orders[u.ledger[i].order].status)
        ensures RowAsPriced(u.orders[u.ledger[i].order], u.ledger[i])
      {
        var o := t.orders[t.ledger[i].order];
        StatusLeavesPrice(o, row.after, t.ledger[i]);
      }
    }
  }

  lemma StatusLeavesPrice(o: Order, next: Status, r: C.Row)
    ensures RowAsPriced(o.(status := next), r) <==> RowAsPriced(o, r)
  {
  }

  lemma FinalizedSameTerms(t: Tables, id: int, reason: string, actor: int, source: string)
    requires id in t.orders
    ensures SameTerms(t, Finalized(t, id, reason, actor, source))
  {
  }

  lemma CloseSameTerms(
    s: Tables, id: int, actor: int, comment: Option<string>, status: RequestStatus, source: string)
    requires HasRequest(s, id)
    ensures SameTerms(s, Close(s, id, actor, comment, status, source).0)
  {
    hide Finalized;
    var r := s.requests[id];
    if r.order in s.orders {
      FinalizedSameTerms(s, r.order, r.reason, actor, source);
    }
  }

  lemma CancelUnpaidSameTerms(t: Tables, id: int, actor: int, reason: string)
    requires id in t.orders
    ensures SameTerms(t, CancelUnpaid(t, id, actor, reason).0)
  {
    var closed := t.(txs := MoveTxs(t.txs, id, OPEN_TX, TxCancelled),
                     txHistory := t.txHistory + MoveRows(t.txs, id, OPEN_TX, TxCancelled, actor, reason));
    FinalizedSameTerms(closed, id, reason, actor, "customer_cancel_unpaid");
    hide Finalized;
  }

  lemma CustomerSameTerms(t: Tables, user: int, order: int, text: string, api: ApiCall)
    ensures SameTerms(t, RequestCancellation(t, user, order, text, api).0)
  {
    hide Finalized;
    hide CancelUnpaid;
    if order in t.orders {
      FinalizedSameTerms(Wait(t, api.took), order, Strip(text), user, "customer_cancel_via_api");
      CancelUnpaidSameTerms(t, order, user, Strip(text));
    }
  }

  lemma ServiceSameTerms(t: Tables, e: Event)
    requires IsService(e)
    ensures SameTerms(t, ServiceStep(t, e).0)
  {
    hide RequestCancellation;
    hide Close;
    hide CanTransition;
    match e
    case Customer(user, order, text, api) => CustomerSameTerms(t, user, order, text, api);
    case CarrierApproves(id, actor, carrier, comment) =>
      if HasRequest(t, id) {
        CloseSameTerms(t, id, actor, comment, Approved, "carrier_approved");
      }
    case AdminApproves(id, actor, comment) =>
      if HasRequest(t, id) {
        CloseSameTerms(t, id, actor, comment, Approved, "admin_approved");
      }
    case AdminRetries(id, actor, api) =>
      if HasRequest(t, id) {
        var s := SetRequest(Wait(t, api.took), id, t.requests[id].(apiAttempted := true, nextRetry := None));
        CloseSameTerms(s, id, actor, None, ApiCancelled, "admin_retry_api");
      }
    case WorkerRetries(id, api) =>
      if HasRequest(t, id) {
        var r := t.requests[id].(apiAttempted := true, nextRetry := None);
        var s := SetRequest(Wait(t, api.took).(attempts := t.attempts + [Attempt(id, t.now)]), id, r);
        CloseSameTerms(s, id, r.author, None, ApiCancelled, "auto_retry_api");
      }
    case StaffRejects(id, actor, isAdmin, own, text) =>
  }

  predicate IsOpening(e: Event) {
    e.PaymentOpened?
  }

  lemma PaymentSameTerms(t: Tables, e: Event)
    requires IsPayment(e) && !IsConfirmation(e) && !IsOpening(e)
    ensures SameTerms(t, PaymentStep(t, e))
  {
    hide CanTransition;
  }

  lemma OpeningKeepsPriced(t: Tables, order: int, actor: int, bankSet: bool)
    requires PricedInv(t)
    ensures PricedInv(W.OpenPayment(t, order, actor, bankSet).0)
  {
    var u := W.OpenPayment(t, order, actor, bankSet).0;
    if u != t {
      hide RowAsPriced;
      forall i | 0 <= i < |u.ledger| && u.ledger[i].status == C.Active
        ensures RowAsPriced(u.orders[u.ledger[i].order], u.ledger[i])
      {
        StatusLeavesPrice(t.orders[t.ledger[i].order], AwaitingPayment, t.ledger[i]);
      }
    }
  }

  lemma ConfirmationKeepsPriced(
    t: Tables, tx: int, accepted: set<TxStatus>, actor: Option<int>, source: string, settings: W.Settings)
    requires PricedInv(t)
    ensures PricedInv(W.ConfirmPayment(t, tx, accepted, actor, source, settings).0)
  {
    var u := W.ConfirmPayment(t, tx, accepted, actor, source, settings).0;
    if u != t {
      var order := t.txs[tx].order;
      ConfirmedRow(t, tx, accepted, actor, source, settings);
      assert u.orders == t.orders[order := t.orders[order].(status := DispatchQueued)];
      forall i | 0 <= i < |t.txs|
        ensures u.txs[i].order == t.txs[i].order && u.txs[i].amount == t.txs[i].amount
      {
      }
      hide RowAsPriced;
      hide W.ConfirmPayment;
      forall i | 0 <= i < |u.ledger| && u.ledger[i].status == C.Active
        ensures RowAsPriced(u.orders[u.ledger[i].order], u.ledger[i])
      {
        if i < |t.ledger| {
          StatusLeavesPrice(t.orders[t.ledger[i].order], DispatchQueued, t.ledger[i]);
        } else {
          StatusLeavesPrice(t.orders[order], DispatchQueued, u.ledger[i]);
        }
      }
    }
  }

  lemma CheckoutKeepsPriced(t: Tables, e: Event)
    requires PricedInv(t) && IsCheckout(e)
    ensures PricedInv(OtherStep(t, e))
  {
    hide RowAsPriced;
  }

  lemma OtherSameTerms(t: Tables, e: Event)
    requires !IsService(e) && !IsPayment(e) && !IsCheckout(e) && !e.AdminOverrides?
    ensures SameTerms(t, OtherStep(t, e))
  {
    if e.TrackingAdded? {
      MoneyLaws.TrackingBooks(t, e.order, e.status, e.raw, e.note, e.caption);
      hide W.AddTrackingEvent;
    } else {
      OthersLeaveMoney(t, e);
      hide OtherStep;
    }
  }

  lemma StepKeepsPriced(t: Tables, e: Timed)
    requires PricedInv(t) && !e.event.AdminOverrides?
    ensures PricedInv(Step(t, e))
  {
    var woken, u := Wait(t, e.elapsed), Step(t, e);
    assert PricedInv(woken);
    hide PricedInv;
    hide SameTerms;
    hide LawfulWrite;
    hide ServiceStep;
    hide OtherStep;
    if IsService(e.event) {
      ServiceWrites(woken, e.event);
      ServiceSameTerms(woken, e.event);
      WriteKeepsPriced(woken, u);
    } else if e.event.PaymentApproved? {
      ConfirmationKeepsPriced(woken, e.event.tx, W.REVIEWED, Some(e.event.admin), "admin", e.event.settings);
    } else if e.event.PaymentAutoConfirmed? {
      ConfirmationKeepsPriced(woken, e.event.tx, W.AUTO_CONFIRM, None, e.event.source, e.event.settings);
    } else if e.event.PaymentOpened? {
      OpeningKeepsPriced(woken, e.event.order, e.event.actor, e.event.bankSet);
    } else if IsPayment(e.event) {
      hide PaymentStep;
      PaymentWrites(woken, e.event);
      PaymentSameTerms(woken, e.event);
      WriteKeepsPriced(woken, u);
    } else if IsCheckout(e.event) {
      CheckoutKeepsPriced(woken, e.event);
    } else {
      OtherWrites(woken, e.event);
      OtherSameTerms(woken, e.event);
      WriteKeepsPriced(woken, u);
    }
  }

  lemma {:induction false} RunKeepsPriced(es: seq<Timed>)
    requires OnGraph(es)
    ensures PricedInv(Run(es))
  {
    hide Step;
    if es != [] {
      RunKeepsPriced(es[..|es| - 1]);
      StepKeepsPriced(Run(es[..|es| - 1]), es[|es| - 1]);
    }
  }

  /**
   In every run on the graph, an order past payment and not cancelled has exactly one active row, as it was
   priced; and the order's whole ledger adds up to that row.
   */
  lemma LedgerPaysAsPriced(es: seq<Timed>, order: int)
    requires OnGraph(es) && order in Run(es).orders && I.Earning(Run(es).orders[order].status)
    ensures exists i :: 0 <= i < |Run(es).ledger| && C.IsActive(Run(es).ledger[i], order)
                        && RowAsPriced(Run(es).orders[order], Run(es).ledger[i])
                        && forall m :: C.IsMoney(m) ==>
                             C.Total(Run(es).ledger, m, OrderFilter(order)) == C.ValueOf(Run(es).ledger[i], m)
  {
    hide Step;
    hide Run;
    I.RunKeepsIncome(es);
    RunKeepsPriced(es);
    MoneyLaws.RunKeeps(EMPTY, es);
    I.RunIs(es);
    var t := Run(es);
    assert C.AtMostOneActive(t.ledger, order);
    var i :| 0 <= i < |t.ledger| && C.IsActive(t.ledger[i], order);
    forall m | C.IsMoney(m)
      ensures C.Total(t.ledger, m, OrderFilter(order)) == C.ValueOf(t.ledger[i], m)
    {
      I.OneRowTotal(t.ledger, order, i, m);
      assert C.Total(t.ledger, m, OrderFilter(order)) == C.Total(t.ledger, m, OrderFilter(order).(status := Some(C.Active)));
    }
    assert RowAsPriced(t.orders[order], t.ledger[i]);
  }

  /** The price the customer saw: the carrier's price and the markup on it. */
  predicate QuotedAt(o: Order, markups: M.MarkupCalculator, carrierPrice: int) {
    && o.carrierPrice == Some(carrierPrice) && o.markup == Some(markups.MarkupFor(o.carrier, carrierPrice))
    && o.price == carrierPrice + markups.MarkupFor(o.carrier, carrierPrice)
  }

  /** A quoted order, once paid for: the carrier gets exactly its price, the platform exactly its markup. */
  lemma CarrierGetsItsPrice(es: seq<Timed>, order: int, markups: M.MarkupCalculator, carrierPrice: int)
    requires OnGraph(es) && order in Run(es).orders && I.Earning(Run(es).orders[order].status)
    requires QuotedAt(Run(es).orders[order], markups, carrierPrice)
    ensures var rows, own := Run(es).ledger, OrderFilter(order);
            && C.Total(rows, C.Payout, own) == carrierPrice
            && C.Total(rows, C.Commission, own) == markups.MarkupFor(Run(es).orders[order].carrier, carrierPrice)
            && C.Total(rows, C.Gross, own) == Run(es).orders[order].price
            && C.Total(rows, C.Gross, own) == C.Total(rows, C.Payout, own) + C.Total(rows, C.Commission, own)
  {
    hide Run;
    LedgerPaysAsPriced(es, order);
    var t := Run(es);
    var i :| 0 <= i < |t.ledger| && C.IsActive(t.ledger[i], order) && RowAsPriced(t.orders[order], t.ledger[i])
             && forall m :: C.IsMoney(m) ==> C.Total(t.ledger, m, OrderFilter(order)) == C.ValueOf(t.ledger[i], m);
    assert C.IsMoney(C.Gross) && C.IsMoney(C.Payout) && C.IsMoney(C.Commission);
  }
}
