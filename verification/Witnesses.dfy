/** Short runs that reach the troubles the other modules characterise. */
module Witnesses {
  import opened Prelude
  import opened OrderStatus
  import opened Store
  import opened Cancellations
  import opened World
  import H = HistoryLaws
  import I = Income
  import M = MoneyTheorems
  import C = Commissions
  import W = Writers

  /** A parcel for 50.00, of which the carrier gets 45.00. */
  const PLACED: Order := Order(5, "azimuth", Draft, 5000, "KZT", Some(500), Some(4500))

  const PLACES: Timed := At(0, OrderPlaced(1, PLACED))
  const SAVES: Timed := At(0, DetailsSaved(5, 1, None))
  const CHECKS_OUT: Timed := At(0, CheckedOut(5, 1, true, None))
  const PAYS: Timed := At(0, PaymentOpened(1, 5, true))
  const PROVES: Timed := At(0, ProofSubmitted(0, 1, 5))
  const APPROVES: Timed := At(0, PaymentApproved(0, 9, W.Settings(None, None)))

  const OFFERED: seq<Timed> := [PLACES] + [SAVES] + [CHECKS_OUT] + [PAYS]
  const PAID_FOR: seq<Timed> := OFFERED + [PROVES] + [APPROVES]

  lemma Next(es: seq<Timed>, e: Timed)
    ensures Run(es + [e]) == Step(Run(es), e)
  {
    assert (es + [e])[..|es|] == es;
  }

  /** The one order, and its one payment if it has one; no request, webhook or commission yet. */
  predicate Stage(t: Tables, status: Status, payment: Option<TxStatus>) {
    && 1 in t.orders && t.orders[1] == PLACED.(status := status)
    && t.txs == (if payment.Some? then [Tx(1, 5000, payment.value)] else [])
    && t.requests == [] && t.ledger == [] && t.webhooks == map[]
  }

  lemma Placed()
    ensures Stage(Step(EMPTY, PLACES), Draft, None) && Step(EMPTY, PLACES).history == []
  {
  }

  lemma Saved(t: Tables)
    requires Stage(t, Draft, None)
    ensures Stage(Step(t, SAVES), ShipmentDetailsCompleted, None) && Step(t, SAVES).history == t.history
  {
  }

  lemma ChecksOut(t: Tables)
    requires Stage(t, ShipmentDetailsCompleted, None)
    ensures Stage(Step(t, CHECKS_OUT), ReadyForCheckout, None) && Step(t, CHECKS_OUT).history == t.history
  {
  }

  predicate OneRow(history: seq<HistoryRow>, before: Status, after: Status) {
    |history| == 1 && history[0].order == 1 && history[0].before == before && history[0].after == after
  }

  lemma Opened(t: Tables)
    requires Stage(t, ReadyForCheckout, None) && t.history == []
    ensures Stage(Step(t, PAYS), AwaitingPayment, Some(TxAwaiting))
    ensures OneRow(Step(t, PAYS).history, ReadyForCheckout, AwaitingPayment)
  {
  }

  lemma Proved(t: Tables)
    requires Stage(t, AwaitingPayment, Some(TxAwaiting))
    ensures Stage(Step(t, PROVES), PaymentUnderReview, Some(TxUnderReview))
  {
  }

  lemma ReachesOffer()
    ensures Stage(Run(OFFERED), AwaitingPayment, Some(TxAwaiting))
    ensures OneRow(Run(OFFERED).history, ReadyForCheckout, AwaitingPayment)
  {
    assert [] + [PLACES] == [PLACES] && Run([]) == EMPTY;
    hide Step;
    hide Stage;
    Next([], PLACES);
    Next([PLACES], SAVES);
    Next([PLACES] + [SAVES], CHECKS_OUT);
    Next([PLACES] + [SAVES] + [CHECKS_OUT], PAYS);
    hide Run;
    Placed();
    Saved(Run([PLACES]));
    ChecksOut(Run([PLACES] + [SAVES]));
    Opened(Run([PLACES] + [SAVES] + [CHECKS_OUT]));
  }

  // ---- the broken history ----

  const OVERRIDES: Timed := At(0, AdminOverrides(1, ShipmentDetailsCompleted, 9))

  /** An operator sends the offered order back to its details, and the customer checks out again. */
  const REOPENED: seq<Timed> := OFFERED + [OVERRIDES] + [CHECKS_OUT]

  predicate Reopened(t: Tables) {
    && 1 in t.orders && t.orders[1].user == 5
    && |t.history| == 2 && t.history[1].order == 1 && t.history[1].after == ShipmentDetailsCompleted
  }

  lemma SentBack(t: Tables)
    requires Stage(t, AwaitingPayment, Some(TxAwaiting)) && OneRow(t.history, ReadyForCheckout, AwaitingPayment)
    ensures Reopened(Step(t, OVERRIDES)) && Step(t, OVERRIDES).orders[1].status == ShipmentDetailsCompleted
  {
  }

  lemma ChecksOutAgain(t: Tables)
    requires Reopened(t) && t.orders[1].status == ShipmentDetailsCompleted
    ensures Reopened(Step(t, CHECKS_OUT)) && Step(t, CHECKS_OUT).orders[1].status == ReadyForCheckout
  {
  }

  /** Its rows end at a status it no longer has, and its next row will not link up. */
  lemma CheckoutTearsHistory()
    ensures H.RecordOf(Run(REOPENED), 1).Torn() && !H.RecordOf(Run(REOPENED), 1).Chained()
  {
    ReachesOffer();
    Next(OFFERED, OVERRIDES);
    Next(OFFERED + [OVERRIDES], CHECKS_OUT);
    hide Run;
    hide Step;
    SentBack(Run(OFFERED));
    ChecksOutAgain(Run(OFFERED + [OVERRIDES]));
    var u := Run(REOPENED);
    LastOfTwo(u.history);
  }

  lemma LastOfTwo(history: seq<HistoryRow>)
    requires |history| == 2 && history[1].order == 1
    ensures H.OrderRows(history, 1) != [] && H.OrderRows(history, 1)[|H.OrderRows(history, 1)| - 1] == history[1]
  {
  }

  // ---- the paid-for order ----

  /** Paid, and the commission on the books. */
  predicate Paid1(t: Tables) {
    && 1 in t.orders && t.orders[1] == PLACED.(status := DispatchQueued)
    && t.txs == [Tx(1, 5000, TxPaid)] && t.requests == [] && t.webhooks == map[]
    && |t.ledger| == 1 && C.IsActive(t.ledger[0], 1) && t.ledger[0].gross == 5000
  }

  lemma Approved(t: Tables)
    requires Stage(t, PaymentUnderReview, Some(TxUnderReview))
    ensures Paid1(Step(t, APPROVES))
  {
  }

  lemma ReachesPaid()
    ensures Paid1(Run(PAID_FOR)) && OnGraph(PAID_FOR)
  {
    ReachesOffer();
    Next(OFFERED, PROVES);
    Next(OFFERED + [PROVES], APPROVES);
    hide Run;
    hide Step;
    hide Stage;
    hide Paid1;
    Proved(Run(OFFERED));
    Approved(Run(OFFERED + [PROVES]));
  }

  // ---- the carrier cancels ----

  const CARRIER_CANCELS: Timed := At(0, CarrierPosts("azimuth", W.Message("e1", W.Ref(1), "CANCELED", "")))

  lemma CancelCode()
    ensures W.MapCarrierStatus("CANCELED") == Cancelled
  {
    assert W.Upper("CANCELED") == "CANCELED";
  }

  lemma CarrierCancelled(t: Tables)
    requires Paid1(t)
    ensures var u := Step(t, CARRIER_CANCELS);
            1 in u.orders && u.orders[1].status == Cancelled && u.txs == t.txs && u.ledger == t.ledger
  {
    CancelCode();
    hide W.MapCarrierStatus;
  }

  /** The customer's 50.00 stay received, and the ledger still counts them. */
  lemma CarrierCancelKeepsMoney()
    ensures var u := Run(PAID_FOR + [CARRIER_CANCELS]);
            && 1 in u.orders && u.orders[1].status == Cancelled
            && I.HasPaid(u, 1) && C.Total(u.ledger, C.Gross, M.OrderFilter(1)) == 5000
  {
    ReachesPaid();
    Next(PAID_FOR, CARRIER_CANCELS);
    hide Run;
    hide Step;
    CarrierCancelled(Run(PAID_FOR));
    var u := Run(PAID_FOR + [CARRIER_CANCELS]);
    assert u.txs[0].order == 1 && u.txs[0].status == TxPaid;
    assert u.ledger[..0] == [] && u.ledger == [u.ledger[0]];
  }

  // ---- the refund nobody can pay out ----

  const ASKS: Timed := At(0, Customer(5, 1, "moved", ApiCall(Refused, 0)))
  const GRANTS: Timed := At(0, CarrierApproves(0, 3, "azimuth", None))

  predicate Asked1(t: Tables) {
    && 1 in t.orders && t.orders[1] == PLACED.(status := DispatchQueued)
    && t.txs == [Tx(1, 5000, TxPaid)]
    && |t.requests| == 1 && t.requests[0].order == 1 && t.requests[0].status == Pending
    && t.requests[0].carrier == "azimuth"
  }

  lemma Asked(t: Tables)
    requires Paid1(t)
    ensures Asked1(Step(t, ASKS))
  {
    assert Strip("moved") == "moved";
  }

  lemma Granted(t: Tables)
    requires Asked1(t)
    ensures var u := Step(t, GRANTS);
            1 in u.orders && u.orders[1].status == Cancelled && u.txs == [Tx(1, 5000, TxRefundPending)]
  {
    var u := Step(t, GRANTS);
    assert u.txs[0] == Moved(t.txs[0], 1, PAID_TX, TxRefundPending);
  }

  /** Placed, paid, cancelled by request, granted by the carrier; then the refund endpoint refuses. */
  lemma GrantedRefundIsRefused(admin: int, text: string)
    ensures var u := Run(PAID_FOR + [ASKS] + [GRANTS]);
            && OnGraph(PAID_FOR + [ASKS] + [GRANTS])
            && u.txs == [Tx(1, 5000, TxRefundPending)] && W.AdminRefund(u, 0, admin, text) == (u, W.Invalid)
  {
    ReachesPaid();
    Next(PAID_FOR, ASKS);
    Next(PAID_FOR + [ASKS], GRANTS);
    hide Run;
    hide Step;
    Asked(Run(PAID_FOR));
    Granted(Run(PAID_FOR + [ASKS]));
  }
}
