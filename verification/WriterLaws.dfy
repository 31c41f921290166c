/**
 What each other writer of orders comes to, in any state of the database: when its endpoint goes through, what
 then changes, and that a refusal changes nothing.
 */
module WriterLaws {
  import opened Prelude
  import opened OrderStatus
  import opened Store
  import Commissions
  import W = Writers

  /** Of the orders only this one's status changed, and the history says so, and by whom. */
  predicate Moves(t: Tables, u: Tables, order: int, next: Status, actor: Option<int>, source: string) {
    && order in t.orders && u.orders == t.orders[order := t.orders[order].(status := next)]
    && |u.history| == |t.history| + 1 && u.history[..|t.history|] == t.history
    && var row := u.history[|t.history|];
       row.order == order && row.before == t.orders[order].status && row.after == next
       && row.actor == actor && row.source == source
  }

  /** The tracking log got one row, of the order and the status. */
  predicate Logs(t: Tables, u: Tables, order: int, status: Status) {
    && |u.tracking| == |t.tracking| + 1 && u.tracking[..|t.tracking|] == t.tracking
    && u.tracking[|t.tracking|].order == order && u.tracking[|t.tracking|].status == status
    && u.tracking[|t.tracking|].raw == None
  }

  predicate SameMoney(t: Tables, u: Tables) {
    u.ledger == t.ledger && u.txs == t.txs && u.txHistory == t.txHistory
  }

  predicate StatusIs(t: Tables, order: int, statuses: set<Status>) {
    order in t.orders && t.orders[order].status in statuses
  }

  predicate TxIs(t: Tables, tx: int, statuses: set<TxStatus>) {
    0 <= tx < |t.txs| && t.txs[tx].status in statuses
  }

  /** Of the transactions only this one's status changed, and its history says so. */
  predicate TxMoves(t: Tables, u: Tables, tx: int, next: TxStatus, actor: Option<int>) {
    && 0 <= tx < |t.txs| && u.txs == t.txs[tx := t.txs[tx].(status := next)]
    && |u.txHistory| == |t.txHistory| + 1 && u.txHistory[..|t.txHistory|] == t.txHistory
    && var row := u.txHistory[|t.txHistory|];
       row.tx == tx && row.before == t.txs[tx].status && row.after == next
       && row.actor == actor
  }

  // ---- checkout ----

  /** Only the order changed, to the status, with the price recalculated if there was one to calculate. */
  predicate Rewritten(t: Tables, u: Tables, order: int, next: Status, priced: Option<W.Pricing>) {
    && order in t.orders && order in u.orders && u == t.(orders := u.orders)
    && u.orders == t.orders[order := u.orders[order]]
    && var o, p := t.orders[order], u.orders[order];
       && p.status == next && p.user == o.user && p.carrier == o.carrier
       && (priced.None? ==> p == o.(status := next))
       && (priced.Some? ==>
             p.price == priced.value.price && p.currency == priced.value.currency
             && p.markup == Some(priced.value.markup) && p.carrierPrice == Some(priced.value.carrierPrice))
  }

  lemma CheckoutOutcome(t: Tables, user: int, order: int, complete: bool, priced: Option<W.Pricing>)
    ensures var (u, reply) := W.SaveDetails(t, user, order, priced);
            var own := order in t.orders && t.orders[order].user == user;
            && (reply == W.Done <==> own && StatusIs(t, order, {Draft, ShipmentDetailsCompleted}))
            && (if reply == W.Done then Rewritten(t, u, order, ShipmentDetailsCompleted, priced) else u == t)
    ensures var (u, reply) := W.ProceedToCheckout(t, user, order, complete, priced);
            var own := order in t.orders && t.orders[order].user == user;
            && (reply == W.Done <==> own && complete && StatusIs(t, order, {ShipmentDetailsCompleted}))
            && (if reply == W.Done then Rewritten(t, u, order, ReadyForCheckout, priced) else u == t)
  {
  }

  // ---- payments ----

  predicate HasLiveTx(t: Tables, order: int) {
    exists i :: 0 <= i < |t.txs| && t.txs[i].order == order && TxIs(t, i, {TxAwaiting, TxUnderReview, TxPaid})
  }

  lemma LiveTxIs(t: Tables, order: int)
    ensures HasLiveTx(t, order) <==> exists i :: 0 <= i < |t.txs| && Hits(t.txs[i], order, W.LIVE_TX)
  {
    if HasLiveTx(t, order) {
      var i :| 0 <= i < |t.txs| && t.txs[i].order == order && TxIs(t, i, {TxAwaiting, TxUnderReview, TxPaid});
      assert Hits(t.txs[i], order, W.LIVE_TX);
    }
    if i :| 0 <= i < |t.txs| && Hits(t.txs[i], order, W.LIVE_TX) {
      assert TxIs(t, i, {TxAwaiting, TxUnderReview, TxPaid});
    }
  }

  /** A payment opens for the order's price, from checkout or after a rejected one, if none is alive. */
  lemma OpeningOutcome(t: Tables, order: int, actor: int, bankSet: bool)
    ensures var (u, reply) := W.OpenPayment(t, order, actor, bankSet);
            && (reply == W.Done <==>
                  !HasLiveTx(t, order) && bankSet && StatusIs(t, order, {ReadyForCheckout, PaymentRejected}))
            && (reply == W.Done ==>
                  && Moves(t, u, order, AwaitingPayment, Some(actor), "customer") && u.ledger == t.ledger && u.jobs == t.jobs
                  && u.txs == t.txs + [Tx(order, t.orders[order].price, TxAwaiting)]
                  && |u.txHistory| == |t.txHistory| + 1
                  && var row := u.txHistory[|t.txHistory|];
                     row.tx == |t.txs| && row.before == TxUnpaid && row.after == TxAwaiting && row.actor == Some(actor))
            && (reply != W.Done ==> u == t)
  {
    LiveTxIs(t, order);
  }

  lemma ProofOutcome(t: Tables, tx: int, order: int, actor: int)
    ensures var (u, reply) := W.SubmitProof(t, tx, order, actor);
            && (reply == W.Done <==> TxIs(t, tx, {TxAwaiting, TxRejected}) && t.txs[tx].order == order)
            && (reply == W.Done ==>
                  && TxMoves(t, u, tx, TxUnderReview, Some(actor)) && u.ledger == t.ledger && u.jobs == t.jobs
                  && if StatusIs(t, order, {AwaitingPayment, PaymentRejected}) then Moves(t, u, order, PaymentUnderReview, Some(actor), "customer")
                     else u.orders == t.orders)
            && (reply != W.Done ==> u == t)
  {
  }

  lemma DecliningOutcome(t: Tables, tx: int, admin: int, reason: string)
    requires 0 <= tx < |t.txs| ==> t.txs[tx].order in t.orders
    ensures var (u, reply) := W.RejectPayment(t, tx, admin, reason);
            && (reply == W.Done <==>
                  TxIs(t, tx, {TxUnderReview}) && StatusIs(t, t.txs[tx].order, {PaymentUnderReview}))
            && (reply == W.Done ==>
                  && TxMoves(t, u, tx, TxRejected, Some(admin))
                  && Moves(t, u, t.txs[tx].order, PaymentRejected, Some(admin), "admin")
                  && u.ledger == t.ledger && u.jobs == t.jobs)
            && (reply != W.Done ==> u == t)
  {
  }

  /** A confirmation needs payment and order under review; the order then waits for dispatch, with a new job. */
  lemma ConfirmationOutcome(t: Tables, tx: int, accepted: set<TxStatus>, actor: Option<int>, source: string, s: W.Settings)
    requires 0 <= tx < |t.txs| ==> t.txs[tx].order in t.orders
    ensures var (u, reply) := W.ConfirmPayment(t, tx, accepted, actor, source, s);
            && (reply == W.Done <==> TxIs(t, tx, accepted) && StatusIs(t, t.txs[tx].order, {PaymentUnderReview}))
            && (reply == W.Done ==>
                  var order := t.txs[tx].order;
                  && TxMoves(t, u, tx, TxPaid, actor)
                  && |u.history| == |t.history| + 2 && u.history[..|t.history|] == t.history
                  && (var paid, queued := u.history[|t.history|], u.history[|t.history| + 1];
                      && paid.order == order == queued.order && paid.actor == actor == queued.actor
                      && paid.before == PaymentUnderReview && paid.after == Paid && paid.source == source
                      && queued.before == Paid && queued.after == DispatchQueued && queued.source == "system")
                  && u.orders == t.orders[order := t.orders[order].(status := DispatchQueued)]
                  && u.jobs == t.jobs + [Job(order, Queued)]
                  && u.requests == t.requests && u.tracking == t.tracking)
            && (reply != W.Done ==> u == t)
  {
    hide Commissions.RecordedRow;
    hide W.PaymentTerms;
    if 0 <= tx < |t.txs| {
      EnteredFrom(t.orders[t.txs[tx].order].status);
    }
    hide CanTransition;
  }

  /** An admin confirms only what is under review; the automatic path also takes a payment still awaited. */
  lemma TwoConfirmations(t: Tables, tx: int, admin: int, source: string, s: W.Settings)
    requires 0 <= tx < |t.txs| ==> t.txs[tx].order in t.orders
    ensures W.ConfirmPayment(t, tx, W.REVIEWED, Some(admin), "admin", s).1 == W.Done
            <==> TxIs(t, tx, {TxUnderReview}) && StatusIs(t, t.txs[tx].order, {PaymentUnderReview})
    ensures W.ConfirmPayment(t, tx, W.AUTO_CONFIRM, None, source, s).1 == W.Done
            <==> TxIs(t, tx, {TxAwaiting, TxUnderReview}) && StatusIs(t, t.txs[tx].order, {PaymentUnderReview})
  {
  }

  lemma RefundOutcome(t: Tables, tx: int, admin: int, reason: string)
    requires 0 <= tx < |t.txs| ==> t.txs[tx].order in t.orders
    ensures var (u, reply) := W.AdminRefund(t, tx, admin, reason);
            && (reply == W.Done <==>
                  TxIs(t, tx, {TxPaid, TxRefundPending}) && CanTransition(t.orders[t.txs[tx].order].status, Cancelled))
            && (reply == W.Done ==>
                  && TxMoves(t, u, tx, TxRefunded, Some(admin)) && Moves(t, u, t.txs[tx].order, Cancelled, Some(admin), "admin")
                  && u.jobs == t.jobs && Commissions.ReversedOnce(t.ledger, u.ledger, t.txs[tx].order, reason, t.now))
            && (reply != W.Done ==> u == t)
    ensures var (u, reply) := W.ProviderCancel(t, tx);
            && (reply == W.Done <==> tx in t.orders && CanTransition(t.orders[tx].status, Cancelled))
            && (reply == W.Done ==>
                  Moves(t, u, tx, Cancelled, None, "kaspi_webhook") && u.txs == t.txs && u.jobs == t.jobs && Commissions.ReversedOnce(t.ledger, u.ledger, tx, "kaspi webhook: cancelled", t.now))
            && (reply != W.Done ==> u == t)
  {
    hide Commissions.ReversedOnce;
    hide Commissions.Reverse;
    hide CanTransition;
    if 0 <= tx < |t.txs| && W.AdminRefund(t, tx, admin, reason).1 == W.Done {
      Commissions.ReverseIsOnce(t.ledger, t.txs[tx].order, reason, t.now);
    }
    if W.ProviderCancel(t, tx).1 == W.Done {
      Commissions.ReverseIsOnce(t.ledger, tx, "kaspi webhook: cancelled", t.now);
    }
  }

  // ---- carrier codes ----

  /** Only small letters change, into the capital of the same place in the alphabet. */
  lemma {:induction false} UpperIs(s: string)
    ensures |W.Upper(s)| == |s|
    ensures forall i :: 0 <= i < |s| ==>
              W.Upper(s)[i] as int == s[i] as int + if 'a' <= s[i] <= 'z' then 'A' as int - 'a' as int else 0
  {
    if s != "" {
      UpperIs(s[1..]);
    }
  }

  /** Which codes mean a status on the way: letters of either case, two spellings for most. */
  lemma CodesUnderWay(raw: string)
    ensures var code, status := W.Upper(raw), W.MapCarrierStatus(raw);
            && (status == SentToCarrier <==> code == "NEW")
            && (status == PickedUp <==> code == "PICKED_UP" || code == "PICKUP")
            && (status == InTransit <==> code == "IN_TRANSIT" || code == "ACCEPTED")
            && (status == Arrived <==> code == "ARRIVED")
            && (status == OutForDelivery <==> code == "OUT_FOR_DELIVERY" || code == "DELIVERY")
            && (status == DeliveryFailed <==> code == "FAILED_ATTEMPT")
            && (status == CustomsHold <==> code == "CUSTOMS_HOLD")
  {
    hide W.Upper;
  }

  /** And at its end; any other code is unknown. */
  lemma CodesAtTheEnd(raw: string)
    ensures var code, status := W.Upper(raw), W.MapCarrierStatus(raw);
            && (status == Delivered <==> code == "DELIVERED" || code == "COMPLETE")
            && (status == Returned <==> code == "RETURNED")
            && (status == Cancelled <==> code == "CANCELED" || code == "CANCELLED")
            && (status in {SentToCarrier, PickedUp, InTransit, Arrived, OutForDelivery, DeliveryFailed, CustomsHold,
                           Delivered, Returned, Cancelled} || status == W.CARRIER_UNKNOWN)
  {
    hide W.Upper;
  }

  /**
   A new event of the order's own carrier is remembered and tracked; it moves the order exactly if its code is
   known and the graph allows the move, and it never touches money or jobs.
   */
  lemma WebhookOutcome(t: Tables, carrier: string, msg: W.Message)
    ensures var (u, reply) := W.Webhook(t, carrier, msg);
            var known := (carrier, msg.eventId) in t.webhooks;
            var aimed := msg.order.Ref? && msg.order.id in t.orders;
            var own := aimed && t.orders[msg.order.id].carrier == carrier;
            var status := W.MapCarrierStatus(msg.status);
            var moves := own && msg.status != "" && status != W.CARRIER_UNKNOWN
                         && CanTransition(t.orders[msg.order.id].status, status);
            && (reply == W.Duplicate <==> known)
            && (reply == W.Invalid <==> !known && (msg.order.BadRef? || (aimed && !own)))
            && (reply != W.Done ==> reply in {W.Duplicate, W.Invalid} && u == t)
            && (reply == W.Done ==>
                  && SameMoney(t, u) && u.jobs == t.jobs && u.requests == t.requests
                  && (carrier, msg.eventId) in u.webhooks
                  && u.webhooks == t.webhooks[(carrier, msg.eventId) := u.webhooks[(carrier, msg.eventId)]]
                  && u.webhooks[(carrier, msg.eventId)]
                     == WebhookRow(if msg.order.Ref? then Some(msg.order.id) else None, own && msg.status != "")
                  && (u.tracking == if own && msg.status != ""
                                    then t.tracking + [TrackingRow(msg.order.id, status, Some(msg.status), msg.note)]
                                    else t.tracking)
                  && if moves then Moves(t, u, msg.order.id, status, None, "carrier_webhook") else u.orders == t.orders && u.history == t.history)
  {
    hide W.MapCarrierStatus;
  }

  // ---- tracking events, portal, admin panel ----

  lemma TrackingOutcome(t: Tables, order: int, status: Status, raw: Option<string>, note: string, caption: string)
    ensures var (u, reply) := W.AddTrackingEvent(t, order, status, raw, note, caption);
            var moves := order in t.orders && CanTransition(t.orders[order].status, status)
                         && status in {SentToCarrier, PickedUp, InTransit, Arrived, Delivered, Returned, Cancelled};
            && (reply == W.Done <==> order in t.orders)
            && (reply != W.Done ==> u == t)
            && (reply == W.Done ==> u.tracking == t.tracking + [TrackingRow(order, status, raw, note)])
            && u.txs == t.txs && u.jobs == t.jobs
            && (if moves then Moves(t, u, order, status, None, "tracking_event") else u.orders == t.orders && u.history == t.history)
            && (if moves && status == Cancelled then Commissions.ReversedOnce(t.ledger, u.ledger, order, "carrier tracking: " + caption, t.now)
                else u.ledger == t.ledger)
  {
    hide Commissions.ReversedOnce;
    hide Commissions.Reverse;
    hide CanTransition;
    var u := W.AddTrackingEvent(t, order, status, raw, note, caption).0;
    if order in t.orders && CanTransition(t.orders[order].status, status) && status == Cancelled {
      Commissions.ReverseIsOnce(t.ledger, order, "carrier tracking: " + caption, t.now);
    }
  }

  predicate PortalMoves(t: Tables, u: Tables, order: int, next: Status, actor: int) {
    && Moves(t, u, order, next, Some(actor), "carrier_portal") && Logs(t, u, order, next)
    && SameMoney(t, u) && u.jobs == t.jobs && u.requests == t.requests
  }

  /** The portal acts on own orders only: accepting picks up, rejecting fails the dispatch, proof delivers. */
  lemma PortalOutcome(t: Tables, carrier: string, order: int, actor: int, reason: string)
    ensures var (u, reply) := W.PortalAccept(t, carrier, order, actor);
            var own := order in t.orders && t.orders[order].carrier == carrier;
            && (reply == W.NotFound <==> !own)
            && (reply == W.Done <==> own && StatusIs(t, order, {SentToCarrier}))
            && (if reply == W.Done then PortalMoves(t, u, order, PickedUp, actor) else u == t)
    ensures var (u, reply) := W.PortalReject(t, carrier, order, actor, reason);
            var own := order in t.orders && t.orders[order].carrier == carrier;
            && (reply == W.NotFound <==> !own)
            && (reply == W.Done <==> own && StatusIs(t, order, {PendingManual, PendingManualDispatch}))
            && (if reply == W.Done then PortalMoves(t, u, order, DispatchFailed, actor) else u == t)
    ensures var (u, reply) := W.PortalPod(t, carrier, order, actor);
            var own := order in t.orders && t.orders[order].carrier == carrier;
            && (reply == W.NotFound <==> !own)
            && (reply == W.Done <==> own && StatusIs(t, order, {PickedUp, InTransit, Arrived, Delivered}))
            && (if reply == W.Done && t.orders[order].status != Delivered
                then PortalMoves(t, u, order, Delivered, actor) else u == t)
  {
  }

  /** An override sets any listed status, graph or not. */
  lemma OverrideOutcome(t: Tables, order: int, next: Status, admin: int)
    ensures var (u, reply) := W.AdminOverride(t, order, next, admin);
            && (reply == W.Done <==> order in t.orders && !next.Unlisted?)
            && (reply == W.Done ==>
                  && Moves(t, u, order, next, Some(admin), "admin") && Logs(t, u, order, next) && u.txs == t.txs && u.jobs == t.jobs && u.requests == t.requests
                  && if next == Cancelled && t.orders[order].status != Cancelled 
                     then Commissions.ReversedOnce(t.ledger, u.ledger, order, "admin status change \U{2192} cancelled", t.now)
                     else u.ledger == t.ledger)
            && (reply != W.Done ==> u == t)
  {
    hide Commissions.ReversedOnce;
    hide Commissions.Reverse;
    if order in t.orders && next == Cancelled && t.orders[order].status != Cancelled {
      Commissions.ReverseIsOnce(t.ledger, order, "admin status change \U{2192} cancelled", t.now);
    }
  }

  /** Dispatching by hand works only for a queued order. */
  lemma DispatchingOutcome(t: Tables, order: int, admin: int)
    ensures var (u, reply) := W.MarkDispatched(t, order, admin);
            && (reply == W.Done <==> StatusIs(t, order, {DispatchQueued}))
            && (if reply == W.Done
                then Moves(t, u, order, SentToCarrier, Some(admin), "admin") && Logs(t, u, order, SentToCarrier)
                     && SameMoney(t, u) && u.jobs == t.jobs
                else u == t)
  {
  }
}
