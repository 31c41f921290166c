/** The endpoints of `Writers`, writing through the session. */
module WriterServices {
  import opened Prelude
  import opened OrderStatus
  import opened Store
  import CancellationService
  import Commissions
  import W = Writers

  method WriteTx(db: Database, tx: int, status: TxStatus, actor: Option<int>, comment: string)
    requires 0 <= tx < |db.txs|
    modifies db`txs, db`txHistory
    ensures db.Snapshot() == W.SetTx(old(db.Snapshot()), tx, status, actor, comment)
  {
    db.txHistory := db.txHistory + [TxRow(tx, db.txs[tx].status, status, actor, comment)];
    db.txs := db.txs[tx := db.txs[tx].(status := status)];
  }

  method WriteTracking(db: Database, order: int, status: Status, raw: Option<string>, note: string)
    modifies db`tracking
    ensures db.Snapshot() == Track(old(db.Snapshot()), order, status, raw, note)
  {
    db.tracking := db.tracking + [TrackingRow(order, status, raw, note)];
  }

  class PaymentService {
    const commissions: CancellationService.CommissionsService

    constructor () {
      commissions := new CancellationService.CommissionsService();
    }

    method InitiateBankTransfer(db: Database, order: int, actor: int, bankSet: bool) returns (outcome: W.Outcome)
      modifies db
      ensures (db.Snapshot(), outcome) == W.OpenPayment(old(db.Snapshot()), order, actor, bankSet)
    {
      if order !in db.orders {
        return W.NotFound;
      }
      var i := 0;
      while i < |db.txs|
        invariant i <= |db.txs|
        invariant forall k :: 0 <= k < i ==> !Hits(db.txs[k], order, W.LIVE_TX)
      {
        if Hits(db.txs[i], order, W.LIVE_TX) {
          return W.Duplicate;
        }
        i := i + 1;
      }
      if !bankSet {
        return W.Invalid;
      }
      if !CanTransition(db.orders[order].status, AwaitingPayment) {
        return W.Invalid;
      }
      db.txHistory := db.txHistory
                      + [TxRow(|db.txs|, TxUnpaid, TxAwaiting, Some(actor), "Bank transfer initiated")];
      db.txs := db.txs + [Tx(order, db.orders[order].price, TxAwaiting)];
      WriteStatus(db, order, AwaitingPayment, Some(actor), "customer", "Payment initiated by customer");
      return W.Done;
    }

    method MarkOrderPaid(
      db: Database, order: int, amount: int, actor: Option<int>, source: string, settings: W.Settings)
      requires order in db.orders
      modifies db
      ensures db.Snapshot() == W.MarkPaid(old(db.Snapshot()), order, amount, actor, source, settings)
    {
      var o := db.orders[order];
      WriteStatus(db, order, Paid, actor, source, "Payment approved");
      commissions.RecordCommission(db, order, o.carrier, W.PaymentTerms(o, amount, settings));
      db.jobs := db.jobs + [Job(order, Queued)];
      WriteStatus(db, order, DispatchQueued, actor, "system", "Payment confirmed, dispatch job created");
    }

    method ConfirmPayment(
      db: Database, tx: int, accepted: set<TxStatus>, actor: Option<int>, source: string, settings: W.Settings)
      returns (outcome: W.Outcome)
      modifies db
      ensures (db.Snapshot(), outcome)
           == W.ConfirmPayment(old(db.Snapshot()), tx, accepted, actor, source, settings)
    {
      if !(0 <= tx < |db.txs|) {
        return W.NotFound;
      }
      if db.txs[tx].status !in accepted {
        return W.Invalid;
      }
      var order, amount := db.txs[tx].order, db.txs[tx].amount;
      if order in db.orders && !CanTransition(db.orders[order].status, Paid) {
        return W.Invalid;
      }
      WriteTx(db, tx, TxPaid, actor, "Confirmed");
      if order in db.orders {
        MarkOrderPaid(db, order, amount, actor, source, settings);
      }
      return W.Done;
    }

    method AdminRefund(db: Database, tx: int, admin: int, reason: string) returns (outcome: W.Outcome)
      modifies db
      ensures (db.Snapshot(), outcome) == W.AdminRefund(old(db.Snapshot()), tx, admin, reason)
    {
      if !(0 <= tx < |db.txs|) {
        return W.NotFound;
      }
      if db.txs[tx].status != TxPaid && db.txs[tx].status != TxRefundPending {
        return W.Invalid;
      }
      var order := db.txs[tx].order;
      if order in db.orders && !CanTransition(db.orders[order].status, Cancelled) {
        return W.Invalid;
      }
      WriteTx(db, tx, TxRefunded, Some(admin), reason);
      if order in db.orders {
        var _ := commissions.ReverseForOrder(db, order, reason);
        WriteStatus(db, order, Cancelled, Some(admin), "admin", reason);
      }
      return W.Done;
    }
  }

  class OrdersService {
    constructor () {
    }

    method UpdateShipmentDetails(db: Database, user: int, order: int, priced: Option<W.Pricing>)
      returns (outcome: W.Outcome)
      modifies db`orders
      ensures (db.Snapshot(), outcome) == W.SaveDetails(old(db.Snapshot()), user, order, priced)
    {
      if order !in db.orders {
        return W.NotFound;
      }
      if db.orders[order].user != user {
        return W.Forbidden;
      }
      if db.orders[order].status != Draft && db.orders[order].status != ShipmentDetailsCompleted {
        return W.Invalid;
      }
      var o := W.Repriced(db.orders[order], priced);
      db.orders := db.orders[order := o.(status := ShipmentDetailsCompleted)];
      return W.Done;
    }

    method ProceedToCheckout(db: Database, user: int, order: int, complete: bool, priced: Option<W.Pricing>)
      returns (outcome: W.Outcome)
      modifies db`orders
      ensures (db.Snapshot(), outcome) == W.ProceedToCheckout(old(db.Snapshot()), user, order, complete, priced)
    {
      if order !in db.orders {
        return W.NotFound;
      }
      if db.orders[order].user != user {
        return W.Forbidden;
      }
      if db.orders[order].status != ShipmentDetailsCompleted {
        return W.Invalid;
      }
      if !complete {
        return W.Invalid;
      }
      var o := W.Repriced(db.orders[order], priced);
      db.orders := db.orders[order := o.(status := ReadyForCheckout)];
      return W.Done;
    }
  }

  class TrackingService {
    const commissions: CancellationService.CommissionsService

    constructor () {
      commissions := new CancellationService.CommissionsService();
    }

    method MoveTracked(db: Database, order: int, status: Status, caption: string)
      requires order in db.orders
      modifies db`orders, db`history, db`ledger
      ensures db.Snapshot() == W.TrackedMove(old(db.Snapshot()), order, status, caption)
    {
      WriteStatus(db, order, status, None, "tracking_event", "Carrier status: " + caption);
      if status == Cancelled {
        var _ := commissions.ReverseForOrder(db, order, "carrier tracking: " + caption);
      }
    }

    method AddEvent(db: Database, order: int, status: Status, raw: Option<string>, note: string, caption: string)
      returns (outcome: W.Outcome)
      modifies db
      ensures (db.Snapshot(), outcome) == W.AddTrackingEvent(old(db.Snapshot()), order, status, raw, note, caption)
    {
      hide W.Tracked;
      hide W.TrackedMove;
      hide CanTransition;
      if order !in db.orders {
        return W.NotFound;
      }
      WriteTracking(db, order, status, raw, note);
      if W.Tracked(status) && CanTransition(db.orders[order].status, status) {
        MoveTracked(db, order, status, caption);
      }
      return W.Done;
    }
  }

  class CarrierEndpoints {
    constructor () {
    }

    method ApplyCarrierStatus(db: Database, order: int, raw: string, note: string)
      requires order in db.orders
      modifies db`orders, db`history, db`tracking
      ensures db.Snapshot() == W.ApplyCarrierStatus(old(db.Snapshot()), order, raw, note)
    {
      var status := W.MapCarrierStatus(raw);
      WriteTracking(db, order, status, Some(raw), note);
      if status != W.CARRIER_UNKNOWN && CanTransition(db.orders[order].status, status) {
        WriteStatus(db, order, status, None, "carrier_webhook", raw);
      }
    }

    method AcceptEvent(db: Database, carrier: string, id: Option<int>, msg: W.Message)
      modifies db
      ensures db.Snapshot() == W.AcceptEvent(old(db.Snapshot()), carrier, id, msg)
    {
      hide W.MapCarrierStatus;
      hide CanTransition;
      var key := (carrier, msg.eventId);
      ghost var before := db.webhooks;
      db.webhooks := db.webhooks[key := WebhookRow(id, false)];
      if id.Some? && id.value in db.orders && msg.status != "" {
        ApplyCarrierStatus(db, id.value, msg.status, msg.note);
        db.webhooks := db.webhooks[key := WebhookRow(id, true)];
        assert db.webhooks == before[key := WebhookRow(id, true)];
      }
    }

    method TrackingWebhook(db: Database, carrier: string, msg: W.Message) returns (outcome: W.Outcome)
      modifies db
      ensures (db.Snapshot(), outcome) == W.Webhook(old(db.Snapshot()), carrier, msg)
    {
      hide W.AcceptEvent;
      if (carrier, msg.eventId) in db.webhooks {
        return W.Duplicate;
      }
      if msg.order.BadRef? {
        return W.Invalid;
      }
      var id := if msg.order.Ref? then Some(msg.order.id) else None;
      var known := id.Some? && id.value in db.orders;
      if known && db.orders[id.value].carrier != carrier {
        return W.Invalid;
      }
      AcceptEvent(db, carrier, id, msg);
      return W.Done;
    }

    method PortalMove(db: Database, order: int, next: Status, actor: int, comment: string)
      requires order in db.orders
      modifies db`orders, db`history, db`tracking
      ensures db.Snapshot() == W.PortalMove(old(db.Snapshot()), order, next, actor, comment)
    {
      WriteStatus(db, order, next, Some(actor), "carrier_portal", comment);
      WriteTracking(db, order, next, None, comment);
    }

    method AcceptOrder(db: Database, carrier: string, order: int, actor: int) returns (outcome: W.Outcome)
      modifies db
      ensures (db.Snapshot(), outcome) == W.PortalAccept(old(db.Snapshot()), carrier, order, actor)
    {
      if order !in db.orders || db.orders[order].carrier != carrier {
        return W.NotFound;
      }
      if !W.AcceptAllowed(db.orders[order].status) {
        return W.Invalid;
      }
      if !CanTransition(db.orders[order].status, PickedUp) {
        return W.Conflict;
      }
      PortalMove(db, order, PickedUp, actor, "accepted");
      return W.Done;
    }

    method RejectOrder(db: Database, carrier: string, order: int, actor: int, reason: string)
      returns (outcome: W.Outcome)
      modifies db
      ensures (db.Snapshot(), outcome) == W.PortalReject(old(db.Snapshot()), carrier, order, actor, reason)
    {
      if order !in db.orders || db.orders[order].carrier != carrier {
        return W.NotFound;
      }
      if !W.RejectAllowed(db.orders[order].status) {
        return W.Invalid;
      }
      if !CanTransition(db.orders[order].status, DispatchFailed) {
        return W.Conflict;
      }
      PortalMove(db, order, DispatchFailed, actor, reason);
      return W.Done;
    }

    method UploadPod(db: Database, carrier: string, order: int, actor: int) returns (outcome: W.Outcome)
      modifies db
      ensures (db.Snapshot(), outcome) == W.PortalPod(old(db.Snapshot()), carrier, order, actor)
    {
      if order !in db.orders || db.orders[order].carrier != carrier {
        return W.NotFound;
      }
      if !W.PodAllowed(db.orders[order].status) {
        return W.Invalid;
      }
      if db.orders[order].status != Delivered {
        if !CanTransition(db.orders[order].status, Delivered) {
          return W.Conflict;
        }
        PortalMove(db, order, Delivered, actor, "pod");
      }
      return W.Done;
    }
  }

  class AdminOrders {
    const commissions: CancellationService.CommissionsService

    constructor () {
      commissions := new CancellationService.CommissionsService();
    }

    method UpdateOrderStatus(db: Database, order: int, next: Status, admin: int) returns (outcome: W.Outcome)
      modifies db
      ensures (db.Snapshot(), outcome) == W.AdminOverride(old(db.Snapshot()), order, next, admin)
    {
      if next.Unlisted? {
        return W.Invalid;
      }
      if order !in db.orders {
        return W.NotFound;
      }
      var was := db.orders[order].status;
      if next == Cancelled && was != Cancelled {
        var _ := commissions.ReverseForOrder(db, order, "admin status change \U{2192} cancelled");
      }
      WriteStatus(db, order, next, Some(admin), "admin", "Manual status override by admin");
      WriteTracking(db, order, next, None, "override");
      return W.Done;
    }

    method MarkDispatched(db: Database, order: int, admin: int) returns (outcome: W.Outcome)
      modifies db
      ensures (db.Snapshot(), outcome) == W.MarkDispatched(old(db.Snapshot()), order, admin)
    {
      if order !in db.orders {
        return W.NotFound;
      }
      if !CanTransition(db.orders[order].status, SentToCarrier) {
        return W.Invalid;
      }
      WriteStatus(db, order, SentToCarrier, Some(admin), "admin", "Manually marked as dispatched");
      WriteTracking(db, order, SentToCarrier, None, "dispatched");
      return W.Done;
    }
  }
}
