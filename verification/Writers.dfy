/**
 Everything else that writes order statuses: checkout, payments, the carrier webhook, tracking events, the
 carrier portal and the admin panel, each endpoint one step.
 */
module Writers {
  import opened Prelude
  import opened OrderStatus
  import opened Store
  import Commissions
  import Markup

  datatype Outcome = Done | Duplicate | NotFound | Forbidden | Invalid | Conflict

  // ---- checkout (orders/service.py) ----

  /** What a recalculation stores on the order. */
  datatype Pricing = Pricing(price: int, currency: string, markup: int, carrierPrice: int)

  function Repriced(o: Order, priced: Option<Pricing>): Order {
    match priced
    case None => o
    case Some(p) => o.(price := p.price, currency := p.currency, markup := Some(p.markup), carrierPrice := Some(p.carrierPrice))
  }

  predicate Editable(s: Status) {
    s == Draft || s == ShipmentDetailsCompleted
  }

  /** Checkout sets the status through the repository, which writes no history row. */
  function MoveUnrecorded(t: Tables, order: int, next: Status, priced: Option<Pricing>): Tables
    requires order in t.orders
  {
    t.(orders := t.orders[order := Repriced(t.orders[order], priced).(status := next)])
  }

  /** `update_shipment_details`. */
  function SaveDetails(t: Tables, user: int, order: int, priced: Option<Pricing>): (Tables, Outcome) {
    if order !in t.orders then (t, NotFound)
    else if t.orders[order].user != user then (t, Forbidden)
    else if !Editable(t.orders[order].status) then (t, Invalid)
    else (MoveUnrecorded(t, order, ShipmentDetailsCompleted, priced), Done)
  }

  /** `proceed_to_checkout`; `complete` is that parties and packages are there. */
  function ProceedToCheckout(t: Tables, user: int, order: int, complete: bool, priced: Option<Pricing>)
    : (Tables, Outcome)
  {
    if order !in t.orders then (t, NotFound)
    else if t.orders[order].user != user then (t, Forbidden)
    else if t.orders[order].status != ShipmentDetailsCompleted || !complete then (t, Invalid)
    else (MoveUnrecorded(t, order, ReadyForCheckout, priced), Done)
  }

  // ---- payments (payment_service.py, payments.py) ----

  /** The commission settings at the moment of payment. */
  datatype Settings = Settings(config: Option<Markup.Config>, globalRate: Option<real>)

  predicate HasTx(t: Tables, tx: int) {
    0 <= tx < |t.txs|
  }

  function SetTx(t: Tables, tx: int, status: TxStatus, actor: Option<int>, comment: string): Tables
    requires HasTx(t, tx)
  {
    t.(txs := t.txs[tx := t.txs[tx].(status := status)],
       txHistory := t.txHistory + [TxRow(tx, t.txs[tx].status, status, actor, comment)])
  }

  const LIVE_TX: set<TxStatus> := {TxAwaiting, TxUnderReview, TxPaid}

  /** `initiate_bank_transfer`; `bankSet` is that the platform's bank details are filled in. */
  function OpenPayment(t: Tables, order: int, actor: int, bankSet: bool): (Tables, Outcome) {
    if order !in t.orders then (t, NotFound)
    else if exists i :: 0 <= i < |t.txs| && Hits(t.txs[i], order, LIVE_TX) then (t, Duplicate)
    else if !bankSet then (t, Invalid)
    else if !CanTransition(t.orders[order].status, AwaitingPayment) then (t, Invalid)
    else
      var started := t.(txs := t.txs + [Tx(order, t.orders[order].price, TxAwaiting)],
                       txHistory := t.txHistory
                                    + [TxRow(|t.txs|, TxUnpaid, TxAwaiting, Some(actor), "Bank transfer initiated")]);
      (SetStatus(started, order, AwaitingPayment, Some(actor), "customer", "Payment initiated by customer"), Done)
  }

  /** `submit_proof`. */
  function SubmitProof(t: Tables, tx: int, order: int, actor: int): (Tables, Outcome) {
    if !HasTx(t, tx) || t.txs[tx].order != order then (t, NotFound)
    else if t.txs[tx].status != TxAwaiting && t.txs[tx].status != TxRejected then (t, Invalid)
    else
      var submitted := SetTx(t, tx, TxUnderReview, Some(actor), "Proof uploaded by customer");
      if order in t.orders && (t.orders[order].status == AwaitingPayment || t.orders[order].status == PaymentRejected) then
        (SetStatus(submitted, order, PaymentUnderReview, Some(actor), "customer", "Payment proof submitted"), Done)
      else (submitted, Done)
  }

  function PaymentTerms(order: Order, amount: int, settings: Settings): Commissions.Terms {
    Commissions.Terms(amount, order.currency, order.markup, order.carrierPrice, settings.config, settings.globalRate, 0.0)
  }

  /** The order's side of a confirmed payment: paid, commission recorded, dispatch job queued. */
  function MarkPaid(t: Tables, order: int, amount: int, actor: Option<int>, source: string, settings: Settings): Tables
    requires order in t.orders
  {
    var o := t.orders[order];
    var paid := SetStatus(t, order, Paid, actor, source, "Payment approved");
    var queued := SetStatus(paid, order, DispatchQueued, actor, "system", "Payment confirmed, dispatch job created");
    queued.(
      ledger := t.ledger + [Commissions.RecordedRow(order, o.carrier, PaymentTerms(o, amount, settings))],
      jobs := t.jobs + [Job(order, Queued)])
  }

  /** `admin_approve` with `accepted == {TxUnderReview}`, `system_confirm_payment` with `AUTO_CONFIRM`. */
  function ConfirmPayment(
    t: Tables, tx: int, accepted: set<TxStatus>, actor: Option<int>, source: string, settings: Settings)
    : (Tables, Outcome)
  {
    if !HasTx(t, tx) then (t, NotFound)
    else if t.txs[tx].status !in accepted then (t, Invalid)
    else
      var order := t.txs[tx].order;
      var confirmed := SetTx(t, tx, TxPaid, actor, "Confirmed");
      if order !in t.orders then (confirmed, Done)
      else if !CanTransition(t.orders[order].status, Paid) then (t, Invalid)
      else (MarkPaid(confirmed, order, t.txs[tx].amount, actor, source, settings), Done)
  }

  const REVIEWED: set<TxStatus> := {TxUnderReview}
  const AUTO_CONFIRM: set<TxStatus> := {TxAwaiting, TxUnderReview}

  /** `admin_reject`. */
  function RejectPayment(t: Tables, tx: int, admin: int, reason: string): (Tables, Outcome) {
    if !HasTx(t, tx) then (t, NotFound)
    else if t.txs[tx].status != TxUnderReview then (t, Invalid)
    else
      var order := t.txs[tx].order;
      var rejected := SetTx(t, tx, TxRejected, Some(admin), reason);
      if order !in t.orders then (rejected, Done)
      else if !CanTransition(t.orders[order].status, PaymentRejected) then (t, Invalid)
      else (SetStatus(rejected, order, PaymentRejected, Some(admin), "admin", reason), Done)
  }

  /** Cancel the order outside the cancellation service: status, history, commission storno. */
  function CancelElsewhere(t: Tables, order: int, actor: Option<int>, source: string, reason: string): Tables
    requires order in t.orders
  {
    SetStatus(t, order, Cancelled, actor, source, reason)
    .(ledger := Commissions.Reverse(t.ledger, order, reason, t.now))
  }

  /** `admin_refund`. */
  function AdminRefund(t: Tables, tx: int, admin: int, reason: string): (Tables, Outcome) {
    if !HasTx(t, tx) then (t, NotFound)
    else if t.txs[tx].status != TxPaid && t.txs[tx].status != TxRefundPending then (t, Invalid)
    else
      var order := t.txs[tx].order;
      var refunded := SetTx(t, tx, TxRefunded, Some(admin), reason);
      if order !in t.orders then (refunded, Done)
      else if !CanTransition(t.orders[order].status, Cancelled) then (t, Invalid)
      else (CancelElsewhere(refunded, order, Some(admin), "admin", reason), Done)
  }

  /** The `cancelled` branch of `kaspi_webhook`. */
  function ProviderCancel(t: Tables, order: int): (Tables, Outcome) {
    if order !in t.orders then (t, NotFound)
    else if !CanTransition(t.orders[order].status, Cancelled) then (t, Invalid)
    else (CancelElsewhere(t, order, None, "kaspi_webhook", "kaspi webhook: cancelled"), Done)
  }

  // ---- carrier webhook (carrier_tracking.py, status_mapper.py) ----

  datatype OrderRef = NoRef | BadRef | Ref(id: int)

  datatype Message = Message(eventId: string, order: OrderRef, status: string, note: string)

  function UpperChar(c: char): char {
    if 'a' <= c <= 'z' then (c as int - 32) as char else c
  }

  function Upper(s: string): string {
    if s == "" then "" else [UpperChar(s[0])] + Upper(s[1..])
  }

  const CARRIER_STATUS_MAP: map<string, Status> := map[
    "PICKED_UP" := PickedUp, "IN_TRANSIT" := InTransit, "OUT_FOR_DELIVERY" := OutForDelivery,
    "DELIVERED" := Delivered, "FAILED_ATTEMPT" := DeliveryFailed, "RETURNED" := Returned,
    "CUSTOMS_HOLD" := CustomsHold, "NEW" := SentToCarrier, "ACCEPTED" := InTransit,
    "PICKUP" := PickedUp, "DELIVERY" := OutForDelivery, "COMPLETE" := Delivered,
    "CANCELED" := Cancelled, "ARRIVED" := Arrived, "CANCELLED" := Cancelled]

  const CARRIER_UNKNOWN: Status := Unlisted("carrier_unknown")

  function MapCarrierStatus(raw: string): Status {
    var key := Upper(raw);
    if key in CARRIER_STATUS_MAP then CARRIER_STATUS_MAP[key] else CARRIER_UNKNOWN
  }

  function ApplyCarrierStatus(t: Tables, order: int, raw: string, note: string): Tables
    requires order in t.orders
  {
    var status := MapCarrierStatus(raw);
    var tracked := Track(t, order, status, Some(raw), note);
    if status != CARRIER_UNKNOWN && CanTransition(t.orders[order].status, status) then
      SetStatus(tracked, order, status, None, "carrier_webhook", raw)
    else tracked
  }

  /** The event row, and what the event does. */
  function AcceptEvent(t: Tables, carrier: string, id: Option<int>, msg: Message): Tables {
    var applies := id.Some? && id.value in t.orders && msg.status != "";
    var recorded := t.(webhooks := t.webhooks[(carrier, msg.eventId) := WebhookRow(id, applies)]);
    if applies then ApplyCarrierStatus(recorded, id.value, msg.status, msg.note) else recorded
  }

  /** `carrier_tracking_webhook` from the event id check on. */
  function Webhook(t: Tables, carrier: string, msg: Message): (Tables, Outcome) {
    if (carrier, msg.eventId) in t.webhooks then (t, Duplicate)
    else if msg.order.BadRef? then (t, Invalid)
    else
      var id := if msg.order.Ref? then Some(msg.order.id) else None;
      var known := id.Some? && id.value in t.orders;
      if known && t.orders[id.value].carrier != carrier then (t, Invalid)
      else (AcceptEvent(t, carrier, id, msg), Done)
  }

  // ---- tracking events (tracking/service.py) ----

  predicate Tracked(s: Status) {
    s in {SentToCarrier, PickedUp, InTransit, Arrived, Delivered, Returned, Cancelled}
  }

  function TrackedMove(t: Tables, order: int, status: Status, caption: string): Tables
    requires order in t.orders
  {
    var moved := SetStatus(t, order, status, None, "tracking_event", "Carrier status: " + caption);
    if status != Cancelled then moved
    else moved.(ledger := Commissions.Reverse(t.ledger, order, "carrier tracking: " + caption, t.now))
  }

  /** `add_event`; `caption` is the carrier's status text, or the status itself. */
  function AddTrackingEvent(
    t: Tables, order: int, status: Status, raw: Option<string>, note: string, caption: string): (Tables, Outcome)
  {
    if order !in t.orders then (t, NotFound)
    else
      var tracked := Track(t, order, status, raw, note);
      if !Tracked(status) || !CanTransition(t.orders[order].status, status) then (tracked, Done)
      else (TrackedMove(tracked, order, status, caption), Done)
  }

  // ---- carrier portal (carrier_portal.py) ----

  predicate AcceptAllowed(s: Status) {
    s in {SentToCarrier, PendingManual, PendingManualDispatch, DispatchFailed}
  }

  predicate RejectAllowed(s: Status) {
    s in {SentToCarrier, PendingManual, PendingManualDispatch}
  }

  predicate PodAllowed(s: Status) {
    s in {InTransit, Arrived, PickedUp, Delivered}
  }

  predicate OwnOrder(t: Tables, carrier: string, order: int) {
    order in t.orders && t.orders[order].carrier == carrier
  }

  function PortalMove(t: Tables, order: int, next: Status, actor: int, comment: string): Tables
    requires order in t.orders
  {
    Track(SetStatus(t, order, next, Some(actor), "carrier_portal", comment), order, next, None, comment)
  }

  function PortalAccept(t: Tables, carrier: string, order: int, actor: int): (Tables, Outcome) {
    if !OwnOrder(t, carrier, order) then (t, NotFound)
    else if !AcceptAllowed(t.orders[order].status) then (t, Invalid)
    else if !CanTransition(t.orders[order].status, PickedUp) then (t, Conflict)
    else (PortalMove(t, order, PickedUp, actor, "accepted"), Done)
  }

  function PortalReject(t: Tables, carrier: string, order: int, actor: int, reason: string): (Tables, Outcome) {
    if !OwnOrder(t, carrier, order) then (t, NotFound)
    else if !RejectAllowed(t.orders[order].status) then (t, Invalid)
    else if !CanTransition(t.orders[order].status, DispatchFailed) then (t, Conflict)
    else (PortalMove(t, order, DispatchFailed, actor, reason), Done)
  }

  /** `upload_pod`, for an upload the storage took. */
  function PortalPod(t: Tables, carrier: string, order: int, actor: int): (Tables, Outcome) {
    if !OwnOrder(t, carrier, order) then (t, NotFound)
    else if !PodAllowed(t.orders[order].status) then (t, Invalid)
    else if t.orders[order].status == Delivered then (t, Done)
    else if !CanTransition(t.orders[order].status, Delivered) then (t, Conflict)
    else (PortalMove(t, order, Delivered, actor, "pod"), Done)
  }

  // ---- admin panel (admin_orders.py) ----

  /** `update_order_status`: any listed status, whatever the graph says. */
  function AdminOverride(t: Tables, order: int, next: Status, admin: int): (Tables, Outcome) {
    if next.Unlisted? then (t, Invalid)
    else if order !in t.orders then (t, NotFound)
    else
      var moved := SetStatus(t, order, next, Some(admin), "admin", "Manual status override by admin");
      var settled :=
        if next == Cancelled && t.orders[order].status != Cancelled
        then moved.(ledger := Commissions.Reverse(t.ledger, order, "admin status change \U{2192} cancelled", t.now))
        else moved;
      (Track(settled, order, next, None, "override"), Done)
  }

  function MarkDispatched(t: Tables, order: int, admin: int): (Tables, Outcome) {
    if order !in t.orders then (t, NotFound)
    else if !CanTransition(t.orders[order].status, SentToCarrier) then (t, Invalid)
    else
      (Track(SetStatus(t, order, SentToCarrier, Some(admin), "admin", "Manually marked as dispatched"),
             order, SentToCarrier, None, "dispatched"),
       Done)
  }

  // ---- what single endpoints can and cannot do ----

  /** The portal's accept list names four statuses; the graph lets it act in one. */
  lemma AcceptOnlyWhenSent(t: Tables, carrier: string, order: int, actor: int)
    requires OwnOrder(t, carrier, order)
    ensures PortalAccept(t, carrier, order, actor).1 == Done <==> t.orders[order].status == SentToCarrier
  {
  }

  /** The portal's reject list names `sent_to_carrier`, but the graph only lets the manual queues fail. */
  lemma RejectOnlyFromManualQueues(t: Tables, carrier: string, order: int, actor: int, reason: string)
    requires OwnOrder(t, carrier, order)
    ensures PortalReject(t, carrier, order, actor, reason).1 == Done
            <==> t.orders[order].status == PendingManual || t.orders[order].status == PendingManualDispatch
  {
  }

  /**
   The automatic confirmation is meant to skip the receipt review, but it confirms an order's payment
   only if the order is already under review.
   */
  lemma AutoConfirmNeedsReview(t: Tables, tx: int, source: string, settings: Settings)
    requires HasTx(t, tx) && t.txs[tx].order in t.orders
    ensures ConfirmPayment(t, tx, AUTO_CONFIRM, None, source, settings).1 == Done
            <==> t.txs[tx].status in AUTO_CONFIRM && t.orders[t.txs[tx].order].status == PaymentUnderReview
  {
  }

  lemma UnknownCarrierCodeNeverMoves(t: Tables, order: int, raw: string, note: string)
    requires order in t.orders && Upper(raw) !in CARRIER_STATUS_MAP
    ensures ApplyCarrierStatus(t, order, raw, note)
         == Track(t, order, CARRIER_UNKNOWN, Some(raw), note)
  {
  }
}
