/**
 The whole system as a state machine: the cancellation service and every other writer of orders, in any
 order and at any times.  `Run` is any such history from an empty database.
 */
module World {
  import opened Prelude
  import opened OrderStatus
  import opened Store
  import opened Cancellations
  import W = Writers

  datatype Event =
    // the cancellation service
    | Customer(user: int, order: int, text: string, api: ApiCall)
    | CarrierApproves(id: int, actor: int, carrier: string, comment: Option<string>)
    | AdminApproves(id: int, actor: int, comment: Option<string>)
    | AdminRetries(id: int, actor: int, api: ApiCall)
    | WorkerRetries(id: int, api: ApiCall)
    | StaffRejects(id: int, actor: int, isAdmin: bool, own: Option<string>, text: string)
    // a turn of the retry worker that raised, before or after its carrier call, and was rolled back
    | WorkerCrashes(id: int, called: bool, took: nat)
    // payments
    | PaymentOpened(order: int, actor: int, bankSet: bool)
    | ProofSubmitted(tx: int, order: int, actor: int)
    | PaymentApproved(tx: int, admin: int, settings: W.Settings)
    | PaymentAutoConfirmed(tx: int, source: string, settings: W.Settings)
    | PaymentDeclined(tx: int, admin: int, text: string)
    | Refunded(tx: int, admin: int, text: string)
    | ProviderCancelled(order: int)
    // carriers and staff
    | CarrierPosts(carrier: string, msg: W.Message)
    | PortalAccepts(carrier: string, order: int, actor: int)
    | PortalRejects(carrier: string, order: int, actor: int, text: string)
    | PortalPods(carrier: string, order: int, actor: int)
    | AdminDispatches(order: int, admin: int)
    | AdminOverrides(order: int, next: Status, admin: int)
    | TrackingAdded(order: int, status: Status, raw: Option<string>, note: string, caption: string)
    // checkout
    | OrderPlaced(id: int, placed: Order)
    | DetailsSaved(user: int, order: int, priced: Option<W.Pricing>)
    | CheckedOut(user: int, order: int, complete: bool, priced: Option<W.Pricing>)
    // dispatch worker, rescheduling and polling, known only to respect the graph and to write history
    | GraphMove(order: int, next: Status, source: string)
    | JobChanges(job: int, state: JobStatus)

  datatype Timed = At(elapsed: nat, event: Event)

  predicate IsService(e: Event) {
    e.Customer? || e.CarrierApproves? || e.AdminApproves? || e.AdminRetries? || e.WorkerRetries? || e.StaffRejects?
  }

  predicate IsPayment(e: Event) {
    e.PaymentOpened? || e.ProofSubmitted? || e.PaymentApproved? || e.PaymentAutoConfirmed? || e.PaymentDeclined?
    || e.Refunded? || e.ProviderCancelled?
  }

  function ServiceStep(t: Tables, e: Event): (Tables, Reply)
    requires IsService(e)
  {
    match e
    case Customer(user, order, text, api) => RequestCancellation(t, user, order, text, api)
    case CarrierApproves(id, actor, carrier, comment) => ApproveByCarrier(t, id, actor, carrier, comment)
    case AdminApproves(id, actor, comment) => ApproveByAdmin(t, id, actor, comment)
    case AdminRetries(id, actor, api) => RetryApi(t, id, actor, api)
    case WorkerRetries(id, api) => AutoRetry(t, id, api)
    case StaffRejects(id, actor, isAdmin, own, text) => Reject(t, id, actor, isAdmin, own, text)
  }

  function PaymentStep(t: Tables, e: Event): Tables
    requires IsPayment(e)
  {
    match e
    case PaymentOpened(order, actor, bankSet) => W.OpenPayment(t, order, actor, bankSet).0
    case ProofSubmitted(tx, order, actor) => W.SubmitProof(t, tx, order, actor).0
    case PaymentApproved(tx, admin, settings) =>
      W.ConfirmPayment(t, tx, W.REVIEWED, Some(admin), "admin", settings).0
    case PaymentAutoConfirmed(tx, source, settings) =>
      W.ConfirmPayment(t, tx, W.AUTO_CONFIRM, None, source, settings).0
    case PaymentDeclined(tx, admin, text) => W.RejectPayment(t, tx, admin, text).0
    case Refunded(tx, admin, text) => W.AdminRefund(t, tx, admin, text).0
    case ProviderCancelled(order) => W.ProviderCancel(t, order).0
  }

  /** Statuses of an order that has not been offered for payment. */
  predicate ByCheckout(s: Status) {
    s == Draft || s == ShipmentDetailsCompleted || s == ReadyForCheckout
  }

  function OtherStep(t: Tables, e: Event): Tables
    requires !IsService(e) && !IsPayment(e)
  {
    match e
    case WorkerCrashes(_, _, took) => Wait(t, took)
    case CarrierPosts(carrier, msg) => W.Webhook(t, carrier, msg).0
    case PortalAccepts(carrier, order, actor) => W.PortalAccept(t, carrier, order, actor).0
    case PortalRejects(carrier, order, actor, text) => W.PortalReject(t, carrier, order, actor, text).0
    case PortalPods(carrier, order, actor) => W.PortalPod(t, carrier, order, actor).0
    case AdminDispatches(order, admin) => W.MarkDispatched(t, order, admin).0
    case AdminOverrides(order, next, admin) => W.AdminOverride(t, order, next, admin).0
    case TrackingAdded(order, status, raw, note, caption) => W.AddTrackingEvent(t, order, status, raw, note, caption).0
    case DetailsSaved(user, order, priced) => W.SaveDetails(t, user, order, priced).0
    case CheckedOut(user, order, complete, priced) => W.ProceedToCheckout(t, user, order, complete, priced).0
    case OrderPlaced(id, placed) =>
      if id in t.orders || placed.status != Draft then t else t.(orders := t.orders[id := placed])
    case GraphMove(order, next, source) =>
      if order !in t.orders || ByCheckout(next) || next == Paid || !CanTransition(t.orders[order].status, next) then t
      else SetStatus(t, order, next, None, source, "")
    case JobChanges(job, state) =>
      if !(0 <= job < |t.jobs|) then t else t.(jobs := t.jobs[job := t.jobs[job].(status := state)])
  }

  function Step(t: Tables, e: Timed): Tables {
    var woken := Wait(t, e.elapsed);
    if IsService(e.event) then ServiceStep(woken, e.event).0
    else if IsPayment(e.event) then PaymentStep(woken, e.event)
    else OtherStep(woken, e.event)
  }

  const EMPTY: Tables := Tables(0, map[], [], [], [], [], [], [], [], map[], [])

  function RunFrom(t: Tables, es: seq<Timed>): Tables {
    if es == [] then t else Step(RunFrom(t, es[..|es| - 1]), es[|es| - 1])
  }

  function Run(es: seq<Timed>): Tables {
    RunFrom(EMPTY, es)
  }

  /** No step of the run overrides the graph. */
  predicate OnGraph(es: seq<Timed>) {
    forall i :: 0 <= i < |es| ==> !es[i].event.AdminOverrides?
  }

  lemma {:induction false} RunConcat(t: Tables, a: seq<Timed>, b: seq<Timed>)
    ensures RunFrom(t, a + b) == RunFrom(RunFrom(t, a), b)
  {
    hide Step;
    if b == [] {
      assert a + b == a;
    } else {
      var n := |b| - 1;
      RunConcat(t, a, b[..n]);
      assert (a + b)[..|a + b| - 1] == a + b[..n];
    }
  }

  // ---- status changes follow the graph ----

  /** One step may confirm a payment and queue the dispatch at once: two moves, through `paid`. */
  predicate Follows(a: Status, b: Status) {
    a == b || CanTransition(a, b) || (CanTransition(a, Paid) && b == DispatchQueued)
  }

  lemma FollowsFacts(a: Status, b: Status)
    requires Follows(a, b)
    ensures Phase(a) <= Phase(b)
    ensures a == Cancelled ==> b == Cancelled
    ensures a != b ==> b != PendingManual && b != PendingManualDispatch && !b.Unlisted?
  {
    if CanTransition(a, b) {
      StepKeepsPhase(a, b);
    } else if a != b {
      StepKeepsPhase(a, Paid);
    }
  }

  ghost predicate OrdersFollow(t: Tables, u: Tables) {
    forall id :: id in t.orders ==>
      id in u.orders && Follows(t.orders[id].status, u.orders[id].status)
      && u.orders[id].user == t.orders[id].user && u.orders[id].carrier == t.orders[id].carrier
  }

  lemma CloseFollows(
    t: Tables, id: int, actor: int, comment: Option<string>, status: RequestStatus, source: string)
    requires HasRequest(t, id)
    ensures OrdersFollow(t, Close(t, id, actor, comment, status, source).0)
  {
  }

  lemma CustomerFollows(t: Tables, user: int, order: int, text: string, api: ApiCall)
    ensures OrdersFollow(t, RequestCancellation(t, user, order, text, api).0)
  {
  }

  lemma RetryApiFollows(t: Tables, id: int, actor: int, api: ApiCall)
    ensures OrdersFollow(t, RetryApi(t, id, actor, api).0)
  {
    if HasRequest(t, id) {
      var r := t.requests[id].(apiAttempted := true, nextRetry := None);
      CloseFollows(SetRequest(Wait(t, api.took), id, r), id, actor, None, ApiCancelled, "admin_retry_api");
    }
  }

  lemma RetryCallFollows(t: Tables, id: int, api: ApiCall)
    requires HasRequest(t, id)
    ensures OrdersFollow(t, RetryCall(t, id, api).0)
  {
    var r := t.requests[id].(apiAttempted := true, nextRetry := None);
    var called := Wait(t, api.took).(attempts := t.attempts + [Attempt(id, t.now)]);
    CloseFollows(SetRequest(called, id, r), id, r.author, None, ApiCancelled, "auto_retry_api");
  }

  lemma AutoRetryFollows(t: Tables, id: int, api: ApiCall)
    ensures OrdersFollow(t, AutoRetry(t, id, api).0)
  {
    if HasRequest(t, id) {
      RetryCallFollows(t, id, api);
    }
  }

  lemma ServiceFollows(t: Tables, e: Event)
    requires IsService(e)
    ensures OrdersFollow(t, ServiceStep(t, e).0)
  {
    match e
    case Customer(user, order, text, api) => CustomerFollows(t, user, order, text, api);
    case CarrierApproves(id, actor, carrier, comment) =>
      if HasRequest(t, id) {
        CloseFollows(t, id, actor, comment, Approved, "carrier_approved");
      }
    case AdminApproves(id, actor, comment) =>
      if HasRequest(t, id) {
        CloseFollows(t, id, actor, comment, Approved, "admin_approved");
      }
    case AdminRetries(id, actor, api) => RetryApiFollows(t, id, actor, api);
    case WorkerRetries(id, api) => AutoRetryFollows(t, id, api);
    case StaffRejects(id, actor, isAdmin, own, text) =>
  }

  lemma ConfirmFollows(
    t: Tables, tx: int, accepted: set<TxStatus>, actor: Option<int>, source: string, settings: W.Settings)
    ensures OrdersFollow(t, W.ConfirmPayment(t, tx, accepted, actor, source, settings).0)
  {
  }

  lemma OpenFollows(t: Tables, order: int, actor: int, bankSet: bool)
    ensures OrdersFollow(t, W.OpenPayment(t, order, actor, bankSet).0)
  {
  }

  lemma SubmitFollows(t: Tables, tx: int, order: int, actor: int)
    ensures OrdersFollow(t, W.SubmitProof(t, tx, order, actor).0)
  {
  }

  lemma DeclineFollows(t: Tables, tx: int, admin: int, text: string)
    ensures OrdersFollow(t, W.RejectPayment(t, tx, admin, text).0)
  {
  }

  lemma RefundFollows(t: Tables, tx: int, admin: int, text: string)
    ensures OrdersFollow(t, W.AdminRefund(t, tx, admin, text).0)
  {
  }

  lemma PaymentFollows(t: Tables, e: Event)
    requires IsPayment(e)
    ensures OrdersFollow(t, PaymentStep(t, e))
  {
    match e
    case PaymentOpened(order, actor, bankSet) => OpenFollows(t, order, actor, bankSet);
    case ProofSubmitted(tx, order, actor) => SubmitFollows(t, tx, order, actor);
    case PaymentApproved(tx, admin, settings) =>
      ConfirmFollows(t, tx, W.REVIEWED, Some(admin), "admin", settings);
    case PaymentAutoConfirmed(tx, source, settings) =>
      ConfirmFollows(t, tx, W.AUTO_CONFIRM, None, source, settings);
    case PaymentDeclined(tx, admin, text) => DeclineFollows(t, tx, admin, text);
    case Refunded(tx, admin, text) => RefundFollows(t, tx, admin, text);
    case ProviderCancelled(order) =>
  }

  lemma WebhookFollows(t: Tables, carrier: string, msg: W.Message)
    ensures OrdersFollow(t, W.Webhook(t, carrier, msg).0)
  {
  }

  lemma AcceptFollows(t: Tables, carrier: string, order: int, actor: int)
    ensures OrdersFollow(t, W.PortalAccept(t, carrier, order, actor).0)
  {
  }

  lemma PortalRejectFollows(t: Tables, carrier: string, order: int, actor: int, text: string)
    ensures OrdersFollow(t, W.PortalReject(t, carrier, order, actor, text).0)
  {
  }

  lemma PodFollows(t: Tables, carrier: string, order: int, actor: int)
    ensures OrdersFollow(t, W.PortalPod(t, carrier, order, actor).0)
  {
  }

  lemma DispatchedFollows(t: Tables, order: int, admin: int)
    ensures OrdersFollow(t, W.MarkDispatched(t, order, admin).0)
  {
  }

  lemma TrackedMoveFollows(t: Tables, order: int, status: Status, caption: string)
    requires order in t.orders && CanTransition(t.orders[order].status, status)
    ensures OrdersFollow(t, W.TrackedMove(t, order, status, caption))
  {
    hide CanTransition;
  }

  lemma TrackingFollows(t: Tables, order: int, status: Status, raw: Option<string>, note: string, caption: string)
    ensures OrdersFollow(t, W.AddTrackingEvent(t, order, status, raw, note, caption).0)
  {
    hide W.Tracked;
    hide W.TrackedMove;
    hide CanTransition;
    if order in t.orders && CanTransition(t.orders[order].status, status) {
      TrackedMoveFollows(Track(t, order, status, raw, note), order, status, caption);
    }
  }

  lemma CheckoutFollows(t: Tables, user: int, order: int, complete: bool, priced: Option<W.Pricing>)
    ensures OrdersFollow(t, W.SaveDetails(t, user, order, priced).0)
    ensures OrdersFollow(t, W.ProceedToCheckout(t, user, order, complete, priced).0)
  {
  }

  lemma OtherFollows(t: Tables, e: Event)
    requires !IsService(e) && !IsPayment(e) && !e.AdminOverrides?
    ensures OrdersFollow(t, OtherStep(t, e))
  {
    hide W.Webhook;
    hide W.AddTrackingEvent;
    hide W.SaveDetails;
    hide W.ProceedToCheckout;
    match e
    case CarrierPosts(carrier, msg) => WebhookFollows(t, carrier, msg);
    case PortalAccepts(carrier, order, actor) => AcceptFollows(t, carrier, order, actor);
    case PortalRejects(carrier, order, actor, text) => PortalRejectFollows(t, carrier, order, actor, text);
    case PortalPods(carrier, order, actor) => PodFollows(t, carrier, order, actor);
    case AdminDispatches(order, admin) => DispatchedFollows(t, order, admin);
    case TrackingAdded(order, status, raw, note, caption) => TrackingFollows(t, order, status, raw, note, caption);
    case DetailsSaved(user, order, priced) => CheckoutFollows(t, user, order, true, priced);
    case CheckedOut(user, order, complete, priced) => CheckoutFollows(t, user, order, complete, priced);
    case _ =>
  }

  lemma StepFollows(t: Tables, e: Timed)
    requires !e.event.AdminOverrides?
    ensures OrdersFollow(t, Step(t, e))
  {
    var woken := Wait(t, e.elapsed);
    if IsService(e.event) {
      ServiceFollows(woken, e.event);
    } else if IsPayment(e.event) {
      PaymentFollows(woken, e.event);
    } else {
      OtherFollows(woken, e.event);
    }
  }
}
