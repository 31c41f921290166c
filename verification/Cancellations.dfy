/**
 `CancellationRequestsService` as functions on the tables: one function per public method, each one
 atomic step.  The carrier's answer is an input; `elapsed` and `took` move the clock.
 */
module Cancellations {
  import opened Prelude
  import opened OrderStatus
  import opened Store
  import Commissions

  // ---- inputs and replies ----

  datatype Answer = InvoiceMissing | NoCredentials | Raised(message: string) | Refused | Accepted

  /** What the carrier API said, and how long the call took. */
  datatype ApiCall = ApiCall(answer: Answer, took: nat)

  datatype Error = Invalid | NotFound | Forbidden | Conflict | OrderMovedOn | TransitionNotAllowed

  datatype Reply =
    | OrderCancelled
    | Requested(id: nat)
    | Closed(status: RequestStatus)
    | StillPending
    | Stale | Rescheduled | Exhausted
    | Refusal(error: Error)

  const BACKOFF: seq<nat> := [30, 120, 600]
  const MAX_RETRIES: nat := |BACKOFF|

  predicate HasCancelApi(carrier: string) {
    carrier == "cse" || carrier == "exline"
  }

  /** `_try_api_cancel`: None is success, otherwise the error text. */
  function TryApi(answer: Answer): Option<string> {
    match answer
    case InvoiceMissing => Some("invoice_id_missing")
    case NoCredentials => Some("no_active_credentials")
    case Raised(message) => Some(if |message| > 1000 then message[..1000] else message)
    case Refused => Some("carrier_refused")
    case Accepted => None
  }

  // ---- texts ----

  predicate IsSpace(c: char) {
    c in {' ', '\t', '\n', '\r'}
  }

  function Strip(s: string): string {
    if s != "" && IsSpace(s[0]) then Strip(s[1..])
    else if s != "" && IsSpace(s[|s| - 1]) then Strip(s[..|s| - 1])
    else s
  }

  predicate ValidText(s: string) {
    3 <= |Strip(s)| <= 500
  }

  function CommentText(comment: Option<string>): Response {
    if comment == None || Strip(comment.value) == "" then NoResponse else Comment(Strip(comment.value))
  }

  // ---- lookups ----

  predicate IsPendingFor(r: Request, order: int) {
    r.order == order && r.status == Pending
  }

  predicate HasPending(requests: seq<Request>, order: int) {
    exists i :: 0 <= i < |requests| && IsPendingFor(requests[i], order)
  }

  predicate HasRequest(t: Tables, id: int) {
    0 <= id < |t.requests|
  }

  predicate IsPending(t: Tables, id: int) {
    HasRequest(t, id) && t.requests[id].status == Pending
  }

  /** `_get_pending_or_400`. */
  function PendingError(t: Tables, id: int): Option<Error> {
    if !HasRequest(t, id) then Some(NotFound)
    else if t.requests[id].status != Pending then Some(Conflict)
    else None
  }

  function SetRequest(t: Tables, id: int, r: Request): Tables
    requires HasRequest(t, id)
  {
    t.(requests := t.requests[id := r])
  }

  // ---- finalization ----

  predicate InDispatchQueue(s: Status) {
    s in {DispatchQueued, DispatchFailed, PendingManual, PendingManualDispatch}
  }

  predicate Stoppable(j: Job, order: int) {
    j.order == order && j.status in {Queued, Failed}
  }

  function StoppedJob(j: Job, order: int): Job {
    if Stoppable(j, order) then j.(status := JobCancelled) else j
  }

  function StopJobs(jobs: seq<Job>, order: int): (stopped: seq<Job>)
    ensures |stopped| == |jobs|
    ensures forall i :: 0 <= i < |jobs| ==> stopped[i] == StoppedJob(jobs[i], order)
  {
    seq(|jobs|, i requires 0 <= i < |jobs| => StoppedJob(jobs[i], order))
  }

  /** `_finalize_cancellation` past its guard. */
  function Finalized(t: Tables, id: int, reason: string, actor: int, source: string): Tables
    requires id in t.orders
  {
    var status := t.orders[id].status;
    var moved := Track(SetStatus(t, id, Cancelled, Some(actor), source, reason), id, Cancelled, None, reason);
    moved.(
      jobs := if InDispatchQueue(status) then StopJobs(t.jobs, id) else t.jobs,
      ledger := Commissions.Reverse(t.ledger, id, source + ": " + reason, t.now),
      txs := MoveTxs(t.txs, id, PAID_TX, TxRefundPending),
      txHistory := t.txHistory + MoveRows(t.txs, id, PAID_TX, TxRefundPending, actor, reason))
  }

  /** `_finalize_and_close`. */
  function Close(
    t: Tables, id: int, actor: int, comment: Option<string>, status: RequestStatus, source: string)
    : (Tables, Reply)
    requires HasRequest(t, id)
  {
    var r := t.requests[id];
    if r.order !in t.orders then (t, Refusal(NotFound))
    else
      var o := t.orders[r.order];
      if !Cancellable(o.status) && o.status != Cancelled then
        (SetRequest(t, id, r.(status := Rejected, response := MovedOn(o.status), resolvedBy := Some(actor),
                              resolvedAt := Some(t.now), nextRetry := None)),
         Refusal(OrderMovedOn))
      else if o.status != Cancelled && !CanTransition(o.status, Cancelled) then
        (t, Refusal(TransitionNotAllowed))
      else
        var done := if o.status != Cancelled then Finalized(t, r.order, r.reason, actor, source) else t;
        (SetRequest(done, id, r.(status := status, response := CommentText(comment), resolvedBy := Some(actor),
                                 resolvedAt := Some(t.now))),
         Closed(status))
  }

  // ---- customer ----

  const PAID_TX: set<TxStatus> := {TxPaid}
  const OPEN_TX: set<TxStatus> := {TxUnpaid, TxAwaiting, TxRejected}

  /** `_cancel_unpaid`: close the open transactions, then finalize. */
  function CancelUnpaid(t: Tables, id: int, actor: int, reason: string): (Tables, Reply)
    requires id in t.orders
  {
    if !CanTransition(t.orders[id].status, Cancelled) then (t, Refusal(TransitionNotAllowed))
    else
      var closed := t.(txs := MoveTxs(t.txs, id, OPEN_TX, TxCancelled),
                       txHistory := t.txHistory + MoveRows(t.txs, id, OPEN_TX, TxCancelled, actor, reason));
      (Finalized(closed, id, reason, actor, "customer_cancel_unpaid"), OrderCancelled)
  }

  /** `_create_request_and_notify`; `apiError` is Some exactly when the API was tried. */
  function CreateRequest(t: Tables, order: int, author: int, reason: string, apiError: Option<string>, openedAt: int)
    : (Tables, Reply)
    requires order in t.orders
  {
    var carrier := t.orders[order].carrier;
    var retryAt := if apiError.Some? && HasCancelApi(carrier) then Some(t.now + BACKOFF[0]) else None;
    var r := Request(order, author, carrier, reason, Pending, apiError.Some?, apiError, NoResponse,
                     None, None, 0, retryAt, openedAt);
    (t.(requests := t.requests + [r]), Requested(|t.requests|))
  }

  function RequestCancellation(t: Tables, user: int, order: int, text: string, api: ApiCall): (Tables, Reply) {
    var reason := Strip(text);
    if !ValidText(text) then (t, Refusal(Invalid))
    else if order !in t.orders then (t, Refusal(NotFound))
    else if t.orders[order].user != user then (t, Refusal(Forbidden))
    else if UnpaidCancellable(t.orders[order].status) then CancelUnpaid(t, order, user, reason)
    else if !Cancellable(t.orders[order].status) then (t, Refusal(Invalid))
    else if HasPending(t.requests, order) then (t, Refusal(Conflict))
    else if !HasCancelApi(t.orders[order].carrier) || !ApiAllowed(t.orders[order].status) then
      CreateRequest(t, order, user, reason, None, t.now)
    else
      var called := Wait(t, api.took);
      var error := TryApi(api.answer);
      if error.Some? then CreateRequest(called, order, user, reason, error, t.now)
      else if !CanTransition(t.orders[order].status, Cancelled) then (called, Refusal(TransitionNotAllowed))
      else (Finalized(called, order, reason, user, "customer_cancel_via_api"), OrderCancelled)
  }

  // ---- staff ----

  function ApproveByCarrier(t: Tables, id: int, actor: int, carrier: string, comment: Option<string>): (Tables, Reply) {
    var error := PendingError(t, id);
    if error.Some? then (t, Refusal(error.value))
    else if t.requests[id].carrier != carrier then (t, Refusal(Forbidden))
    else Close(t, id, actor, comment, Approved, "carrier_approved")
  }

  function ApproveByAdmin(t: Tables, id: int, actor: int, comment: Option<string>): (Tables, Reply) {
    var error := PendingError(t, id);
    if error.Some? then (t, Refusal(error.value))
    else Close(t, id, actor, comment, Approved, "admin_approved")
  }

  function RetryApi(t: Tables, id: int, actor: int, api: ApiCall): (Tables, Reply) {
    var error := PendingError(t, id);
    if error.Some? then (t, Refusal(error.value))
    else
      var r := t.requests[id];
      if !HasCancelApi(r.carrier) then (t, Refusal(Invalid))
      else if r.order !in t.orders then (t, Refusal(NotFound))
      else if !ApiAllowed(t.orders[r.order].status) then (t, Refusal(Invalid))
      else
        var called := Wait(t, api.took);
        var refusal := TryApi(api.answer);
        if refusal.Some? then
          (SetRequest(called, id, r.(apiAttempted := true, apiError := refusal)), StillPending)
        else
          Close(SetRequest(called, id, r.(apiAttempted := true, nextRetry := None)),
                id, actor, None, ApiCancelled, "admin_retry_api")
  }

  function Reject(
    t: Tables, id: int, actor: int, isAdmin: bool, carrier: Option<string>, comment: string): (Tables, Reply) {
    var error := PendingError(t, id);
    if !ValidText(comment) then (t, Refusal(Invalid))
    else if error.Some? then (t, Refusal(error.value))
    else if !isAdmin && Some(t.requests[id].carrier) != carrier then (t, Refusal(Forbidden))
    else
      (SetRequest(t, id, t.requests[id].(status := Rejected, response := Comment(Strip(comment)),
                                         resolvedBy := Some(actor), resolvedAt := Some(t.now))),
       Closed(Rejected))
  }

  // ---- retry worker ----

  predicate IsDue(r: Request, now: int) {
    r.status == Pending && r.nextRetry.Some? && r.nextRetry.value <= now
  }

  /** A due request whose API may still be called. */
  predicate WillCall(t: Tables, id: int) {
    && HasRequest(t, id) && IsDue(t.requests[id], t.now) && HasCancelApi(t.requests[id].carrier)
    && t.requests[id].order in t.orders && ApiAllowed(t.orders[t.requests[id].order].status)
  }

  /** The automatic call itself, and what each answer leads to. */
  function RetryCall(t: Tables, id: int, api: ApiCall): (Tables, Reply)
    requires HasRequest(t, id)
  {
    var r := t.requests[id];
    var called := Wait(t, api.took).(attempts := t.attempts + [Attempt(id, t.now)]);
    var refusal := TryApi(api.answer);
    if refusal.None? then
      Close(SetRequest(called, id, r.(apiAttempted := true, nextRetry := None)),
            id, r.author, None, ApiCancelled, "auto_retry_api")
    else
      var failed := r.(apiAttempted := true, apiError := refusal, retries := r.retries + 1);
      if failed.retries >= MAX_RETRIES then
        (SetRequest(called, id, failed.(nextRetry := None)), Exhausted)
      else
        (SetRequest(called, id, failed.(nextRetry := Some(called.now + BACKOFF[failed.retries]))), Rescheduled)
  }

  function AutoRetry(t: Tables, id: int, api: ApiCall): (Tables, Reply) {
    if !HasRequest(t, id) || !IsDue(t.requests[id], t.now) then (t, Stale)
    else if !WillCall(t, id) then (SetRequest(t, id, t.requests[id].(nextRetry := None)), Stale)
    else RetryCall(t, id, api)
  }
}
