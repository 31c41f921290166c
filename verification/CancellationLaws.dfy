/**
 What each operation of the cancellation service comes to, in any state of the database: which answer of the
 carrier cancels, whose request reaches the carrier at all, and what is left as it was.
 */
module CancellationLaws {
  import opened Prelude
  import opened OrderStatus
  import opened Store
  import opened Cancellations
  import opened World
  import R = RequestLaws
  import Commissions

  // ---- the status sets and the graph ----

  /** The service's sets are cut out of the graph by the stage of the order's life. */
  lemma SetsFollowGraph(s: Status)
    ensures Cancellable(s) <==> CanTransition(s, Cancelled) && PAID <= Phase(s) <= DISPATCH
    ensures UnpaidCancellable(s) <==>
              CanTransition(s, Cancelled) && Phase(s) == UNPAID && s != Draft && s != PaymentUnderReview
    ensures InDispatchQueue(s) <==> Cancellable(s) && s != Paid && s != SentToCarrier
    ensures ApiAllowed(s) <==> s == Paid || s == SentToCarrier
  {
  }

  // ---- texts ----

  predicate Blank(s: string) {
    forall i :: 0 <= i < |s| ==> s[i] == ' ' || s[i] == '\t' || s[i] == '\n' || s[i] == '\r'
  }

  /** Stripping takes blanks off both ends, and all of them. */
  lemma {:induction false} StripTrims(s: string) returns (before: string, after: string)
    ensures s == before + Strip(s) + after && Blank(before) && Blank(after)
    ensures Strip(s) != "" ==> !Blank(Strip(s)[..1]) && !Blank(Strip(s)[|Strip(s)| - 1..])
  {
    before, after := "", "";
    if s != "" && IsSpace(s[0]) {
      before, after := StripTrims(s[1..]);
      var core := Strip(s);
      assert core == Strip(s[1..]);
      hide Strip;
      assert s == [s[0]] + s[1..] == ([s[0]] + before) + core + after;
      before := [s[0]] + before;
    } else if s != "" && IsSpace(s[|s| - 1]) {
      var n := |s| - 1;
      before, after := StripTrims(s[..n]);
      var core := Strip(s);
      assert core == Strip(s[..n]);
      hide Strip;
      assert s == s[..n] + [s[n]] == before + core + (after + [s[n]]);
      after := after + [s[n]];
    }
  }

  // ---- one answer of the carrier ----

  /** What an answer other than acceptance leaves on the request. */
  predicate Records(answer: Answer, error: Option<string>) {
    && (answer == Refused ==> error == Some("carrier_refused"))
    && (answer == InvoiceMissing ==> error == Some("invoice_id_missing"))
    && (answer == NoCredentials ==> error == Some("no_active_credentials"))
    && (answer.Raised? ==> error.Some? && error.value <= answer.message && (error.value == answer.message || |error.value| == 1000))
    && (answer == Accepted ==> error == None)
  }

  /** Orders, money, jobs and all logs are as they were. */
  predicate BooksUntouched(t: Tables, u: Tables) {
    u == t.(now := u.now, requests := u.requests, attempts := u.attempts)
  }

  predicate HasApi(carrier: string) {
    carrier == "cse" || carrier == "exline"
  }

  predicate AtApiStage(t: Tables, order: int) {
    order in t.orders && (t.orders[order].status == Paid || t.orders[order].status == SentToCarrier)
  }

  predicate PendingFor(t: Tables, order: int) {
    exists i :: 0 <= i < |t.requests| && t.requests[i].status == Pending && t.requests[i].order == order
  }

  predicate Readable(text: string) {
    3 <= |Strip(text)| <= 500
  }

  predicate OwnOrder(t: Tables, user: int, order: int) {
    order in t.orders && t.orders[order].user == user
  }

  lemma PendingIs(t: Tables, order: int)
    ensures HasPending(t.requests, order) <==> PendingFor(t, order)
  {
    if HasPending(t.requests, order) {
      var i :| 0 <= i < |t.requests| && IsPendingFor(t.requests[i], order);
      assert t.requests[i].status == Pending;
    }
    if PendingFor(t, order) {
      var i :| 0 <= i < |t.requests| && t.requests[i].status == Pending && t.requests[i].order == order;
      assert IsPendingFor(t.requests[i], order);
    }
  }

  /** The last history row cancels the order, in the name of this actor and source, for this reason. */
  predicate CancelledBy(t: Tables, u: Tables, order: int, actor: int, source: string, reason: string) {
    order in t.orders && u.history == t.history + [HistoryRow(order, t.orders[order].status, Cancelled, Some(actor), source, reason)]
  }

  // ---- the customer ----

  predicate CustomerCalls(t: Tables, user: int, order: int, text: string) {
    && Readable(text) && OwnOrder(t, user, order) && AtApiStage(t, order) && HasApi(t.orders[order].carrier)
    && !PendingFor(t, order)
  }

  /** A new request on its way to the staff, with its first retry half a minute off if the carrier was asked. */
  predicate OpensRequest(t: Tables, u: Tables, order: int, user: int, text: string, asked: bool, error: Option<string>)
    requires order in t.orders
  {
    && |u.requests| == |t.requests| + 1 && u.requests[..|t.requests|] == t.requests
    && var r := u.requests[|t.requests|];
       && r.status == Pending && r.order == order && r.author == user && r.reason == Strip(text)
       && r.carrier == t.orders[order].carrier && r.createdAt == t.now && r.retries == 0
       && r.apiAttempted == asked && r.apiError == error
       && r.nextRetry == (if asked then Some(u.now + 30) else None)
       && r.resolvedBy == None && r.resolvedAt == None && r.response == NoResponse
  }

  /**
   Where the customer's request reaches the carrier, the order ends cancelled if and only if the carrier
   accepted; on any other answer only a pending request is added, with the error on it.
   */
  lemma CustomerAnswer(t: Tables, user: int, order: int, text: string, api: ApiCall)
    requires CustomerCalls(t, user, order, text)
    ensures var (u, reply) := RequestCancellation(t, user, order, text, api);
            && u.now == t.now + api.took && order in u.orders
            && (u.orders[order].status == Cancelled <==> api.answer == Accepted)
            && (reply == OrderCancelled <==> api.answer == Accepted)
            && (api.answer == Accepted ==>
                  u.requests == t.requests && CancelledBy(t, u, order, user, "customer_cancel_via_api", Strip(text)))
            && (api.answer != Accepted ==>
                  && reply == Requested(|t.requests|) && BooksUntouched(t, u)
                  && exists error :: Records(api.answer, error) && OpensRequest(t, u, order, user, text, true, error))
  {
    PendingIs(t, order);
    hide Strip;
    hide MoveTxs;
    hide MoveRows;
    hide StopJobs;
    hide Commissions.Reverse;
    var u := RequestCancellation(t, user, order, text, api).0;
    if api.answer != Accepted {
      var error := u.requests[|t.requests|].apiError;
      assert Records(api.answer, error) && OpensRequest(t, u, order, user, text, true, error);
    }
  }

  /** The carrier's answer matters nowhere else: the request reaches the carrier exactly under `CustomerCalls`. */
  lemma AnswerMattersIffCalled(t: Tables, user: int, order: int, text: string)
    ensures (forall a: ApiCall, b: ApiCall ::
               RequestCancellation(t, user, order, text, a) == RequestCancellation(t, user, order, text, b))
            <==> !CustomerCalls(t, user, order, text)
  {
    PendingIs(t, order);
    if CustomerCalls(t, user, order, text) {
      CustomerAnswer(t, user, order, text, ApiCall(Accepted, 0));
      CustomerAnswer(t, user, order, text, ApiCall(Refused, 0));
      assert RequestCancellation(t, user, order, text, ApiCall(Accepted, 0))
          != RequestCancellation(t, user, order, text, ApiCall(Refused, 0));
    }
  }

  predicate UnpaidStage(s: Status) {
    s == ShipmentDetailsCompleted || s == ReadyForCheckout || s == AwaitingPayment || s == PaymentRejected
  }

  predicate PaidStage(s: Status) {
    s in {Paid, DispatchQueued, DispatchFailed, PendingManual, PendingManualDispatch, SentToCarrier}
  }

  /**
   Every outcome of a customer's request, and exactly when: cancelled at once, handed to the staff, or refused
   for the text, the order, its owner, its status, or a request already pending.  A refusal changes nothing.
   */
  lemma CustomerOutcome(t: Tables, user: int, order: int, text: string, api: ApiCall)
    ensures var (u, reply) := RequestCancellation(t, user, order, text, api);
            var own := Readable(text) && OwnOrder(t, user, order);
            var calls := CustomerCalls(t, user, order, text);
            && (reply == OrderCancelled <==>
                  own && (UnpaidStage(t.orders[order].status) || (calls && api.answer == Accepted)))
            && (reply == OrderCancelled ==>
                  && order in u.orders && u.orders[order].status == Cancelled
                  && CancelledBy(t, u, order, user, if calls then "customer_cancel_via_api" else "customer_cancel_unpaid",
                                 Strip(text)))
            && (reply.Requested? <==>
                  own && PaidStage(t.orders[order].status) && !PendingFor(t, order) && !(calls && api.answer == Accepted))
            && (reply.Requested? ==> BooksUntouched(t, u))
            && (reply.Requested? && !calls ==> u.now == t.now && OpensRequest(t, u, order, user, text, false, None))
            && (reply == Refusal(NotFound) <==> Readable(text) && order !in t.orders)
            && (reply == Refusal(Forbidden) <==> Readable(text) && order in t.orders && t.orders[order].user != user)
            && (reply == Refusal(Conflict) <==> own && PaidStage(t.orders[order].status) && PendingFor(t, order))
            && (reply == Refusal(Invalid) <==>
                  !Readable(text) || (own && !UnpaidStage(t.orders[order].status) && !PaidStage(t.orders[order].status)))
            && (reply.Refusal? ==> u == t)
  {
    PendingIs(t, order);
    hide Strip;
    hide MoveTxs;
    hide MoveRows;
    hide StopJobs;
    hide Commissions.Reverse;
  }

  // ---- the staff ----

  predicate Waiting(t: Tables, id: int) {
    0 <= id < |t.requests| && t.requests[id].status == Pending
  }

  predicate StaffCalls(t: Tables, id: int) {
    Waiting(t, id) && HasApi(t.requests[id].carrier) && AtApiStage(t, t.requests[id].order)
  }

  /** Only this request changed. */
  predicate OnlyRequest(t: Tables, u: Tables, id: int) {
    0 <= id < |t.requests| && |u.requests| == |t.requests| && u.requests == t.requests[id := u.requests[id]]
  }

  /** A manual retry cancels exactly on acceptance; else it only notes the error, and leaves the schedule alone. */
  lemma ManualRetryAnswer(t: Tables, id: int, actor: int, api: ApiCall)
    requires StaffCalls(t, id)
    ensures var (u, reply) := RetryApi(t, id, actor, api);
            var order := t.requests[id].order;
            && u.now == t.now + api.took && order in u.orders
            && (u.orders[order].status == Cancelled <==> api.answer == Accepted)
            && (api.answer == Accepted ==>
                  reply == Closed(ApiCancelled) && OnlyRequest(t, u, id) && u.requests[id].status == ApiCancelled
                  && u.requests[id].nextRetry == None && u.requests[id].resolvedBy == Some(actor)
                  && CancelledBy(t, u, order, actor, "admin_retry_api", t.requests[id].reason))
            && (api.answer != Accepted ==>
                  && reply == StillPending && BooksUntouched(t, u) && OnlyRequest(t, u, id)
                  && u.requests[id] == t.requests[id].(apiAttempted := true, apiError := u.requests[id].apiError)
                  && Records(api.answer, u.requests[id].apiError))
  {
    hide Close;
    var r := t.requests[id].(apiAttempted := true, nextRetry := None);
    ClosedByCall(SetRequest(Wait(t, api.took), id, r), id, actor, "admin_retry_api");
  }

  lemma ManualRetryMattersIffCalled(t: Tables, id: int, actor: int)
    ensures (forall a: ApiCall, b: ApiCall :: RetryApi(t, id, actor, a) == RetryApi(t, id, actor, b))
            <==> !StaffCalls(t, id)
    ensures !StaffCalls(t, id) ==>
              forall a: ApiCall ::
                RetryApi(t, id, actor, a)
                == (t, if !Waiting(t, id) then NotWaiting(t, id)
                       else if HasApi(t.requests[id].carrier) && t.requests[id].order !in t.orders then Refusal(NotFound)
                       else Refusal(Invalid))
  {
    if StaffCalls(t, id) {
      ManualRetryAnswer(t, id, actor, ApiCall(Accepted, 0));
      ManualRetryAnswer(t, id, actor, ApiCall(Refused, 0));
      assert RetryApi(t, id, actor, ApiCall(Accepted, 0)) != RetryApi(t, id, actor, ApiCall(Refused, 0));
    }
  }

  predicate Spoken(comment: Option<string>) {
    comment.Some? && Strip(comment.value) != ""
  }

  /** An approval grants the request if its order may still be cancelled, or is; else the request is rejected. */
  predicate Granted(t: Tables, u: Tables, id: int, actor: int, comment: Option<string>, source: string) {
    && OnlyRequest(t, u, id)
    && var r, order := u.requests[id], t.requests[id].order;
       var open := order in t.orders && (PaidStage(t.orders[order].status) || t.orders[order].status == Cancelled);
       && r.resolvedBy == Some(actor) && r.resolvedAt == Some(t.now)
       && r.status == (if open then Approved else Rejected)
       && (open ==> order in u.orders && u.orders[order].status == Cancelled)
       && (order in t.orders && PaidStage(t.orders[order].status) ==>
             CancelledBy(t, u, order, actor, source, t.requests[id].reason))
       && (order in t.orders && t.orders[order].status == Cancelled ==> BooksUntouched(t, u))
       && (open ==> r.response == if Spoken(comment) then Comment(Strip(comment.value)) else NoResponse)
       && (!open ==> BooksUntouched(t, u) && (order in t.orders ==> r.response == MovedOn(t.orders[order].status)))
  }

  function ApprovalReply(t: Tables, id: int): Reply
    requires Waiting(t, id) && t.requests[id].order in t.orders
  {
    var status := t.orders[t.requests[id].order].status;
    if PaidStage(status) || status == Cancelled then Closed(Approved) else Refusal(OrderMovedOn)
  }

  lemma ClosedByApproval(t: Tables, id: int, actor: int, comment: Option<string>, source: string)
    requires OrdersKnown(t) && Waiting(t, id)
    ensures Granted(t, Close(t, id, actor, comment, Approved, source).0, id, actor, comment, source)
    ensures Close(t, id, actor, comment, Approved, source).1 == ApprovalReply(t, id)
  {
    hide MoveTxs;
    hide MoveRows;
    hide StopJobs;
    hide Strip;
    hide Commissions.Reverse;
  }

  /** The refusal of a request that is not there, or already resolved. */
  function NotWaiting(t: Tables, id: int): Reply {
    Refusal(if 0 <= id < |t.requests| then Conflict else NotFound)
  }

  /** An order that is gone is not found, and nothing changes. */
  lemma ApprovalWithoutOrder(t: Tables, id: int, actor: int, comment: Option<string>)
    requires Waiting(t, id) && t.requests[id].order !in t.orders
    ensures ApproveByCarrier(t, id, actor, t.requests[id].carrier, comment) == (t, Refusal(NotFound))
    ensures ApproveByAdmin(t, id, actor, comment) == (t, Refusal(NotFound))
  {
  }

  lemma Approvals(t: Tables, id: int, actor: int, carrier: string, comment: Option<string>)
    requires OrdersKnown(t)
    ensures var (u, reply) := ApproveByCarrier(t, id, actor, carrier, comment);
            && (Waiting(t, id) && t.requests[id].carrier == carrier ==> Granted(t, u, id, actor, comment, "carrier_approved"))
            && (Waiting(t, id) && t.requests[id].carrier == carrier ==> reply == ApprovalReply(t, id))
            && (Waiting(t, id) && t.requests[id].carrier != carrier ==> u == t && reply == Refusal(Forbidden))
            && (!Waiting(t, id) ==> u == t && reply == NotWaiting(t, id))
    ensures var (u, reply) := ApproveByAdmin(t, id, actor, comment);
            if Waiting(t, id) then Granted(t, u, id, actor, comment, "admin_approved") && reply == ApprovalReply(t, id)
            else u == t && reply == NotWaiting(t, id)
  {
    hide Close;
    hide Granted;
    if Waiting(t, id) {
      ClosedByApproval(t, id, actor, comment, "carrier_approved");
      ClosedByApproval(t, id, actor, comment, "admin_approved");
    }
  }

  /** A rejection with a readable text, by the request's carrier or an admin, closes the request and only it. */
  lemma Rejection(t: Tables, id: int, actor: int, isAdmin: bool, carrier: Option<string>, text: string)
    ensures var (u, reply) := Reject(t, id, actor, isAdmin, carrier, text);
            var allowed := Waiting(t, id) && Readable(text) && (isAdmin || carrier == Some(t.requests[id].carrier));
            && (allowed ==>
                  && reply == Closed(Rejected) && BooksUntouched(t, u) && u.now == t.now && OnlyRequest(t, u, id)
                  && u.requests[id] == t.requests[id].(status := Rejected, response := Comment(Strip(text)),
                                                       resolvedBy := Some(actor), resolvedAt := Some(t.now)))
            && (!allowed ==> u == t)
            && (!Readable(text) ==> reply == Refusal(Invalid))
            && (Readable(text) && !Waiting(t, id) ==> reply == NotWaiting(t, id))
            && (Readable(text) && Waiting(t, id) && !allowed ==> reply == Refusal(Forbidden))
  {
  }

  // ---- the retry worker ----

  predicate WorkerCalls(t: Tables, id: int) {
    StaffCalls(t, id) && t.requests[id].nextRetry.Some? && t.requests[id].nextRetry.value <= t.now
  }

  /**
   A due automatic retry cancels exactly on acceptance.  Else it spends one retry: after the first the next is
   two minutes off, after the second ten, after the third there is none, all counted from the call's end.
   */
  lemma AutomaticRetryAnswer(t: Tables, id: int, api: ApiCall)
    requires WorkerCalls(t, id)
    ensures var (u, reply) := AutoRetry(t, id, api);
            var order, r := t.requests[id].order, t.requests[id];
            && u.now == t.now + api.took && order in u.orders && OnlyRequest(t, u, id)
            && u.attempts == t.attempts + [Attempt(id, t.now)]
            && (u.orders[order].status == Cancelled <==> api.answer == Accepted)
            && (api.answer == Accepted ==>
                  reply == Closed(ApiCancelled) && u.requests[id].status == ApiCancelled
                  && u.requests[id].nextRetry == None && u.requests[id].resolvedBy == Some(r.author)
                  && CancelledBy(t, u, order, r.author, "auto_retry_api", r.reason))
            && (api.answer != Accepted ==>
                  && BooksUntouched(t, u) && u.requests[id].status == Pending && u.requests[id].retries == r.retries + 1
                  && Records(api.answer, u.requests[id].apiError)
                  && (reply == Rescheduled <==> r.retries < 2) && (reply == Exhausted <==> r.retries >= 2)
                  && u.requests[id].nextRetry
                     == (if r.retries == 0 then Some(u.now + 120) else if r.retries == 1 then Some(u.now + 600) else None))
  {
    hide AutoRetry;
    hide Records;
    if api.answer == Accepted {
      AcceptedRetry(t, id, api);
    } else {
      FailedRetry(t, id, api);
    }
  }

  /** Closing a request on the carrier's word, while the graph still lets its order be cancelled. */
  lemma ClosedByCall(s: Tables, id: int, actor: int, source: string)
    requires HasRequest(s, id) && AtApiStage(s, s.requests[id].order)
    ensures var (u, reply) := Close(s, id, actor, None, ApiCancelled, source);
            var order := s.requests[id].order;
            && reply == Closed(ApiCancelled) && order in u.orders && u.orders[order].status == Cancelled
            && u.now == s.now && u.attempts == s.attempts && CancelledBy(s, u, order, actor, source, s.requests[id].reason)
            && u.requests == s.requests[id := s.requests[id].(status := ApiCancelled, response := NoResponse,
                                                              resolvedBy := Some(actor), resolvedAt := Some(s.now))]
  {
    hide MoveTxs;
    hide MoveRows;
    hide StopJobs;
    hide Commissions.Reverse;
  }

  lemma AcceptedRetry(t: Tables, id: int, api: ApiCall)
    requires WorkerCalls(t, id) && api.answer == Accepted
    ensures var (u, reply) := AutoRetry(t, id, api);
            var order := t.requests[id].order;
            && u.now == t.now + api.took && order in u.orders && u.orders[order].status == Cancelled
            && OnlyRequest(t, u, id) && u.attempts == t.attempts + [Attempt(id, t.now)]
            && reply == Closed(ApiCancelled) && u.requests[id].status == ApiCancelled
            && u.requests[id].nextRetry == None && u.requests[id].resolvedBy == Some(t.requests[id].author)
            && CancelledBy(t, u, order, t.requests[id].author, "auto_retry_api", t.requests[id].reason)
  {
    hide Close;
    var r := t.requests[id].(apiAttempted := true, nextRetry := None);
    var called := Wait(t, api.took).(attempts := t.attempts + [Attempt(id, t.now)]);
    ClosedByCall(SetRequest(called, id, r), id, r.author, "auto_retry_api");
  }

  lemma FailedRetry(t: Tables, id: int, api: ApiCall)
    requires WorkerCalls(t, id) && api.answer != Accepted
    ensures var (u, reply) := AutoRetry(t, id, api);
            var r := t.requests[id];
            && u.now == t.now + api.took && OnlyRequest(t, u, id) && BooksUntouched(t, u)
            && u.attempts == t.attempts + [Attempt(id, t.now)]
            && u.requests[id].status == Pending && u.requests[id].retries == r.retries + 1
            && Records(api.answer, u.requests[id].apiError)
            && (reply == Rescheduled <==> r.retries < 2) && (reply == Exhausted <==> r.retries >= 2)
            && u.requests[id].nextRetry
               == (if r.retries == 0 then Some(u.now + 120) else if r.retries == 1 then Some(u.now + 600) else None)
  {
    hide Close;
    assert BACKOFF[1] == 120 && BACKOFF[2] == 600;
  }

  /** Any other turn calls nobody; a due request that may not be retried any more only loses its schedule. */
  lemma OtherTurnsCallNobody(t: Tables, id: int, api: ApiCall)
    requires !WorkerCalls(t, id)
    ensures var (u, reply) := AutoRetry(t, id, api);
            var due := Waiting(t, id) && t.requests[id].nextRetry.Some? && t.requests[id].nextRetry.value <= t.now;
            && reply == Stale
            && u == if due then t.(requests := t.requests[id := t.requests[id].(nextRetry := None)]) else t
  {
  }

  // ---- what a finalization leaves ----

  /** The order is cancelled and nothing else about it or any other order changes; one history row says so. */
  lemma FinalizedOrder(t: Tables, order: int, reason: string, actor: int, source: string)
    requires order in t.orders
    ensures var u := Finalized(t, order, reason, actor, source);
            && u.orders == t.orders[order := t.orders[order].(status := Cancelled)]
            && u.history == t.history + [HistoryRow(order, t.orders[order].status, Cancelled, Some(actor), source, reason)]
            && u.tracking == t.tracking + [TrackingRow(order, Cancelled, None, reason)]
            && u.requests == t.requests && u.now == t.now && u.webhooks == t.webhooks && u.attempts == t.attempts
            && Commissions.ReversedOnce(t.ledger, u.ledger, order, source + ": " + reason, t.now)
  {
    Commissions.ReverseIsOnce(t.ledger, order, source + ": " + reason, t.now);
    hide Commissions.ReversedOnce;
  }

  /** Cancelled before payment: the order's unpaid, awaiting and rejected transactions are closed, no other. */
  lemma UnpaidCloses(t: Tables, user: int, order: int, text: string, api: ApiCall, i: nat)
    requires Readable(text) && OwnOrder(t, user, order) && UnpaidStage(t.orders[order].status)
    requires i < |t.txs| && (t.txs[i].order == order ==> t.txs[i].status != TxPaid)
    ensures var u := RequestCancellation(t, user, order, text, api).0;
            && |u.txs| == |t.txs| && u.now == t.now
            && u.txs[i] == if t.txs[i].order == order && t.txs[i].status in {TxUnpaid, TxAwaiting, TxRejected}
                           then t.txs[i].(status := TxCancelled) else t.txs[i]
  {
    var closed := MoveTxs(t.txs, order, OPEN_TX, TxCancelled);
    assert closed[i] == Moved(t.txs[i], order, OPEN_TX, TxCancelled);
    assert MoveTxs(closed, order, PAID_TX, TxRefundPending)[i] == Moved(closed[i], order, PAID_TX, TxRefundPending);
  }

  // ---- who granted it, over whole runs ----

  predicate Approvable(t: Tables, i: nat) {
    && Waiting(t, i) && t.requests[i].order in t.orders
    && (PaidStage(t.orders[t.requests[i].order].status) || t.orders[t.requests[i].order].status == Cancelled)
  }

  /** The step grants the request in this way: an accepted call, or the approval of its own carrier or an admin. */
  predicate Grants(t: Tables, e: Event, i: nat, how: RequestStatus) {
    match e
    case AdminRetries(id, _, api) => how == ApiCancelled && id == i && StaffCalls(t, i) && api.answer == Accepted
    case WorkerRetries(id, api) => how == ApiCancelled && id == i && WorkerCalls(t, i) && api.answer == Accepted
    case CarrierApproves(id, _, carrier, _) =>
      how == Approved && id == i && Approvable(t, i) && t.requests[i].carrier == carrier
    case AdminApproves(id, _, _) => how == Approved && id == i && Approvable(t, i)
    case _ => false
  }

  predicate StatusOf(t: Tables, i: nat, status: RequestStatus) {
    i < |t.requests| && t.requests[i].status == status
  }

  predicate OrdersKnown(t: Tables) {
    forall i :: 0 <= i < |t.requests| ==> t.requests[i].order in t.orders
  }

  lemma CallGrants(t: Tables, e: Event, i: nat, how: RequestStatus)
    requires (e.AdminRetries? || e.WorkerRetries?) && (how == ApiCancelled || how == Approved) && StatusOf(t, i, Pending)
    ensures StatusOf(ServiceStep(t, e).0, i, how) <==> Grants(t, e, i, how)
  {
    hide RetryApi;
    hide AutoRetry;
    hide Records;
    hide CancelledBy;
    match e
    case AdminRetries(id, actor, api) =>
      if StaffCalls(t, id) {
        ManualRetryAnswer(t, id, actor, api);
      } else {
        ManualRetryMattersIffCalled(t, id, actor);
      }
    case WorkerRetries(id, api) =>
      if WorkerCalls(t, id) {
        AutomaticRetryAnswer(t, id, api);
      } else {
        OtherTurnsCallNobody(t, id, api);
      }
  }

  lemma ServiceGrants(t: Tables, e: Event, i: nat, how: RequestStatus)
    requires IsService(e) && OrdersKnown(t) && (how == ApiCancelled || how == Approved) && StatusOf(t, i, Pending)
    ensures StatusOf(ServiceStep(t, e).0, i, how) <==> Grants(t, e, i, how)
  {
    hide Close;
    hide RequestCancellation;
    hide RetryApi;
    hide AutoRetry;
    hide Reject;
    hide Records;
    hide CancelledBy;
    match e
    case Customer(user, order, text, api) => CustomerLeavesRequests(t, user, order, text, api);
    case CarrierApproves(id, actor, carrier, comment) => Approvals(t, id, actor, carrier, comment);
    case AdminApproves(id, actor, comment) => Approvals(t, id, actor, "", comment);
    case AdminRetries(_, _, _) => CallGrants(t, e, i, how);
    case WorkerRetries(_, _) => CallGrants(t, e, i, how);
    case StaffRejects(id, actor, isAdmin, own, text) => Rejection(t, id, actor, isAdmin, own, text);
  }

  lemma CustomerLeavesRequests(t: Tables, user: int, order: int, text: string, api: ApiCall)
    ensures var u := RequestCancellation(t, user, order, text, api).0;
            |t.requests| <= |u.requests| && u.requests[..|t.requests|] == t.requests
            && forall i :: |t.requests| <= i < |u.requests| ==> u.requests[i].status == Pending
  {
    hide Strip;
    hide MoveTxs;
    hide MoveRows;
    hide StopJobs;
    hide Commissions.Reverse;
  }

  /** A request that is not there yet is not granted. */
  lemma NewIsPending(t: Tables, e: Timed, i: nat)
    requires |t.requests| <= i < |Step(t, e).requests|
    ensures Step(t, e).requests[i].status == Pending
  {
    var woken := Wait(t, e.elapsed);
    hide Close;
    hide RequestCancellation;
    hide RetryApi;
    hide AutoRetry;
    if IsService(e.event) {
      match e.event
      case Customer(user, order, text, api) => CustomerLeavesRequests(woken, user, order, text, api);
      case CarrierApproves(id, actor, _, comment) =>
        if HasRequest(woken, id) {
          R.CloseLeavesOthers(woken, id, actor, comment, Approved, "carrier_approved");
        }
      case AdminApproves(id, actor, comment) =>
        if HasRequest(woken, id) {
          R.CloseLeavesOthers(woken, id, actor, comment, Approved, "admin_approved");
        }
      case AdminRetries(id, actor, api) => ManualRetryCount(woken, id, actor, api);
      case WorkerRetries(id, api) => R.AutoRetryLeavesOthers(woken, id, api);
      case StaffRejects(_, _, _, _, _) =>
    } else if IsPayment(e.event) {
      R.PaymentsLeaveRequests(woken, e.event);
    } else {
      R.OthersLeaveRequests(woken, e.event);
    }
  }

  lemma ManualRetryCount(t: Tables, id: int, actor: int, api: ApiCall)
    ensures |RetryApi(t, id, actor, api).0.requests| == |t.requests|
  {
    hide Close;
    if StaffCalls(t, id) {
      var r := t.requests[id].(apiAttempted := true, nextRetry := None);
      R.CloseLeavesOthers(SetRequest(Wait(t, api.took), id, r), id, actor, None, ApiCancelled, "admin_retry_api");
    }
  }

  lemma StepGrants(t: Tables, e: Timed, i: nat, how: RequestStatus)
    requires OrdersKnown(t) && (how == ApiCancelled || how == Approved)
    ensures StatusOf(Step(t, e), i, how) <==> StatusOf(t, i, how) || Grants(Wait(t, e.elapsed), e.event, i, how)
  {
    var woken := Wait(t, e.elapsed);
    if StatusOf(t, i, Pending) {
      if IsService(e.event) {
        ServiceGrants(woken, e.event, i, how);
      } else if IsPayment(e.event) {
        R.PaymentsLeaveRequests(woken, e.event);
      } else {
        R.OthersLeaveRequests(woken, e.event);
      }
    } else {
      hide Step;
      if i < |t.requests| {
        R.ResolvedStep(t, e, i);
      } else if i < |Step(t, e).requests| {
        NewIsPending(t, e, i);
      }
    }
  }

  predicate GrantedAt(es: seq<Timed>, k: nat, i: nat, how: RequestStatus) {
    k < |es| && Grants(Wait(Run(es[..k]), es[k].elapsed), es[k].event, i, how)
  }

  lemma GrantedInPrefix(es: seq<Timed>, k: nat, i: nat, how: RequestStatus)
    requires k < |es| - 1
    ensures GrantedAt(es[..|es| - 1], k, i, how) <==> GrantedAt(es, k, i, how)
  {
    hide Grants;
    hide Run;
    assert es[..|es| - 1][..k] == es[..k];
  }

  /**
   In every run on the graph a request ends cancelled by the API exactly if the carrier accepted some call made
   for it while it was pending, and approved exactly if its carrier or an admin approved it while its order could
   still be cancelled, or was.
   */
  lemma {:induction false} GrantedIff(es: seq<Timed>, i: nat, how: RequestStatus)
    requires OnGraph(es) && (how == ApiCancelled || how == Approved)
    ensures StatusOf(Run(es), i, how) <==> exists k: nat :: GrantedAt(es, k, i, how)
  {
    hide Step;
    hide Grants;
    if es != [] {
      var n: nat := |es| - 1;
      GrantedIff(es[..n], i, how);
      OrdersStayKnown(es[..n]);
      StepGrants(Run(es[..n]), es[n], i, how);
      assert GrantedAt(es, n, i, how) == Grants(Wait(Run(es[..n]), es[n].elapsed), es[n].event, i, how);
      hide GrantedAt;
      forall k: nat | k < n
        ensures GrantedAt(es[..n], k, i, how) <==> GrantedAt(es, k, i, how)
      {
        GrantedInPrefix(es, k, i, how);
      }
      GrantedWithin(es[..n], i, how);
      GrantedWithin(es, i, how);
    }
  }

  lemma GrantedWithin(es: seq<Timed>, i: nat, how: RequestStatus)
    ensures forall k: nat :: GrantedAt(es, k, i, how) ==> k < |es|
  {
    hide Grants;
    hide Run;
  }

  lemma OrdersStayKnown(es: seq<Timed>)
    requires OnGraph(es)
    ensures OrdersKnown(Run(es))
  {
    hide Step;
    R.RunKeeps(EMPTY, es);
    var t := Run(es);
    forall i | 0 <= i < |t.requests|
      ensures t.requests[i].order in t.orders
    {
      assert R.RequestOk(t, i);
    }
  }
}
