/**
 The service itself, writing through the session.  Every method is tied to its step function in
 `Cancellations`; `elapsed` is the time since the previous step.
 */
module CancellationService {
  import opened Prelude
  import opened OrderStatus
  import opened Store
  import opened Cancellations
  import Commissions

  class CommissionsService {
    constructor () {
    }

    method ReverseForOrder(db: Database, order: int, reason: string) returns (storno: Option<nat>)
      modifies db`ledger
      ensures db.ledger == Commissions.Reverse(old(db.ledger), order, reason, db.now)
      ensures storno == if Commissions.FindActive(old(db.ledger), order).Some? then Some(|old(db.ledger)|) else None
    {
      var i := 0;
      while i < |db.ledger| && !Commissions.IsActive(db.ledger[i], order)
        invariant i <= |db.ledger|
        invariant forall k :: 0 <= k < i ==> !Commissions.IsActive(db.ledger[k], order)
      {
        i := i + 1;
      }
      if i == |db.ledger| {
        return None;
      }
      Commissions.FindActiveIsFirst(db.ledger, order, i);
      var original := db.ledger[i];
      db.ledger := db.ledger[i := original.(status := Commissions.Reversed, reversedAt := Some(db.now), reason := Some(reason))];
      storno := Some(|db.ledger|);
      db.ledger := db.ledger + [Commissions.MirrorRow(original, i, reason)];
    }

    method RecordCommission(db: Database, order: int, carrier: string, terms: Commissions.Terms)
      modifies db`ledger
      ensures db.ledger == old(db.ledger) + [Commissions.RecordedRow(order, carrier, terms)]
      ensures Commissions.Paired(old(db.ledger)) ==> Commissions.Paired(db.ledger)
      ensures Commissions.Netted(old(db.ledger)) ==> Commissions.Netted(db.ledger)
    {
      hide Commissions.Paired;
      hide Commissions.Netted;
      var row := Commissions.RecordedRow(order, carrier, terms);
      if Commissions.Paired(db.ledger) {
        Commissions.RecordKeepsPaired(db.ledger, row);
      }
      if Commissions.Netted(db.ledger) {
        Commissions.RecordKeepsNetted(db.ledger, row);
      }
      db.ledger := db.ledger + [Commissions.RecordedRow(order, carrier, terms)];
    }
  }

  class CancellationRequestsService {
    const commissions: CommissionsService

    constructor () {
      commissions := new CommissionsService();
    }

    method StopActiveJobs(db: Database, order: int)
      modifies db`jobs
      ensures db.jobs == StopJobs(old(db.jobs), order)
    {
      ghost var was := db.jobs;
      var i := 0;
      while i < |db.jobs|
        invariant i <= |db.jobs| == |was|
        invariant forall k :: 0 <= k < i ==> db.jobs[k] == StoppedJob(was[k], order)
        invariant forall k :: i <= k < |was| ==> db.jobs[k] == was[k]
      {
        if Stoppable(db.jobs[i], order) {
          db.jobs := db.jobs[i := db.jobs[i].(status := JobCancelled)];
        }
        i := i + 1;
      }
    }

    method FinalizeCancellation(db: Database, id: int, reason: string, actor: int, source: string) returns (ok: bool)
      requires id in db.orders
      modifies db
      ensures ok == CanTransition(old(db.orders)[id].status, Cancelled)
      ensures db.Snapshot() ==
              if ok then Finalized(old(db.Snapshot()), id, reason, actor, source) else old(db.Snapshot())
    {
      ok := CanTransition(db.orders[id].status, Cancelled);
      if !ok {
        return;
      }
      ApplyCancellation(db, id, reason, actor, source);
    }

    /** The writes of `_finalize_cancellation`, after its guard. */
    method ApplyCancellation(db: Database, id: int, reason: string, actor: int, source: string)
      requires id in db.orders
      modifies db
      ensures db.Snapshot() == Finalized(old(db.Snapshot()), id, reason, actor, source)
    {
      hide Store.MoveTxs;
      hide Store.MoveRows;
      hide Cancellations.StopJobs;
      hide Commissions.Reverse;
      var queued := InDispatchQueue(db.orders[id].status);
      if queued {
        StopActiveJobs(db, id);
      }
      WriteStatus(db, id, Cancelled, Some(actor), source, reason);
      db.tracking := db.tracking + [TrackingRow(id, Cancelled, None, reason)];
      var _ := commissions.ReverseForOrder(db, id, source + ": " + reason);
      MoveTransactions(db, id, PAID_TX, TxRefundPending, actor, reason);
    }

    method FinalizeAndClose(
      db: Database, id: int, actor: int, comment: Option<string>, status: RequestStatus, source: string)
      returns (reply: Reply)
      requires HasRequest(db.Snapshot(), id)
      modifies db
      ensures (db.Snapshot(), reply) == Close(old(db.Snapshot()), id, actor, comment, status, source)
    {
      var r := db.requests[id];
      if r.order !in db.orders {
        return Refusal(NotFound);
      }
      var order := db.orders[r.order];
      if !Cancellable(order.status) && order.status != Cancelled {
        db.requests := db.requests[id := r.(status := Rejected, response := MovedOn(order.status),
                                            resolvedBy := Some(actor), resolvedAt := Some(db.now), nextRetry := None)];
        return Refusal(OrderMovedOn);
      }
      if order.status != Cancelled {
        var ok := FinalizeCancellation(db, r.order, r.reason, actor, source);
        if !ok {
          return Refusal(TransitionNotAllowed);
        }
      }
      db.requests := db.requests[id := r.(status := status, response := CommentText(comment),
                                          resolvedBy := Some(actor), resolvedAt := Some(db.now))];
      return Closed(status);
    }

    method CancelUnpaidOrder(db: Database, id: int, actor: int, reason: string) returns (reply: Reply)
      requires id in db.orders
      modifies db
      ensures (db.Snapshot(), reply) == CancelUnpaid(old(db.Snapshot()), id, actor, reason)
    {
      if !CanTransition(db.orders[id].status, Cancelled) {
        return Refusal(TransitionNotAllowed);
      }
      MoveTransactions(db, id, OPEN_TX, TxCancelled, actor, reason);
      var _ := FinalizeCancellation(db, id, reason, actor, "customer_cancel_unpaid");
      return OrderCancelled;
    }

    method GetPendingForOrder(db: Database, order: int) returns (found: bool)
      ensures found == HasPending(db.requests, order)
    {
      var i := 0;
      while i < |db.requests|
        invariant i <= |db.requests|
        invariant forall k :: 0 <= k < i ==> !IsPendingFor(db.requests[k], order)
      {
        if IsPendingFor(db.requests[i], order) {
          return true;
        }
        i := i + 1;
      }
      return false;
    }

    method CreateRequestAndNotify(
      db: Database, order: int, author: int, reason: string, apiError: Option<string>, openedAt: int)
      returns (reply: Reply)
      requires order in db.orders
      modifies db`requests
      ensures (db.Snapshot(), reply) == CreateRequest(old(db.Snapshot()), order, author, reason, apiError, openedAt)
    {
      var carrier := db.orders[order].carrier;
      var r := Request(order, author, carrier, reason, Pending, apiError.Some?, apiError, NoResponse,
                       None, None, 0, None, openedAt);
      if apiError.Some? && HasCancelApi(carrier) {
        r := r.(nextRetry := Some(db.now + BACKOFF[0]));
      }
      db.requests := db.requests + [r];
      return Requested(|db.requests| - 1);
    }

    method RequestCancellation(db: Database, elapsed: nat, user: int, order: int, text: string, api: ApiCall)
      returns (reply: Reply)
      modifies db
      ensures (db.Snapshot(), reply)
           == Cancellations.RequestCancellation(Wait(old(db.Snapshot()), elapsed), user, order, text, api)
    {
      db.now := db.now + elapsed;
      var reason := Strip(text);
      if !ValidText(text) {
        return Refusal(Invalid);
      }
      if order !in db.orders {
        return Refusal(NotFound);
      }
      var o := db.orders[order];
      if o.user != user {
        return Refusal(Forbidden);
      }
      if UnpaidCancellable(o.status) {
        reply := CancelUnpaidOrder(db, order, user, reason);
        return;
      }
      if !Cancellable(o.status) {
        return Refusal(Invalid);
      }
      var pending := GetPendingForOrder(db, order);
      if pending {
        return Refusal(Conflict);
      }
      if !HasCancelApi(o.carrier) || !ApiAllowed(o.status) {
        reply := CreateRequestAndNotify(db, order, user, reason, None, db.now);
        return;
      }
      var openedAt := db.now;
      db.now := db.now + api.took;
      var error := TryApi(api.answer);
      if error.Some? {
        reply := CreateRequestAndNotify(db, order, user, reason, error, openedAt);
        return;
      }
      var ok := FinalizeCancellation(db, order, reason, user, "customer_cancel_via_api");
      return if ok then OrderCancelled else Refusal(TransitionNotAllowed);
    }

    method ApproveByCarrier(
      db: Database, elapsed: nat, id: int, actor: int, carrier: string, comment: Option<string>)
      returns (reply: Reply)
      modifies db
      ensures (db.Snapshot(), reply)
           == Cancellations.ApproveByCarrier(Wait(old(db.Snapshot()), elapsed), id, actor, carrier, comment)
    {
      db.now := db.now + elapsed;
      if !(0 <= id < |db.requests|) {
        return Refusal(NotFound);
      }
      if db.requests[id].status != Pending {
        return Refusal(Conflict);
      }
      if db.requests[id].carrier != carrier {
        return Refusal(Forbidden);
      }
      reply := FinalizeAndClose(db, id, actor, comment, Approved, "carrier_approved");
    }

    method ApproveByAdmin(db: Database, elapsed: nat, id: int, actor: int, comment: Option<string>)
      returns (reply: Reply)
      modifies db
      ensures (db.Snapshot(), reply)
           == Cancellations.ApproveByAdmin(Wait(old(db.Snapshot()), elapsed), id, actor, comment)
    {
      db.now := db.now + elapsed;
      if !(0 <= id < |db.requests|) {
        return Refusal(NotFound);
      }
      if db.requests[id].status != Pending {
        return Refusal(Conflict);
      }
      reply := FinalizeAndClose(db, id, actor, comment, Approved, "admin_approved");
    }

    method RetryApiCancel(db: Database, elapsed: nat, id: int, actor: int, api: ApiCall) returns (reply: Reply)
      modifies db
      ensures (db.Snapshot(), reply) == RetryApi(Wait(old(db.Snapshot()), elapsed), id, actor, api)
    {
      db.now := db.now + elapsed;
      if !(0 <= id < |db.requests|) {
        return Refusal(NotFound);
      }
      var r := db.requests[id];
      if r.status != Pending {
        return Refusal(Conflict);
      }
      if !HasCancelApi(r.carrier) {
        return Refusal(Invalid);
      }
      if r.order !in db.orders {
        return Refusal(NotFound);
      }
      if !ApiAllowed(db.orders[r.order].status) {
        return Refusal(Invalid);
      }
      db.now := db.now + api.took;
      var error := TryApi(api.answer);
      r := r.(apiAttempted := true);
      if error.Some? {
        db.requests := db.requests[id := r.(apiError := error)];
        return StillPending;
      }
      db.requests := db.requests[id := r.(nextRetry := None)];
      reply := FinalizeAndClose(db, id, actor, None, ApiCancelled, "admin_retry_api");
    }

    method AutoRetryApiCancel(db: Database, elapsed: nat, id: int, api: ApiCall) returns (reply: Reply)
      modifies db
      ensures (db.Snapshot(), reply) == AutoRetry(Wait(old(db.Snapshot()), elapsed), id, api)
    {
      db.now := db.now + elapsed;
      if !(0 <= id < |db.requests|) || db.requests[id].status != Pending {
        return Stale;
      }
      var r := db.requests[id];
      if r.nextRetry == None || r.nextRetry.value > db.now {
        return Stale;
      }
      if !HasCancelApi(r.carrier) {
        db.requests := db.requests[id := r.(nextRetry := None)];
        return Stale;
      }
      if r.order !in db.orders || !ApiAllowed(db.orders[r.order].status) {
        db.requests := db.requests[id := r.(nextRetry := None)];
        return Stale;
      }
      reply := CallCarrierAgain(db, id, api);
    }

    /** The second half of `auto_retry_api_cancel`, from the call on. */
    method CallCarrierAgain(db: Database, id: int, api: ApiCall) returns (reply: Reply)
      requires HasRequest(db.Snapshot(), id)
      modifies db
      ensures (db.Snapshot(), reply) == RetryCall(old(db.Snapshot()), id, api)
    {
      var r := db.requests[id];
      r := r.(apiAttempted := true);
      db.attempts := db.attempts + [Attempt(id, db.now)];
      db.now := db.now + api.took;
      var error := TryApi(api.answer);
      if error.None? {
        db.requests := db.requests[id := r.(nextRetry := None)];
        reply := FinalizeAndClose(db, id, r.author, None, ApiCancelled, "auto_retry_api");
        return;
      }
      r := r.(apiError := error, retries := r.retries + 1);
      if r.retries >= MAX_RETRIES {
        db.requests := db.requests[id := r.(nextRetry := None)];
        return Exhausted;
      }
      db.requests := db.requests[id := r.(nextRetry := Some(db.now + BACKOFF[r.retries]))];
      return Rescheduled;
    }

    method RejectRequest(
      db: Database, elapsed: nat, id: int, actor: int, isAdmin: bool, carrier: Option<string>, comment: string)
      returns (reply: Reply)
      modifies db
      ensures (db.Snapshot(), reply)
           == Reject(Wait(old(db.Snapshot()), elapsed), id, actor, isAdmin, carrier, comment)
    {
      db.now := db.now + elapsed;
      if !ValidText(comment) {
        return Refusal(Invalid);
      }
      if !(0 <= id < |db.requests|) {
        return Refusal(NotFound);
      }
      var r := db.requests[id];
      if r.status != Pending {
        return Refusal(Conflict);
      }
      if !isAdmin && Some(r.carrier) != carrier {
        return Refusal(Forbidden);
      }
      db.requests := db.requests[id := r.(status := Rejected, response := Comment(Strip(comment)),
                                          resolvedBy := Some(actor), resolvedAt := Some(db.now))];
      return Closed(Rejected);
    }
  }
}
