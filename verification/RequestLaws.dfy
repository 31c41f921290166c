/**
 The life of a cancellation request over whole runs: at most one pending per order, resolved for good,
 cancelled orders behind every granted request, and the budget and timing of automatic retries.
 */
module RequestLaws {
  import opened Prelude
  import opened OrderStatus
  import opened Store
  import opened Cancellations
  import opened World

  // ---- automatic calls ----

  function AttemptTimes(log: seq<Attempt>, request: nat): seq<int> {
    if log == [] then []
    else
      var n := |log| - 1;
      AttemptTimes(log[..n], request) + if log[n].request == request then [log[n].at] else []
  }

  lemma AttemptTimesAppend(log: seq<Attempt>, a: Attempt, request: nat)
    ensures AttemptTimes(log + [a], request)
         == AttemptTimes(log, request) + if a.request == request then [a.at] else []
  {
  }

  lemma {:induction false} NoAttemptTimes(log: seq<Attempt>, request: nat)
    requires forall k :: 0 <= k < |log| ==> log[k].request != request
    ensures AttemptTimes(log, request) == []
  {
    if log != [] {
      NoAttemptTimes(log[..|log| - 1], request);
    }
  }

  /** The earliest moment for the call after the first `k` of `calls`. */
  function NotBefore(createdAt: int, calls: seq<int>, k: nat): int
    requires k <= |calls| && k < MAX_RETRIES
  {
    (if k == 0 then createdAt else calls[k - 1]) + BACKOFF[k]
  }

  ghost predicate Spaced(createdAt: int, calls: seq<int>) {
    && |calls| <= MAX_RETRIES
    && forall k :: 0 <= k < |calls| ==> calls[k] >= NotBefore(createdAt, calls, k)
  }

  function BackoffSum(k: nat): nat
    requires k <= MAX_RETRIES
  {
    if k == 0 then 0 else BackoffSum(k - 1) + BACKOFF[k - 1]
  }

  lemma {:induction false} SpacedFromCreation(createdAt: int, calls: seq<int>, k: nat)
    requires Spaced(createdAt, calls) && k < |calls|
    ensures calls[k] >= createdAt + BackoffSum(k + 1)
  {
    assert calls[k] >= NotBefore(createdAt, calls, k);
    if k > 0 {
      SpacedFromCreation(createdAt, calls, k - 1);
    }
  }

  // ---- the invariant ----

  ghost predicate RequestOk(t: Tables, i: nat)
    requires i < |t.requests|
  {
    var r := t.requests[i];
    var calls := AttemptTimes(t.attempts, i);
    && r.order in t.orders
    && (r.status == Pending ==> Phase(t.orders[r.order].status) != UNPAID)
    && (r.status == Approved || r.status == ApiCancelled ==> t.orders[r.order].status == Cancelled)
    && Spaced(r.createdAt, calls)
    && (r.nextRetry.Some? ==> r.retries < MAX_RETRIES && HasCancelApi(r.carrier))
    && (r.status == Pending ==> |calls| == r.retries)
    && (r.status == Pending && r.nextRetry.Some? ==>
          r.nextRetry.value >= NotBefore(r.createdAt, calls, r.retries))
  }

  ghost predicate RequestsOk(t: Tables) {
    && (forall i :: 0 <= i < |t.requests| ==> RequestOk(t, i))
    && (forall k :: 0 <= k < |t.attempts| ==> t.attempts[k].request < |t.requests|)
  }

  ghost predicate OnePending(requests: seq<Request>) {
    forall i, j :: 0 <= i < j < |requests| && requests[i].status == Pending && requests[j].status == Pending ==>
      requests[i].order != requests[j].order
  }

  ghost predicate RequestInv(t: Tables) {
    RequestsOk(t) && OnePending(t.requests)
  }

  // ---- preservation ----

  lemma KeepRequest(t: Tables, u: Tables, i: nat)
    requires i < |t.requests| && i < |u.requests| && u.requests[i] == t.requests[i]
    requires RequestOk(t, i) && OrdersFollow(t, u)
    requires AttemptTimes(u.attempts, i) == AttemptTimes(t.attempts, i)
    ensures RequestOk(u, i)
  {
    var order := t.requests[i].order;
    FollowsFacts(t.orders[order].status, u.orders[order].status);
  }

  lemma KeepRequests(t: Tables, u: Tables)
    requires RequestInv(t) && OrdersFollow(t, u)
    requires u.requests == t.requests && u.attempts == t.attempts
    ensures RequestInv(u)
  {
    forall i | 0 <= i < |u.requests|
      ensures RequestOk(u, i)
    {
      KeepRequest(t, u, i);
    }
  }

  /** One request rewritten, with at most one call logged for it. */
  ghost predicate RewritesOne(t: Tables, u: Tables, id: int) {
    && HasRequest(t, id)
    && |u.requests| == |t.requests|
    && u.requests == t.requests[id := u.requests[id]]
    && u.requests[id].order == t.requests[id].order
    && (u.attempts == t.attempts || exists at :: u.attempts == t.attempts + [Attempt(id, at)])
  }

  lemma KeepOthers(t: Tables, u: Tables, id: int)
    requires RequestInv(t) && OrdersFollow(t, u) && RewritesOne(t, u, id)
    requires t.requests[id].status == Pending || u.requests[id].status != Pending
    requires RequestOk(u, id)
    ensures RequestInv(u)
  {
    forall i | 0 <= i < |u.requests|
      ensures RequestOk(u, i)
    {
      if i != id {
        if u.attempts != t.attempts {
          var at :| u.attempts == t.attempts + [Attempt(id, at)];
          AttemptTimesAppend(t.attempts, Attempt(id, at), i);
        }
        KeepRequest(t, u, i);
      }
    }
    forall i, j | 0 <= i < j < |u.requests| && u.requests[i].status == Pending && u.requests[j].status == Pending
      ensures u.requests[i].order != u.requests[j].order
    {
      assert t.requests[i].status == Pending && t.requests[j].status == Pending;
    }
  }

  /**
   What closing a request comes to: a still cancellable (or already cancelled) order ends cancelled and
   the request gets the status asked for; an order that moved on is left alone and the request is
   rejected.  The status graph never objects.
   */
  lemma CloseOutcome(
    s: Tables, id: int, actor: int, comment: Option<string>, status: RequestStatus, source: string)
    requires HasRequest(s, id) && s.requests[id].order in s.orders
    ensures var (u, reply) := Close(s, id, actor, comment, status, source);
            var r, order := s.requests[id], s.requests[id].order;
            var open := Cancellable(s.orders[order].status) || s.orders[order].status == Cancelled;
            && u.attempts == s.attempts && |u.requests| == |s.requests|
            && u.requests == s.requests[id := u.requests[id]]
            && u.requests[id].order == order && u.requests[id].carrier == r.carrier
            && u.requests[id].createdAt == r.createdAt && u.requests[id].retries == r.retries
            && (u.requests[id].nextRetry == r.nextRetry || u.requests[id].nextRetry == None)
            && order in u.orders
            && (open ==> reply == Closed(status) && u.requests[id].status == status
                         && u.orders[order].status == Cancelled)
            && (!open ==> reply == Refusal(OrderMovedOn) && u.requests[id].status == Rejected
                          && u == SetRequest(s, id, u.requests[id]))
  {
  }

  /** Closing keeps the invariant, with the retry fields and the call log as the caller left them. */
  lemma CloseKeeps(
    t: Tables, s: Tables, id: int, actor: int, comment: Option<string>, status: RequestStatus, source: string)
    requires RequestInv(t) && IsPending(t, id) && (status == Approved || status == ApiCancelled)
    requires s.orders == t.orders && RewritesOne(t, s, id)
    requires s.requests[id].createdAt == t.requests[id].createdAt && s.requests[id].carrier == t.requests[id].carrier
    requires s.requests[id].nextRetry == t.requests[id].nextRetry || s.requests[id].nextRetry == None
    requires s.requests[id].retries == t.requests[id].retries
    requires Spaced(t.requests[id].createdAt, AttemptTimes(s.attempts, id))
    ensures RequestInv(Close(s, id, actor, comment, status, source).0)
  {
    var u := Close(s, id, actor, comment, status, source).0;
    assert RequestOk(t, id);
    CloseOutcome(s, id, actor, comment, status, source);
    CloseFollows(s, id, actor, comment, status, source);
    ClosedKeeps(t, u, id);
  }

  lemma ClosedKeeps(t: Tables, u: Tables, id: int)
    requires RequestInv(t) && IsPending(t, id)
    requires OrdersFollow(t, u) && RewritesOne(t, u, id)
    requires u.requests[id].createdAt == t.requests[id].createdAt && u.requests[id].carrier == t.requests[id].carrier
    requires u.requests[id].nextRetry == t.requests[id].nextRetry || u.requests[id].nextRetry == None
    requires u.requests[id].retries == t.requests[id].retries
    requires Spaced(t.requests[id].createdAt, AttemptTimes(u.attempts, id))
    requires u.requests[id].status != Pending
    requires u.requests[id].status == Rejected
             || (t.requests[id].order in u.orders && u.orders[t.requests[id].order].status == Cancelled)
    ensures RequestInv(u)
  {
    assert RequestOk(t, id);
    KeepOthers(t, u, id);
  }

  lemma CreateKeeps(t: Tables, order: int, author: int, reason: string, apiError: Option<string>, openedAt: int)
    requires RequestInv(t) && order in t.orders && openedAt <= t.now
    requires Cancellable(t.orders[order].status) && !HasPending(t.requests, order)
    ensures RequestInv(CreateRequest(t, order, author, reason, apiError, openedAt).0)
  {
    var u := CreateRequest(t, order, author, reason, apiError, openedAt).0;
    NoAttemptTimes(t.attempts, |t.requests|);
    forall i | 0 <= i < |u.requests|
      ensures RequestOk(u, i)
    {
      if i < |t.requests| {
        KeepRequest(t, u, i);
      }
    }
    forall i, j | 0 <= i < j < |u.requests| && u.requests[i].status == Pending && u.requests[j].status == Pending
      ensures u.requests[i].order != u.requests[j].order
    {
      assert !IsPendingFor(t.requests[i], order);
    }
  }

  lemma WaitKeeps(t: Tables, elapsed: nat)
    requires RequestInv(t)
    ensures RequestInv(Wait(t, elapsed))
  {
    KeepRequests(t, Wait(t, elapsed));
  }

  lemma FinalizedKeeps(t: Tables, id: int, reason: string, actor: int, source: string)
    requires RequestInv(t) && id in t.orders && CanTransition(t.orders[id].status, Cancelled)
    ensures RequestInv(Finalized(t, id, reason, actor, source))
  {
    KeepRequests(t, Finalized(t, id, reason, actor, source));
  }

  lemma CustomerKeeps(t: Tables, user: int, order: int, text: string, api: ApiCall)
    requires RequestInv(t)
    ensures RequestInv(RequestCancellation(t, user, order, text, api).0)
  {
    var u := RequestCancellation(t, user, order, text, api).0;
    if u.requests == t.requests {
      CustomerFollows(t, user, order, text, api);
      KeepRequests(t, u);
    } else {
      WaitKeeps(t, api.took);
      if HasCancelApi(t.orders[order].carrier) && ApiAllowed(t.orders[order].status) {
        CreateKeeps(Wait(t, api.took), order, user, Strip(text), TryApi(api.answer), t.now);
      } else {
        CreateKeeps(t, order, user, Strip(text), None, t.now);
      }
    }
  }

  lemma ApproveKeeps(t: Tables, id: int, actor: int, carrier: string, comment: Option<string>)
    requires RequestInv(t)
    ensures RequestInv(ApproveByCarrier(t, id, actor, carrier, comment).0)
    ensures RequestInv(ApproveByAdmin(t, id, actor, comment).0)
  {
    if IsPending(t, id) {
      assert RequestOk(t, id);
      CloseKeeps(t, t, id, actor, comment, Approved, "carrier_approved");
      CloseKeeps(t, t, id, actor, comment, Approved, "admin_approved");
    }
  }

  lemma RetryApiKeeps(t: Tables, id: int, actor: int, api: ApiCall)
    requires RequestInv(t)
    ensures RequestInv(RetryApi(t, id, actor, api).0)
  {
    if IsPending(t, id) {
      assert RequestOk(t, id);
      var r := t.requests[id].(apiAttempted := true);
      var called := Wait(t, api.took);
      CloseKeeps(t, SetRequest(called, id, r.(nextRetry := None)), id, actor, None, ApiCancelled, "admin_retry_api");
      KeepOthers(t, SetRequest(called, id, r.(apiError := TryApi(api.answer))), id);
    }
  }

  lemma RejectKeeps(t: Tables, id: int, actor: int, isAdmin: bool, own: Option<string>, text: string)
    requires RequestInv(t)
    ensures RequestInv(Reject(t, id, actor, isAdmin, own, text).0)
  {
    var u := Reject(t, id, actor, isAdmin, own, text).0;
    if IsPending(t, id) {
      assert RequestOk(t, id);
      KeepOthers(t, u, id);
    }
  }

  /** A due request has a call left, and the call comes on time. */
  lemma DueHasBudget(t: Tables, id: int)
    requires RequestInv(t) && WillCall(t, id)
    ensures t.requests[id].retries < MAX_RETRIES
    ensures Spaced(t.requests[id].createdAt, AttemptTimes(t.attempts + [Attempt(id, t.now)], id))
    ensures |AttemptTimes(t.attempts + [Attempt(id, t.now)], id)| == t.requests[id].retries + 1
  {
    assert RequestOk(t, id);
    AttemptTimesAppend(t.attempts, Attempt(id, t.now), id);
    var calls := AttemptTimes(t.attempts, id);
    var more := calls + [t.now];
    forall k | 0 <= k < |more|
      ensures more[k] >= NotBefore(t.requests[id].createdAt, more, k)
    {
      if k < |calls| {
        assert calls[k] >= NotBefore(t.requests[id].createdAt, calls, k);
      }
    }
  }

  lemma FailedCallKeeps(t: Tables, id: int, api: ApiCall)
    requires RequestInv(t) && WillCall(t, id) && TryApi(api.answer).Some?
    ensures RequestInv(RetryCall(t, id, api).0)
  {
    var u := RetryCall(t, id, api).0;
    DueHasBudget(t, id);
    assert RequestOk(t, id);
    AttemptTimesAppend(t.attempts, Attempt(id, t.now), id);
    assert u.attempts == t.attempts + [Attempt(id, t.now)];
    KeepOthers(t, u, id);
  }

  lemma AutoRetryKeeps(t: Tables, id: int, api: ApiCall)
    requires RequestInv(t)
    ensures RequestInv(AutoRetry(t, id, api).0)
  {
    if HasRequest(t, id) && IsDue(t.requests[id], t.now) {
      assert RequestOk(t, id);
      if !WillCall(t, id) {
        KeepOthers(t, SetRequest(t, id, t.requests[id].(nextRetry := None)), id);
      } else if TryApi(api.answer).Some? {
        FailedCallKeeps(t, id, api);
      } else {
        DueHasBudget(t, id);
        var r := t.requests[id].(apiAttempted := true, nextRetry := None);
        var called := Wait(t, api.took).(attempts := t.attempts + [Attempt(id, t.now)]);
        CloseKeeps(t, SetRequest(called, id, r), id, r.author, None, ApiCancelled, "auto_retry_api");
      }
    }
  }

  lemma PaymentsLeaveRequests(t: Tables, e: Event)
    requires IsPayment(e)
    ensures PaymentStep(t, e).requests == t.requests && PaymentStep(t, e).attempts == t.attempts
  {
  }

  lemma OthersLeaveRequests(t: Tables, e: Event)
    requires !IsService(e) && !IsPayment(e)
    ensures OtherStep(t, e).requests == t.requests && OtherStep(t, e).attempts == t.attempts
  {
    hide CanTransition;
  }

  lemma ServiceKeeps(t: Tables, e: Event)
    requires RequestInv(t) && IsService(e)
    ensures RequestInv(ServiceStep(t, e).0)
  {
    match e
    case Customer(user, order, text, api) => CustomerKeeps(t, user, order, text, api);
    case CarrierApproves(id, actor, carrier, comment) => ApproveKeeps(t, id, actor, carrier, comment);
    case AdminApproves(id, actor, comment) => ApproveKeeps(t, id, actor, "", comment);
    case AdminRetries(id, actor, api) => RetryApiKeeps(t, id, actor, api);
    case WorkerRetries(id, api) => AutoRetryKeeps(t, id, api);
    case StaffRejects(id, actor, isAdmin, own, text) => RejectKeeps(t, id, actor, isAdmin, own, text);
  }

  lemma StepKeeps(t: Tables, e: Timed)
    requires RequestInv(t) && !e.event.AdminOverrides?
    ensures RequestInv(Step(t, e))
  {
    var woken := Wait(t, e.elapsed);
    WaitKeeps(t, e.elapsed);
    if IsService(e.event) {
      ServiceKeeps(woken, e.event);
    } else if IsPayment(e.event) {
      PaymentsLeaveRequests(woken, e.event);
      PaymentFollows(woken, e.event);
      KeepRequests(woken, PaymentStep(woken, e.event));
    } else {
      OthersLeaveRequests(woken, e.event);
      OtherFollows(woken, e.event);
      KeepRequests(woken, OtherStep(woken, e.event));
    }
  }

  lemma {:induction false} RunKeeps(t: Tables, es: seq<Timed>)
    requires RequestInv(t) && OnGraph(es)
    ensures RequestInv(RunFrom(t, es))
  {
    hide Step;
    if es != [] {
      RunKeeps(t, es[..|es| - 1]);
      StepKeeps(RunFrom(t, es[..|es| - 1]), es[|es| - 1]);
    }
  }

  // ---- theorems over whole runs ----

  /** In every run on the graph: the request lifecycle and the order status agree. */
  lemma RequestLife(es: seq<Timed>)
    requires OnGraph(es)
    ensures RequestInv(Run(es))
    ensures OnePending(Run(es).requests)
    ensures forall r :: r in Run(es).requests ==>
              && r.order in Run(es).orders
              && (r.status == Approved || r.status == ApiCancelled ==> Run(es).orders[r.order].status == Cancelled)
              && (r.status == Pending ==> Phase(Run(es).orders[r.order].status) != UNPAID)
  {
    hide Step;
    RunKeeps(EMPTY, es);
    var t := Run(es);
    forall r | r in t.requests
      ensures && r.order in t.orders
              && (r.status == Approved || r.status == ApiCancelled ==> t.orders[r.order].status == Cancelled)
              && (r.status == Pending ==> Phase(t.orders[r.order].status) != UNPAID)
    {
      var i :| 0 <= i < |t.requests| && t.requests[i] == r;
      assert RequestOk(t, i);
    }
  }

  /**
   In every run a request gets at most MAX_RETRIES automatic calls, the k-th no earlier than its
   creation plus the first k backoffs; a scheduled retry always has a call left and a carrier with an API.
   */
  lemma RetryBudget(es: seq<Timed>, i: nat)
    requires OnGraph(es) && i < |Run(es).requests|
    ensures var t := Run(es);
            var calls := AttemptTimes(t.attempts, i);
            && |calls| <= MAX_RETRIES
            && (forall k :: 0 <= k < |calls| ==> calls[k] >= t.requests[i].createdAt + BackoffSum(k + 1))
            && (t.requests[i].nextRetry.Some? ==>
                  t.requests[i].retries < MAX_RETRIES && HasCancelApi(t.requests[i].carrier))
  {
    hide Step;
    var t := Run(es);
    RunKeeps(EMPTY, es);
    assert RequestOk(t, i);
    var calls := AttemptTimes(t.attempts, i);
    forall k | 0 <= k < |calls|
      ensures calls[k] >= t.requests[i].createdAt + BackoffSum(k + 1)
    {
      SpacedFromCreation(t.requests[i].createdAt, calls, k);
    }
  }

  // ---- calls that were rolled back ----

  /** An automatic call as the carrier sees it; that of a turn that raised leaves no trace in the tables. */
  datatype Call = Call(at: int, crashed: bool)

  /** The worker's turn, served or raising later, calls the carrier for the request. */
  predicate Calls(t: Tables, e: Timed, i: nat) {
    && WillCall(Wait(t, e.elapsed), i)
    && match e.event
       case WorkerRetries(id, _) => id == i
       case WorkerCrashes(id, called, _) => id == i && called
       case _ => false
  }

  function CallsOf(es: seq<Timed>, i: nat): seq<Call> {
    if es == [] then []
    else
      var n := |es| - 1;
      CallsOf(es[..n], i) + NewCall(Run(es[..n]), es[n], i)
  }

  function Committed(calls: seq<Call>): seq<int> {
    if calls == [] then []
    else
      var n := |calls| - 1;
      Committed(calls[..n]) + if calls[n].crashed then [] else [calls[n].at]
  }

  lemma CloseLogsNothing(
    t: Tables, id: int, actor: int, comment: Option<string>, status: RequestStatus, source: string)
    requires HasRequest(t, id)
    ensures Close(t, id, actor, comment, status, source).0.attempts == t.attempts
  {
  }

  lemma AutoRetryLogs(t: Tables, id: int, api: ApiCall)
    ensures AutoRetry(t, id, api).0.attempts == t.attempts + if WillCall(t, id) then [Attempt(id, t.now)] else []
  {
    hide Close;
    if WillCall(t, id) {
      var called := Wait(t, api.took).(attempts := t.attempts + [Attempt(id, t.now)]);
      var r := t.requests[id].(apiAttempted := true, nextRetry := None);
      CloseLogsNothing(SetRequest(called, id, r), id, r.author, None, ApiCancelled, "auto_retry_api");
    }
  }

  lemma OthersLogNothing(t: Tables, e: Event)
    requires IsService(e) && !e.WorkerRetries?
    ensures ServiceStep(t, e).0.attempts == t.attempts
  {
  }

  lemma StepLogsCalls(t: Tables, e: Timed, i: nat)
    ensures AttemptTimes(Step(t, e).attempts, i) == AttemptTimes(t.attempts, i)
            + if Calls(t, e, i) && e.event.WorkerRetries? then [t.now + e.elapsed] else []
  {
    hide AutoRetry;
    var woken := Wait(t, e.elapsed);
    assert AttemptTimes(t.attempts, i) + [] == AttemptTimes(t.attempts, i);
    if e.event.WorkerRetries? {
      var id := e.event.id;
      AutoRetryLogs(woken, id, e.event.api);
      assert Step(t, e).attempts == AutoRetry(woken, id, e.event.api).0.attempts;
      if WillCall(woken, id) {
        AttemptTimesAppend(woken.attempts, Attempt(id, woken.now), i);
        assert Calls(t, e, i) <==> id == i;
      } else {
        assert woken.attempts + [] == t.attempts;
      }
    } else if IsService(e.event) {
      OthersLogNothing(woken, e.event);
    } else if IsPayment(e.event) {
      PaymentsLeaveRequests(woken, e.event);
    } else {
      OthersLeaveRequests(woken, e.event);
    }
  }

  predicate SameCreation(t: Tables, u: Tables, i: nat) {
    i < |t.requests| && i < |u.requests| && u.requests[i].createdAt == t.requests[i].createdAt
  }

  lemma CloseKeepsCreation(
    t: Tables, id: int, actor: int, comment: Option<string>, status: RequestStatus, source: string, i: nat)
    requires HasRequest(t, id) && i < |t.requests|
    ensures SameCreation(t, Close(t, id, actor, comment, status, source).0, i)
  {
  }

  lemma CustomerKeepsCreation(t: Tables, user: int, order: int, text: string, api: ApiCall, i: nat)
    requires i < |t.requests|
    ensures SameCreation(t, RequestCancellation(t, user, order, text, api).0, i)
  {
  }

  lemma RetriesKeepCreation(t: Tables, id: int, actor: int, api: ApiCall, i: nat)
    requires i < |t.requests|
    ensures SameCreation(t, RetryApi(t, id, actor, api).0, i)
    ensures SameCreation(t, AutoRetry(t, id, api).0, i)
  {
    hide Close;
    if HasRequest(t, id) {
      var r := t.requests[id].(apiAttempted := true, nextRetry := None);
      var called := Wait(t, api.took);
      CloseKeepsCreation(SetRequest(called, id, r), id, actor, None, ApiCancelled, "admin_retry_api", i);
      CloseKeepsCreation(SetRequest(called.(attempts := t.attempts + [Attempt(id, t.now)]), id, r), id, r.author, None,
                         ApiCancelled, "auto_retry_api", i);
    }
  }

  lemma ServiceKeepsCreation(t: Tables, e: Event, i: nat)
    requires IsService(e) && i < |t.requests|
    ensures SameCreation(t, ServiceStep(t, e).0, i)
  {
    hide Close;
    hide RequestCancellation;
    hide RetryApi;
    hide AutoRetry;
    match e
    case Customer(user, order, text, api) => CustomerKeepsCreation(t, user, order, text, api, i);
    case CarrierApproves(id, actor, carrier, comment) =>
      if HasRequest(t, id) {
        CloseKeepsCreation(t, id, actor, comment, Approved, "carrier_approved", i);
      }
    case AdminApproves(id, actor, comment) =>
      if HasRequest(t, id) {
        CloseKeepsCreation(t, id, actor, comment, Approved, "admin_approved", i);
      }
    case AdminRetries(id, actor, api) => RetriesKeepCreation(t, id, actor, api, i);
    case WorkerRetries(id, api) => RetriesKeepCreation(t, id, 0, api, i);
    case StaffRejects(_, _, _, _, _) =>
  }

  lemma StepKeepsCreation(t: Tables, e: Timed, i: nat)
    requires i < |t.requests|
    ensures SameCreation(t, Step(t, e), i)
  {
    hide ServiceStep;
    hide PaymentStep;
    hide OtherStep;
    var woken := Wait(t, e.elapsed);
    if IsService(e.event) {
      ServiceKeepsCreation(woken, e.event, i);
    } else if IsPayment(e.event) {
      PaymentsLeaveRequests(woken, e.event);
    } else {
      OthersLeaveRequests(woken, e.event);
    }
  }

  predicate HasItsBackoff(createdAt: int, at: int, logged: nat) {
    logged < MAX_RETRIES && at >= createdAt + BackoffSum(logged + 1)
  }

  /** Every call, logged or not, finds a call left and comes after as many backoffs as calls were logged, and one. */
  ghost predicate OnTime(createdAt: int, calls: seq<Call>) {
    forall p :: 0 <= p < |calls| ==> HasItsBackoff(createdAt, calls[p].at, |Committed(calls[..p])|)
  }

  lemma CommittedMore(calls: seq<Call>, c: Call)
    ensures Committed(calls + [c]) == Committed(calls) + if c.crashed then [] else [c.at]
  {
    assert (calls + [c])[..|calls|] == calls;
  }

  lemma OnTimeMore(createdAt: int, calls: seq<Call>, c: Call)
    requires OnTime(createdAt, calls) && HasItsBackoff(createdAt, c.at, |Committed(calls)|)
    ensures OnTime(createdAt, calls + [c])
  {
    hide HasItsBackoff;
    var more := calls + [c];
    forall p | 0 <= p < |more|
      ensures HasItsBackoff(createdAt, more[p].at, |Committed(more[..p])|)
    {
      assert more[..p] == calls[..p];
      assert calls[..|calls|] == calls;
    }
  }

  lemma CallHasItsBackoff(t: Tables, e: Timed, i: nat)
    requires RequestInv(t) && Calls(t, e, i)
    ensures i < |t.requests|
    ensures HasItsBackoff(t.requests[i].createdAt, t.now + e.elapsed, |AttemptTimes(t.attempts, i)|)
  {
    var woken := Wait(t, e.elapsed);
    WaitKeeps(t, e.elapsed);
    DueHasBudget(woken, i);
    AttemptTimesAppend(t.attempts, Attempt(i, woken.now), i);
    SpacedFromCreation(t.requests[i].createdAt, AttemptTimes(t.attempts + [Attempt(i, woken.now)], i),
                       |AttemptTimes(t.attempts, i)|);
  }

  /** The calls are those the tables log and those rolled back, all on time; before the request there are none. */
  ghost predicate CallsOk(t: Tables, i: nat, calls: seq<Call>) {
    && Committed(calls) == AttemptTimes(t.attempts, i)
    && (if i < |t.requests| then OnTime(t.requests[i].createdAt, calls) else calls == [])
  }

  function NewCall(t: Tables, e: Timed, i: nat): seq<Call> {
    if Calls(t, e, i) then [Call(t.now + e.elapsed, e.event.WorkerCrashes?)] else []
  }

  lemma StepKeepsCalls(t: Tables, e: Timed, i: nat, calls: seq<Call>)
    requires RequestInv(t) && CallsOk(t, i, calls)
    ensures CallsOk(Step(t, e), i, calls + NewCall(t, e, i))
  {
    hide Step;
    hide Calls;
    hide OnTime;
    hide HasItsBackoff;
    hide RequestInv;
    StepLogsCalls(t, e, i);
    if Calls(t, e, i) {
      CallIsWorkers(t, e, i);
      CallHasItsBackoff(t, e, i);
      CommittedMore(calls, NewCall(t, e, i)[0]);
      OnTimeMore(t.requests[i].createdAt, calls, NewCall(t, e, i)[0]);
    } else {
      assert calls + [] == calls;
    }
    assert AttemptTimes(t.attempts, i) + [] == AttemptTimes(t.attempts, i);
    if i < |t.requests| {
      StepKeepsCreation(t, e, i);
    } else if i < |Step(t, e).requests| {
      NoCallsYet(Step(t, e).requests[i].createdAt);
    }
  }

  /**
   In every run the logged calls are the carrier's calls less those that were rolled back, and every call is on
   time: a rolled back call uses no budget, but none comes early or after the budget is spent.
   */
  lemma {:induction false} EveryCallIsOnTime(es: seq<Timed>, i: nat)
    requires OnGraph(es)
    ensures Committed(CallsOf(es, i)) == AttemptTimes(Run(es).attempts, i)
    ensures if i < |Run(es).requests| then OnTime(Run(es).requests[i].createdAt, CallsOf(es, i)) else CallsOf(es, i) == []
  {
    hide Step;
    hide NewCall;
    hide OnTime;
    if es != [] {
      var n := |es| - 1;
      EveryCallIsOnTime(es[..n], i);
      RunKeeps(EMPTY, es[..n]);
      StepKeepsCalls(Run(es[..n]), es[n], i, CallsOf(es[..n], i));
    }
  }

  lemma NoCallsYet(createdAt: int)
    ensures OnTime(createdAt, [])
  {
  }

  lemma CallIsWorkers(t: Tables, e: Timed, i: nat)
    requires Calls(t, e, i)
    ensures e.event.WorkerRetries? || e.event.WorkerCrashes?
  {
  }

  lemma ResolvedStep(t: Tables, e: Timed, i: nat)
    requires i < |t.requests| && t.requests[i].status != Pending
    ensures i < |Step(t, e).requests| && Step(t, e).requests[i] == t.requests[i]
  {
    var woken := Wait(t, e.elapsed);
    if IsService(e.event) {
      ServiceLeavesResolved(woken, e.event, i);
    } else if IsPayment(e.event) {
      PaymentsLeaveRequests(woken, e.event);
    } else {
      OthersLeaveRequests(woken, e.event);
    }
  }

  lemma CloseLeavesOthers(
    s: Tables, id: int, actor: int, comment: Option<string>, status: RequestStatus, source: string)
    requires HasRequest(s, id)
    ensures |Close(s, id, actor, comment, status, source).0.requests| == |s.requests|
    ensures forall i :: 0 <= i < |s.requests| && i != id ==>
              Close(s, id, actor, comment, status, source).0.requests[i] == s.requests[i]
  {
  }

  lemma ServiceLeavesResolved(t: Tables, e: Event, i: nat)
    requires IsService(e) && i < |t.requests| && t.requests[i].status != Pending
    ensures i < |ServiceStep(t, e).0.requests| && ServiceStep(t, e).0.requests[i] == t.requests[i]
  {
    match e
    case Customer(user, order, text, api) =>
    case CarrierApproves(id, actor, carrier, comment) =>
      if IsPending(t, id) {
        CloseLeavesOthers(t, id, actor, comment, Approved, "carrier_approved");
      }
    case AdminApproves(id, actor, comment) =>
      if IsPending(t, id) {
        CloseLeavesOthers(t, id, actor, comment, Approved, "admin_approved");
      }
    case AdminRetries(id, actor, api) =>
      if IsPending(t, id) {
        var r := t.requests[id].(apiAttempted := true, nextRetry := None);
        CloseLeavesOthers(SetRequest(Wait(t, api.took), id, r), id, actor, None, ApiCancelled, "admin_retry_api");
      }
    case WorkerRetries(id, api) =>
      AutoRetryLeavesOthers(t, id, api);
    case StaffRejects(id, actor, isAdmin, own, text) =>
  }

  lemma AutoRetryLeavesOthers(t: Tables, id: int, api: ApiCall)
    ensures |AutoRetry(t, id, api).0.requests| == |t.requests|
    ensures forall i :: 0 <= i < |t.requests| && (i != id || t.requests[i].status != Pending) ==>
              AutoRetry(t, id, api).0.requests[i] == t.requests[i]
  {
  }

  /** A resolved request never changes again, admin overrides included. */
  lemma {:induction false} ResolvedIsFinal(t: Tables, es: seq<Timed>, i: nat)
    requires i < |t.requests| && t.requests[i].status != Pending
    ensures i < |RunFrom(t, es).requests| && RunFrom(t, es).requests[i] == t.requests[i]
  {
    hide Step;
    if es != [] {
      ResolvedIsFinal(t, es[..|es| - 1], i);
      ResolvedStep(RunFrom(t, es[..|es| - 1]), es[|es| - 1], i);
    }
  }

  /** Once granted, a cancellation holds: the order is cancelled now and after any further graph run. */
  lemma GrantedStaysCancelled(es: seq<Timed>, more: seq<Timed>, i: nat)
    requires OnGraph(es + more) && i < |Run(es).requests|
    requires Run(es).requests[i].status in {Approved, ApiCancelled}
    ensures var u := Run(es + more);
            && i < |u.requests| && u.requests[i] == Run(es).requests[i]
            && u.requests[i].order in u.orders && u.orders[u.requests[i].order].status == Cancelled
  {
    hide Step;
    RunConcat(EMPTY, es, more);
    ResolvedIsFinal(Run(es), more, i);
    RequestLife(es + more);
    assert Run(es + more).requests[i] in Run(es + more).requests;
  }

  /**
   The graph's refusal inside the service cannot happen, in any state; and the API paths never find that
   the order has moved on.
   */
  lemma GraphNeverRefuses(t: Tables, e: Event)
    requires IsService(e)
    requires forall i :: 0 <= i < |t.requests| ==> t.requests[i].order in t.orders
    ensures ServiceStep(t, e).1 != Refusal(TransitionNotAllowed)
    ensures e.AdminRetries? || e.WorkerRetries? ==> ServiceStep(t, e).1 != Refusal(OrderMovedOn)
  {
  }

  /** Every due retry resolves the request, ends its schedule, or spends one call and waits longer. */
  lemma DueRetryMakesProgress(t: Tables, id: int, api: ApiCall)
    requires RequestInv(t) && HasRequest(t, id) && IsDue(t.requests[id], t.now)
    ensures var r, r' := t.requests[id], AutoRetry(t, id, api).0.requests[id];
            || r'.status != Pending
            || r'.nextRetry == None
            || (MAX_RETRIES - r'.retries < MAX_RETRIES - r.retries && r'.retries < MAX_RETRIES
                && r'.nextRetry.value >= t.now + BACKOFF[r'.retries])
  {
  }
}
