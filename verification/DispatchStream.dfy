/**
 From a dispatch message to a carrier waybill: the stream consumer
 (`backend/workers/consumers/dispatch_consumer.py`), the dispatch worker it calls and the paths that queue
 or cancel jobs.  Consumers, workers, customers, staff and the carrier interleave between the committed
 transactions; `Waybills` says what becomes of the waybills.
 */
module DispatchStream {
  import opened Prelude
  import opened OrderStatus
  import opened Store

  /** A dispatch job and how many times it has been put in the queue. */
  datatype QueuedJob = QueuedJob(order: nat, status: JobStatus, queued: nat)

  /**
   An order and its waybills, by number.  Ours: the number stored on the shipment, and those flagged for an
   operator.  The carrier's: the waybills that are live.
   */
  datatype Parcel = Parcel(status: Status, stored: Option<nat>, flagged: set<nat>, live: set<nat>)

  /** The `n`-th queueing of a job was claimed. */
  datatype Start = Start(job: nat, n: nat)

  /**
   Where a worker is: about to ask the carrier; past a failed call, before its bookkeeping; past an answer it
   could not save, before failing the job, and then before saving the number by itself.
   */
  datatype Stage = Asking | Failing(retry: bool) | Saving(number: Option<nat>) | Persisting(number: Option<nat>)

  datatype Work = Work(job: nat, from: Option<nat>, stage: Stage)

  /** A worker is known by the place of its claim in `starts`. */
  datatype State = State(
    orders: seq<Parcel>, jobs: seq<QueuedJob>,
    stream: seq<nat>, delivered: nat, pending: map<nat, nat>, acked: set<nat>,
    working: map<nat, Work>, starts: seq<Start>)

  const EMPTY: State := State([], [], [], 0, map[], {}, map[], [])

  /** How the carrier call ends for the worker; even an accepted order may come without a number. */
  datatype Outcome = Refused(retry: bool) | Recorded(number: Option<nat>) | Unsaved(number: Option<nat>) | Died

  /** What `cancel_invoice` told the rescheduling: true, false, or an exception. */
  datatype Answer = Confirmed | Declined | Raised

  /**
   `made` and `gone` are what the carrier really did: waybills it accepted, waybills it dropped.  Only `Ask` locks
   the order's row; the others act on what they saw of it, which may have changed by the time they write.
   */
  datatype Action =
    | Place(status: Status)
    | MoveOrder(order: nat, seen: Status, next: Status)
    | Override(order: nat, next: Status)
    | Enqueue(order: nat, seen: Status)
    | Publish(job: nat)
    | Deliver(consumer: nat)
    | Take(msg: nat)
    | Poll(job: nat)
    | AdminRetry(order: nat, seen: Status)
    | Ask(worker: nat, outcome: Outcome, made: set<nat>)
    | Settle(worker: nat, seen: Status)
    | Persist(worker: nat, seen: Status, committed: bool)
    | Die(worker: nat)
    | MarkDispatched(order: nat, seen: Status, hasShipment: bool, number: Option<nat>, made: set<nat>)
    | CancelOrder(order: nat, seen: Status)
    | Reschedule(order: nat, seen: Status, number: Option<nat>, flags: set<nat>, answer: Answer, dropped: bool)
    | ResolveOrphans(order: nat, gone: set<nat>)
    | CarrierDrops(order: nat, gone: set<nat>)

  // ---- queueing ----

  function SetJob(s: State, j: nat, status: JobStatus): State
    requires j < |s.jobs|
  {
    var job := s.jobs[j];
    s.(jobs := s.jobs[j := QueuedJob(job.order, status, job.queued + if status.Queued? then 1 else 0)])
  }

  function WithStatus(s: State, order: nat, status: Status): State
    requires order < |s.orders|
  {
    s.(orders := s.orders[order := s.orders[order].(status := status)])
  }

  function NewJob(s: State, order: nat): State {
    s.(jobs := s.jobs + [QueuedJob(order, Queued, 1)])
  }

  /** `create_dispatch_job`. */
  function Enqueued(s: State, order: nat, seen: Status): State {
    if order < |s.orders| && CanTransition(seen, DispatchQueued) then NewJob(WithStatus(s, order, DispatchQueued), order)
    else s
  }

  // ---- the claim ----

  /** The conditional UPDATE: only a queued job is claimed, and a message is acknowledged when `_process` returns. */
  function Claimed(s: State, j: nat, from: Option<nat>): (next: State)
    ensures next.orders == s.orders
  {
    if j < |s.jobs| && s.jobs[j].status.Queued? then
      SetJob(s, j, Processing).(
        working := s.working[|s.starts| := Work(j, from, Asking)], starts := s.starts + [Start(j, s.jobs[j].queued)])
    else Acknowledged(s, from)
  }

  function Acknowledged(s: State, from: Option<nat>): State {
    match from
    case None => s
    case Some(m) => s.(pending := s.pending - {m}, acked := if m in s.pending then s.acked + {m} else s.acked)
  }

  function Delivered(s: State, consumer: nat): State {
    if s.delivered < |s.stream| then s.(delivered := s.delivered + 1, pending := s.pending[s.delivered := consumer])
    else s
  }

  predicate BeingHandled(s: State, msg: nat) {
    exists k :: k in s.working && s.working[k].from == Some(msg)
  }

  function Taken(s: State, msg: nat): (next: State)
    ensures next.orders == s.orders
  {
    if msg in s.pending && msg < |s.stream| && !BeingHandled(s, msg) then Claimed(s, s.stream[msg], Some(msg)) else s
  }

  function LatestJob(jobs: seq<QueuedJob>, order: nat): (j: Option<nat>)
    ensures j.Some? ==> j.value < |jobs| && jobs[j.value].order == order
  {
    if jobs == [] then None
    else if jobs[|jobs| - 1].order == order then Some(|jobs| - 1)
    else LatestJob(jobs[..|jobs| - 1], order)
  }

  predicate Retryable(s: State, order: nat, seen: Status) {
    order < |s.orders| && seen in {DispatchFailed, PendingManual, PendingManualDispatch, DispatchQueued}
  }

  /** The job an operator's retry runs: the order's latest if it failed or is queued, else a new one. */
  function Requeued(s: State, order: nat, seen: Status): (r: (State, nat))
    requires Retryable(s, order, seen)
  {
    var latest := LatestJob(s.jobs, order);
    var moved := if seen == DispatchQueued then s else WithStatus(s, order, DispatchQueued);
    if latest.Some? && s.jobs[latest.value].status.Failed? then (SetJob(moved, latest.value, Queued), latest.value)
    else if latest.Some? && s.jobs[latest.value].status.Queued? then (moved, latest.value)
    else (NewJob(moved, order), |s.jobs|)
  }

  /** `retry_dispatch` and `retry_for_order`: the re-queued job is claimed at once. */
  function Retried(s: State, order: nat, seen: Status): State {
    if !Retryable(s, order, seen) then s
    else
      var (requeued, j) := Requeued(s, order, seen);
      Claimed(requeued, j, None)
  }

  // ---- the dispatch itself ----

  predicate IsWorking(s: State, k: nat) {
    k in s.working && s.working[k].job < |s.jobs| && s.jobs[s.working[k].job].order < |s.orders|
  }

  function OrderOf(s: State, k: nat): nat
    requires IsWorking(s, k)
  {
    s.jobs[s.working[k].job].order
  }

  /** The worker is done and its message acknowledged. */
  function Returned(s: State, k: nat): (next: State)
    requires k in s.working
    ensures next.orders == s.orders && next.jobs == s.jobs && next.starts == s.starts
  {
    Acknowledged(s.(working := s.working - {k}), s.working[k].from)
  }

  function Moved(s: State, k: nat, stage: Stage): (next: State)
    requires k in s.working
    ensures next.orders == s.orders && next.jobs == s.jobs && next.starts == s.starts
  {
    s.(working := s.working[k := s.working[k].(stage := stage)])
  }

  /** The carrier is asked only for an order that is still queued and has no stored number. */
  predicate Asks(p: Parcel) {
    p.status == DispatchQueued && p.stored.None?
  }

  function Carried(p: Parcel, outcome: Outcome, made: set<nat>): Parcel {
    if p.status != DispatchQueued then p
    else
      var called := p.(live := p.live + if p.stored.None? then made else {});
      if outcome.Recorded? then
        called.(status := SentToCarrier, stored := if p.stored.Some? then p.stored else outcome.number)
      else called
  }

  /** Under the order's row lock: the call, and the commit of its success. */
  function Asked(s: State, k: nat, outcome: Outcome, made: set<nat>): (next: State)
    ensures |next.orders| == |s.orders|
  {
    if !IsWorking(s, k) || !s.working[k].stage.Asking? then s
    else
      var o := OrderOf(s, k);
      var p := s.orders[o];
      var called := s.(orders := s.orders[o := Carried(p, outcome, made)]);
      match outcome
      case Died => called.(working := s.working - {k})
      case Refused(retry) =>
        if p.status == DispatchQueued then Moved(called, k, Failing(retry))
        else Returned(SetJob(s, s.working[k].job, JobCancelled), k)
      case Recorded(_) =>
        Returned(SetJob(called, s.working[k].job, if p.status == DispatchQueued then Completed else JobCancelled), k)
      case Unsaved(number) =>
        if p.status == DispatchQueued then Moved(called, k, Saving(if p.stored.Some? then p.stored else number))
        else Returned(SetJob(s, s.working[k].job, JobCancelled), k)
  }

  /** `_handle_retryable_failure`; or the first commit of `_handle_post_dispatch_failure`. */
  function Settled(s: State, k: nat, seen: Status): (next: State)
    ensures |next.orders| == |s.orders|
  {
    if !IsWorking(s, k) then s
    else
      var w := s.working[k];
      var o := OrderOf(s, k);
      match w.stage
      case Failing(retry) =>
        if retry then Returned(SetJob(s, w.job, Queued), k)
        else
          Returned(SetJob(if seen == DispatchQueued then WithStatus(s, o, DispatchFailed) else s, w.job, Failed), k)
      case Saving(number) => Moved(SetJob(s, w.job, Failed), k, Persisting(number))
      case _ => s
  }

  function Saved(p: Parcel, seen: Status, number: Option<nat>): Parcel {
    p.(status := if seen == DispatchQueued then DispatchFailed else p.status,
       stored := if number.Some? then number else p.stored)
  }

  /** Its second commit, which may fail. */
  function Persisted(s: State, k: nat, seen: Status, committed: bool): (next: State)
    ensures |next.orders| == |s.orders|
  {
    if !IsWorking(s, k) || !s.working[k].stage.Persisting? then s
    else if !committed then Returned(s, k)
    else
      var o := OrderOf(s, k);
      Returned(s.(orders := s.orders[o := Saved(s.orders[o], seen, s.working[k].stage.number)]), k)
  }

  // ---- other paths ----

  function Dropped(job: QueuedJob, order: nat): QueuedJob {
    if job.order == order && (job.status.Queued? || job.status.Failed?) then job.(status := JobCancelled) else job
  }

  function CancelJobs(jobs: seq<QueuedJob>, order: nat): (after: seq<QueuedJob>)
    ensures |after| == |jobs| && forall i :: 0 <= i < |jobs| ==> after[i] == Dropped(jobs[i], order)
  {
    if jobs == [] then [] else CancelJobs(jobs[..|jobs| - 1], order) + [Dropped(jobs[|jobs| - 1], order)]
  }

  /** `_finalize_cancellation`: jobs are cancelled only from the dispatch statuses before the carrier. */
  function CancelledOrder(s: State, order: nat, seen: Status): State {
    if !(order < |s.orders| && CanTransition(seen, Cancelled)) then s
    else
      WithStatus(s, order, Cancelled).(
        jobs := if seen in {DispatchQueued, DispatchFailed, PendingManual, PendingManualDispatch}
                then CancelJobs(s.jobs, order) else s.jobs)
  }

  predicate Reschedulable(s: State, order: nat, seen: Status) {
    order < |s.orders| && seen in {DispatchQueued, SentToCarrier, DispatchFailed}
  }

  /** The stored number goes, and only an exception adds the one it saw to the flags it saw. */
  function Untracked(p: Parcel, number: nat, flags: set<nat>, answer: Answer, dropped: bool): Parcel {
    p.(stored := None, flagged := if answer.Raised? then flags + {number} else p.flagged,
       live := p.live - if dropped then {number} else {})
  }

  /** `reschedule_pickup`: drop the stored waybill and queue again. */
  function Rescheduled(s: State, order: nat, seen: Status, number: Option<nat>, flags: set<nat>,
                       answer: Answer, dropped: bool): State
  {
    if !Reschedulable(s, order, seen) then s
    else
      var p := s.orders[order];
      var untracked := if number.Some? then Untracked(p, number.value, flags, answer, dropped) else p;
      Enqueued(s.(orders := s.orders[order := untracked]), order, seen)
  }

  /** `resolve_orphan_waybill`: the flags go on an operator's word. */
  function Resolved(s: State, order: nat, gone: set<nat>): State {
    if order >= |s.orders| then s
    else
      var p := s.orders[order];
      s.(orders := s.orders[order := p.(flagged := {}, live := p.live - gone)])
  }

  predicate Dispatchable(s: State, order: nat, seen: Status) {
    order < |s.orders| && CanTransition(seen, SentToCarrier)
  }

  /** `mark_dispatched`: the typed number replaces the stored one, if there is a shipment; an empty one is None. */
  function Marked(s: State, order: nat, seen: Status, hasShipment: bool, number: Option<nat>, made: set<nat>): State {
    if !Dispatchable(s, order, seen) then s
    else
      var p := s.orders[order];
      s.(orders := s.orders[order := p.(status := SentToCarrier, live := p.live + made,
                                        stored := if hasShipment then number else p.stored)])
  }

  /** By itself, by phone, or in a cancellation call whose answer was lost or accepted. */
  function DroppedByCarrier(s: State, order: nat, gone: set<nat>): State {
    if order >= |s.orders| then s
    else s.(orders := s.orders[order := s.orders[order].(live := s.orders[order].live - gone)])
  }

  function Step(s: State, a: Action): State {
    match a
    case Place(status) => s.(orders := s.orders + [Parcel(status, None, {}, {})])
    case MoveOrder(o, seen, next) => if o < |s.orders| && CanTransition(seen, next) then WithStatus(s, o, next) else s
    case Override(o, next) => if o < |s.orders| then WithStatus(s, o, next) else s
    case Enqueue(o, seen) => Enqueued(s, o, seen)
    case Publish(j) => s.(stream := s.stream + [j])
    case Deliver(consumer) => Delivered(s, consumer)
    case Take(msg) => Taken(s, msg)
    case Poll(j) => if j < |s.jobs| && s.jobs[j].status.Queued? then Claimed(s, j, None) else s
    case AdminRetry(o, seen) => Retried(s, o, seen)
    case Ask(k, outcome, made) => Asked(s, k, outcome, made)
    case Settle(k, seen) => Settled(s, k, seen)
    case Persist(k, seen, committed) => Persisted(s, k, seen, committed)
    case Die(k) => s.(working := s.working - {k})
    case MarkDispatched(o, seen, hasShipment, number, made) => Marked(s, o, seen, hasShipment, number, made)
    case CancelOrder(o, seen) => CancelledOrder(s, o, seen)
    case Reschedule(o, seen, number, flags, answer, dropped) => Rescheduled(s, o, seen, number, flags, answer, dropped)
    case ResolveOrphans(o, gone) => Resolved(s, o, gone)
    case CarrierDrops(o, gone) => DroppedByCarrier(s, o, gone)
  }

  function RunFrom(s: State, es: seq<Action>): State {
    if es == [] then s else Step(RunFrom(s, es[..|es| - 1]), es[|es| - 1])
  }

  function Run(es: seq<Action>): State {
    RunFrom(EMPTY, es)
  }

  // ---- messages ----

  predicate SameMessage(v: Work, w: Work) {
    v.from.Some? && v.from == w.from
  }

  /** Every delivered message is pending or acknowledged, not both; one still being handled is pending. */
  ghost predicate Kept(s: State) {
    && s.delivered <= |s.stream|
    && (forall m: nat :: m < s.delivered <==> m in s.pending || m in s.acked)
    && (forall m: nat :: m in s.pending ==> m !in s.acked)
    && (forall k: nat :: k in s.working ==> k < |s.starts|)
    && (forall k: nat :: k in s.working && s.working[k].from.Some? ==> s.working[k].from.value in s.pending)
    && forall i: nat, k: nat :: i in s.working && k in s.working && SameMessage(s.working[i], s.working[k]) ==> i == k
  }

  lemma ClaimKeepsMessages(s: State, j: nat, from: Option<nat>)
    requires Kept(s) && (from.Some? ==> from.value in s.pending && !BeingHandled(s, from.value))
    ensures Kept(Claimed(s, j, from))
  {
  }

  lemma ReturnKeepsMessages(s: State, k: nat)
    requires Kept(s) && k in s.working
    ensures Kept(Returned(s, k))
  {
  }

  /** What the messages depend on is the same. */
  predicate SameMessages(s: State, t: State) {
    && s.stream == t.stream && s.delivered == t.delivered && s.pending == t.pending && s.acked == t.acked
    && |s.starts| == |t.starts| && s.working == t.working
  }

  lemma SameKeepsMessages(s: State, t: State)
    requires Kept(s) && SameMessages(s, t)
    ensures Kept(t)
  {
  }

  lemma MoveKeepsMessages(s: State, k: nat, stage: Stage)
    requires Kept(s) && k in s.working
    ensures Kept(Moved(s, k, stage))
  {
  }

  lemma StreamKeepsMessages(s: State, job: nat, consumer: nat)
    requires Kept(s)
    ensures Kept(s.(stream := s.stream + [job])) && Kept(Delivered(s, consumer))
  {
  }

  lemma DeathKeepsMessages(s: State, k: nat)
    requires Kept(s)
    ensures Kept(s.(working := s.working - {k}))
  {
  }

  lemma AskKeepsMessages(s: State, k: nat, outcome: Outcome, made: set<nat>)
    requires Kept(s)
    ensures Kept(Asked(s, k, outcome, made))
  {
    hide Kept;
    hide Returned;
    hide Moved;
    if IsWorking(s, k) && s.working[k].stage.Asking? {
      var o, w := OrderOf(s, k), s.working[k];
      var called := s.(orders := s.orders[o := Carried(s.orders[o], outcome, made)]);
      hide Carried;
      SameKeepsMessages(s, called);
      DeathKeepsMessages(called, k);
      SameKeepsMessages(s, SetJob(s, w.job, JobCancelled));
      SameKeepsMessages(called, SetJob(called, w.job, Completed));
      ReturnKeepsMessages(SetJob(s, w.job, JobCancelled), k);
      ReturnKeepsMessages(SetJob(called, w.job, Completed), k);
      match outcome
      case Refused(retry) => MoveKeepsMessages(called, k, Failing(retry));
      case Unsaved(number) =>
        MoveKeepsMessages(called, k, Saving(if s.orders[o].stored.Some? then s.orders[o].stored else number));
      case Recorded(_) =>
        SameKeepsMessages(called, SetJob(called, w.job, JobCancelled));
        ReturnKeepsMessages(SetJob(called, w.job, JobCancelled), k);
      case Died =>
    }
  }

  lemma SettleKeepsMessages(s: State, k: nat, seen: Status)
    requires Kept(s)
    ensures Kept(Settled(s, k, seen))
  {
    hide Kept;
    hide Returned;
    hide Moved;
    if IsWorking(s, k) {
      var o, w := OrderOf(s, k), s.working[k];
      var failed := SetJob(s, w.job, Failed);
      SameKeepsMessages(s, failed);
      SameKeepsMessages(s, SetJob(s, w.job, Queued));
      ReturnKeepsMessages(SetJob(s, w.job, Queued), k);
      match w.stage
      case Failing(_) =>
        SameKeepsMessages(failed, SetJob(WithStatus(s, o, DispatchFailed), w.job, Failed));
        ReturnKeepsMessages(failed, k);
        ReturnKeepsMessages(SetJob(WithStatus(s, o, DispatchFailed), w.job, Failed), k);
      case Saving(number) => MoveKeepsMessages(failed, k, Persisting(number));
      case _ =>
    }
  }

  lemma PersistKeepsMessages(s: State, k: nat, seen: Status, committed: bool)
    requires Kept(s)
    ensures Kept(Persisted(s, k, seen, committed))
  {
    hide Kept;
    hide Returned;
    if IsWorking(s, k) && s.working[k].stage.Persisting? {
      var o := OrderOf(s, k);
      var saved := s.(orders := s.orders[o := Saved(s.orders[o], seen, s.working[k].stage.number)]);
      SameKeepsMessages(s, saved);
      ReturnKeepsMessages(s, k);
      ReturnKeepsMessages(saved, k);
    }
  }

  lemma RetryKeepsMessages(s: State, order: nat, seen: Status)
    requires Kept(s)
    ensures Kept(Retried(s, order, seen))
  {
    hide Kept;
    hide Claimed;
    if Retryable(s, order, seen) {
      SameKeepsMessages(s, Requeued(s, order, seen).0);
      ClaimKeepsMessages(Requeued(s, order, seen).0, Requeued(s, order, seen).1, None);
    }
  }

  /** The consumers, the workers and the requests that start one. */
  predicate Works(a: Action) {
    match a
    case Publish(_) => true
    case Deliver(_) => true
    case Take(_) => true
    case Poll(_) => true
    case AdminRetry(_, _) => true
    case Ask(_, _, _) => true
    case Settle(_, _) => true
    case Persist(_, _, _) => true
    case Die(_) => true
    case _ => false
  }

  /** Everything else leaves messages, workers and the jobs in progress or cancelled alone. */
  lemma OthersLeaveWork(s: State, a: Action)
    requires !Works(a)
    ensures SameMessages(s, Step(s, a)) && s.starts == Step(s, a).starts && KeepsProgress(s.jobs, Step(s, a).jobs)
  {
    hide CanTransition;
  }

  predicate KeepsProgress(jobs: seq<QueuedJob>, after: seq<QueuedJob>) {
    && |jobs| <= |after|
    && forall j :: 0 <= j < |jobs| && (jobs[j].status.Processing? || jobs[j].status.JobCancelled?) ==> after[j] == jobs[j]
  }

  lemma StepKeepsMessages(s: State, a: Action)
    requires Kept(s)
    ensures Kept(Step(s, a))
  {
    hide Kept;
    hide Delivered;
    hide Claimed;
    hide Retried;
    hide Asked;
    hide Settled;
    hide Persisted;
    hide CanTransition;
    match a
    case Take(msg) =>
      if msg in s.pending && msg < |s.stream| && !BeingHandled(s, msg) {
        ClaimKeepsMessages(s, s.stream[msg], Some(msg));
      }
    case Poll(j) => ClaimKeepsMessages(s, j, None);
    case AdminRetry(o, seen) => RetryKeepsMessages(s, o, seen);
    case Ask(k, outcome, made) => AskKeepsMessages(s, k, outcome, made);
    case Settle(k, seen) => SettleKeepsMessages(s, k, seen);
    case Persist(k, seen, committed) => PersistKeepsMessages(s, k, seen, committed);
    case Die(k) => DeathKeepsMessages(s, k);
    case Publish(j) => StreamKeepsMessages(s, j, 0);
    case Deliver(consumer) => StreamKeepsMessages(s, 0, consumer);
    case _ =>
      hide Step;
      OthersLeaveWork(s, a);
      SameKeepsMessages(s, Step(s, a));
  }

  /** Over any run no delivered message is lost: it is acknowledged, or pending for a consumer's next start. */
  lemma {:induction false} NoMessageIsLost(es: seq<Action>)
    ensures Kept(Run(es))
  {
    hide Step;
    if es != [] {
      NoMessageIsLost(es[..|es| - 1]);
      StepKeepsMessages(Run(es[..|es| - 1]), es[|es| - 1]);
    }
  }

  // ---- one start per queueing ----

  /** Claims are distinct, none is ahead of its job's queue count, and a queued job's current turn is unclaimed. */
  ghost predicate StartedOnce(s: State) {
    && (forall i, k :: 0 <= i < k < |s.starts| ==> s.starts[i] != s.starts[k])
    && forall i :: 0 <= i < |s.starts| ==>
         && s.starts[i].job < |s.jobs| && s.starts[i].n <= s.jobs[s.starts[i].job].queued
         && (s.jobs[s.starts[i].job].status.Queued? ==> s.starts[i].n < s.jobs[s.starts[i].job].queued)
  }

  lemma ClaimStartsOnce(s: State, j: nat, from: Option<nat>)
    requires StartedOnce(s)
    ensures StartedOnce(Claimed(s, j, from))
  {
  }

  lemma RequeueStartsOnce(s: State, order: nat, seen: Status)
    requires StartedOnce(s) && Retryable(s, order, seen)
    ensures StartedOnce(Requeued(s, order, seen).0)
  {
  }

  lemma AskStartsOnce(s: State, k: nat, outcome: Outcome, made: set<nat>)
    requires StartedOnce(s)
    ensures StartedOnce(Asked(s, k, outcome, made))
  {
    hide Carried;
  }

  lemma SettleStartsOnce(s: State, k: nat, seen: Status)
    requires StartedOnce(s)
    ensures StartedOnce(Settled(s, k, seen))
  {
    hide Returned;
    hide Moved;
  }

  lemma PersistStartsOnce(s: State, k: nat, seen: Status, committed: bool)
    requires StartedOnce(s)
    ensures StartedOnce(Persisted(s, k, seen, committed))
  {
    hide Returned;
    hide Saved;
  }

  lemma StepStartsOnce(s: State, a: Action)
    requires StartedOnce(s)
    ensures StartedOnce(Step(s, a))
  {
    hide Claimed;
    hide Requeued;
    hide Asked;
    hide Settled;
    hide Persisted;
    hide CanTransition;
    match a
    case Take(msg) =>
      if msg in s.pending && msg < |s.stream| {
        ClaimStartsOnce(s, s.stream[msg], Some(msg));
      }
    case Poll(j) => ClaimStartsOnce(s, j, None);
    case AdminRetry(o, seen) =>
      if Retryable(s, o, seen) {
        RequeueStartsOnce(s, o, seen);
        ClaimStartsOnce(Requeued(s, o, seen).0, Requeued(s, o, seen).1, None);
      }
    case Ask(k, outcome, made) => AskStartsOnce(s, k, outcome, made);
    case Settle(k, seen) => SettleStartsOnce(s, k, seen);
    case Persist(k, seen, committed) => PersistStartsOnce(s, k, seen, committed);
    case _ =>
  }

  /**
   Redelivered messages, polling and operators together never start the same queueing of a job twice.
   */
  lemma {:induction false} QueueingsStartOnce(es: seq<Action>)
    ensures StartedOnce(Run(es))
  {
    hide Step;
    if es != [] {
      QueueingsStartOnce(es[..|es| - 1]);
      StepStartsOnce(Run(es[..|es| - 1]), es[|es| - 1]);
    }
  }

  // ---- what a worker's turn comes to ----

  /** Only this job changed, to the status; being put back in the queue counts as a new queueing. */
  predicate OnlyJob(s: State, t: State, j: nat, status: JobStatus) {
    && j < |s.jobs| && |t.jobs| == |s.jobs| && t.jobs == s.jobs[j := t.jobs[j]]
    && t.jobs[j].order == s.jobs[j].order && t.jobs[j].status == status
    && t.jobs[j].queued == s.jobs[j].queued + if status.Queued? then 1 else 0
  }

  /** The worker is gone, and its message, if it had one, is acknowledged. */
  predicate Done(s: State, t: State, k: nat) {
    && k in s.working && t.working == s.working - {k}
    && (s.working[k].from.Some? ==>
          s.working[k].from.value !in t.pending
          && (s.working[k].from.value in s.pending ==> s.working[k].from.value in t.acked))
  }

  predicate OnlyOrder(s: State, t: State, o: nat) {
    o < |s.orders| && |t.orders| == |s.orders| && t.orders == s.orders[o := t.orders[o]]
  }

  /** A success completes the job and hands the order over, keeping a stored number, and asking only without one. */
  lemma RecordedTurn(s: State, k: nat, number: Option<nat>, made: set<nat>)
    requires IsWorking(s, k) && s.working[k].stage == Asking && s.orders[OrderOf(s, k)].status == DispatchQueued
    ensures var t, o := Step(s, Ask(k, Recorded(number), made)), OrderOf(s, k);
            var p, q := s.orders[o], t.orders[o];
            && OnlyJob(s, t, s.working[k].job, Completed) && Done(s, t, k) && OnlyOrder(s, t, o)
            && q.status == SentToCarrier && q.flagged == p.flagged
            && (p.stored.Some? ==> q.stored == p.stored && q.live == p.live)
            && (p.stored.None? ==> q.stored == number && q.live == p.live + made)
  {
  }

  /** An order that is no longer queued is not dispatched: its job is cancelled and the order left alone. */
  lemma SkippedTurn(s: State, k: nat, outcome: Outcome, made: set<nat>)
    requires IsWorking(s, k) && s.working[k].stage == Asking && s.orders[OrderOf(s, k)].status != DispatchQueued
    ensures var t := Step(s, Ask(k, outcome, made));
            && t.orders == s.orders
            && (if outcome == Died then t.jobs == s.jobs && t.working == s.working - {k} && t.pending == s.pending
                else OnlyJob(s, t, s.working[k].job, JobCancelled) && Done(s, t, k))
  {
  }

  /**
   A refusal that may be retried puts the job back in the queue and leaves the order queued; any other fails
   the job, and the order with it if it was still seen queued.
   */
  lemma RefusedTurn(s: State, k: nat, retry: bool, made: set<nat>, seen: Status)
    requires IsWorking(s, k) && s.working[k].stage == Asking && s.orders[OrderOf(s, k)].status == DispatchQueued
    ensures var t, o := Step(Step(s, Ask(k, Refused(retry), made)), Settle(k, seen)), OrderOf(s, k);
            var p, q := s.orders[o], t.orders[o];
            && OnlyJob(s, t, s.working[k].job, if retry then Queued else Failed) && Done(s, t, k) && OnlyOrder(s, t, o)
            && q.status == (if !retry && seen == DispatchQueued then DispatchFailed else DispatchQueued)
            && q.stored == p.stored && q.flagged == p.flagged
  {
    var t1, j := Step(s, Ask(k, Refused(retry), made)), s.working[k].job;
    assert t1.jobs == s.jobs && t1.working == s.working[k := Work(j, s.working[k].from, Failing(retry))];
    assert t1.working - {k} == s.working - {k};
  }

  /** An answer that could not be saved fails the job at once, and the number and the failure follow by themselves. */
  lemma UnsavedTurn(s: State, k: nat, number: Option<nat>, made: set<nat>, seen: Status, later: Status, committed: bool)
    requires IsWorking(s, k) && s.working[k].stage == Asking && s.orders[OrderOf(s, k)].status == DispatchQueued
    requires s.orders[OrderOf(s, k)].stored.None?
    ensures var t1 := Step(Step(s, Ask(k, Unsaved(number), made)), Settle(k, seen));
            var t2, o := Step(t1, Persist(k, later, committed)), OrderOf(s, k);
            && OnlyJob(s, t1, s.working[k].job, Failed) && k in t1.working
            && OnlyOrder(s, t1, o) && t1.orders[o] == s.orders[o].(live := s.orders[o].live + made)
            && t2.jobs == t1.jobs && Done(s, t2, k)
            && (if committed
                then OnlyOrder(t1, t2, o) && t2.orders[o].stored == number && t2.orders[o].live == t1.orders[o].live
                     && t2.orders[o].status == (if later == DispatchQueued then DispatchFailed else DispatchQueued)
                else t2.orders == t1.orders)
  {
    var w := s.working[k];
    var a := Step(s, Ask(k, Unsaved(number), made));
    assert a.working == s.working[k := Work(w.job, w.from, Saving(number))] && a.jobs == s.jobs;
    var t1 := Step(a, Settle(k, seen));
    assert t1.working == s.working[k := Work(w.job, w.from, Persisting(number))];
    hide Step;
    PersistTurn(t1, k, number, later, committed);
    assert t1.working - {k} == s.working - {k};
  }

  lemma PersistTurn(s: State, k: nat, number: Option<nat>, later: Status, committed: bool)
    requires IsWorking(s, k) && s.working[k].stage == Persisting(number)
    ensures var t, o := Step(s, Persist(k, later, committed)), OrderOf(s, k);
            var p, q := s.orders[o], t.orders[o];
            && t.jobs == s.jobs && Done(s, t, k) && OnlyOrder(s, t, o)
            && (!committed ==> t.orders == s.orders)
            && (committed ==>
                  && q == p.(status := q.status, stored := q.stored)
                  && q.stored == (if number.Some? then number else p.stored)
                  && q.status == (if later == DispatchQueued then DispatchFailed else p.status))
  {
  }

  /** The order's last job, if it has one. */
  predicate IsLatest(jobs: seq<QueuedJob>, order: nat, j: nat) {
    j < |jobs| && jobs[j].order == order && forall k :: j < k < |jobs| ==> jobs[k].order != order
  }

  lemma {:induction false} LatestIs(jobs: seq<QueuedJob>, order: nat)
    ensures match LatestJob(jobs, order)
            case Some(j) => IsLatest(jobs, order, j)
            case None => forall k :: 0 <= k < |jobs| ==> jobs[k].order != order
  {
    if jobs != [] {
      LatestIs(jobs[..|jobs| - 1], order);
    }
  }

  /** The job an operator's retry starts: the order's last if that is failed or still queued, else a new one. */
  lemma RetryOutcome(s: State, o: nat, seen: Status, j: nat)
    requires o < |s.orders|
    requires seen == DispatchFailed || seen == PendingManual || seen == PendingManualDispatch || seen == DispatchQueued
    ensures var t := Step(s, AdminRetry(o, seen));
            var again := IsLatest(s.jobs, o, j) && (s.jobs[j].status.Failed? || s.jobs[j].status.Queued?);
            && OnlyOrder(s, t, o)
            && t.orders[o] == s.orders[o].(status := if seen == DispatchQueued then s.orders[o].status else DispatchQueued)
            && |t.starts| == |s.starts| + 1
            && var started := t.starts[|s.starts|].job;
               && started < |t.jobs| && t.jobs[started].order == o && t.jobs[started].status == Processing
               && t.working == s.working[|s.starts| := Work(started, None, Asking)]
               && (again ==> started == j && |t.jobs| == |s.jobs|)
               && (IsLatest(s.jobs, o, j) && !again ==> started == |s.jobs| && t.jobs[..|s.jobs|] == s.jobs)
  {
    RequeueOutcome(s, o, seen, j);
    hide Requeued;
  }

  lemma RequeueOutcome(s: State, o: nat, seen: Status, j: nat)
    requires Retryable(s, o, seen)
    ensures var (t, started) := Requeued(s, o, seen);
            var again := IsLatest(s.jobs, o, j) && (s.jobs[j].status.Failed? || s.jobs[j].status.Queued?);
            && t.starts == s.starts && t.working == s.working && OnlyOrder(s, t, o)
            && t.orders[o] == s.orders[o].(status := if seen == DispatchQueued then s.orders[o].status else DispatchQueued)
            && started < |t.jobs| && t.jobs[started].order == o && t.jobs[started].status == Queued
            && (again ==> started == j && |t.jobs| == |s.jobs|)
            && (IsLatest(s.jobs, o, j) && !again ==> started == |s.jobs| && t.jobs[..|s.jobs|] == s.jobs)
  {
    LatestIs(s.jobs, o);
    hide LatestJob;
  }

  /** Rescheduling re-queues an order that was sent or had failed; one still queued keeps its job. */
  lemma RescheduleOutcome(s: State, o: nat, seen: Status, number: Option<nat>, flags: set<nat>, answer: Answer, dropped: bool)
    requires o < |s.orders|
    ensures var t := Step(s, Reschedule(o, seen, number, flags, answer, dropped));
            && OnlyOrder(s, t, o)
            && (seen == SentToCarrier || seen == DispatchFailed ==>
                  t.orders[o].status == DispatchQueued && t.jobs == s.jobs + [QueuedJob(o, Queued, 1)])
            && (seen != SentToCarrier && seen != DispatchFailed ==>
                  t.jobs == s.jobs && t.orders[o].status == s.orders[o].status)
            && (seen !in {SentToCarrier, DispatchFailed, DispatchQueued} ==> t == s)
  {
  }

  /** Cancelling drops the order's queued and failed jobs, if it was seen before the carrier, and no other job. */
  lemma CancelOutcome(s: State, o: nat, seen: Status, j: nat)
    requires o < |s.orders| && j < |s.jobs|
    ensures var t := Step(s, CancelOrder(o, seen));
            var may := seen in {DispatchQueued, DispatchFailed, PendingManual, PendingManualDispatch};
            && OnlyOrder(s, t, o) && |t.jobs| == |s.jobs|
            && (may || seen == Paid || seen == SentToCarrier ==> t.orders[o].status == Cancelled)
            && t.jobs[j] == if may && s.jobs[j].order == o && (s.jobs[j].status.Queued? || s.jobs[j].status.Failed?)
                            then s.jobs[j].(status := JobCancelled) else s.jobs[j]
  {
    hide CancelJobs;
  }

  // ---- cancelled jobs and orders ----

  predicate SameJob(v: Work, w: Work) {
    !v.stage.Persisting? && !w.stage.Persisting? && v.job == w.job
  }

  /** A worker that may still write its job has it in progress, and is the only one to. */
  ghost predicate Owned(s: State) {
    && (forall k: nat :: k in s.working ==> k < |s.starts|)
    && (forall k: nat :: k in s.working && !s.working[k].stage.Persisting? ==>
          s.working[k].job < |s.jobs| && s.jobs[s.working[k].job].status.Processing?)
    && forall i: nat, k: nat :: i in s.working && k in s.working && SameJob(s.working[i], s.working[k]) ==> i == k
  }

  lemma ClaimKeepsOwned(s: State, j: nat, from: Option<nat>)
    requires Owned(s)
    ensures Owned(Claimed(s, j, from))
  {
  }

  lemma RequeueKeepsOwned(s: State, order: nat, seen: Status)
    requires Owned(s) && Retryable(s, order, seen)
    ensures Owned(Requeued(s, order, seen).0)
  {
  }

  lemma SameKeepsOwned(s: State, t: State)
    requires Owned(s) && s.working == t.working && |s.starts| == |t.starts| && KeepsProgress(s.jobs, t.jobs)
    ensures Owned(t)
  {
  }

  lemma DropKeepsOwned(s: State, k: nat)
    requires Owned(s)
    ensures Owned(s.(working := s.working - {k})) && (k in s.working ==> Owned(Returned(s, k)))
  {
  }

  /** A worker that owns its job may finish it, or fail it and go on to its last commit. */
  lemma OwnerKeepsOwned(s: State, k: nat, status: JobStatus, number: Option<nat>)
    requires Owned(s) && IsWorking(s, k) && !s.working[k].stage.Persisting?
    ensures Owned(Returned(SetJob(s, s.working[k].job, status), k))
    ensures Owned(Moved(SetJob(s, s.working[k].job, status), k, Persisting(number)))
  {
  }

  lemma MoveKeepsOwned(s: State, k: nat, stage: Stage)
    requires Owned(s) && k in s.working && !s.working[k].stage.Persisting?
    ensures Owned(Moved(s, k, stage))
  {
  }

  lemma AskKeepsOwned(s: State, k: nat, outcome: Outcome, made: set<nat>)
    requires Owned(s)
    ensures Owned(Asked(s, k, outcome, made))
  {
    hide Carried;
    hide Owned;
    hide Returned;
    hide Moved;
    if IsWorking(s, k) && s.working[k].stage.Asking? {
      var o := OrderOf(s, k);
      var called := s.(orders := s.orders[o := Carried(s.orders[o], outcome, made)]);
      SameKeepsOwned(s, called);
      DropKeepsOwned(called, k);
      OwnerKeepsOwned(s, k, JobCancelled, None);
      OwnerKeepsOwned(called, k, if s.orders[o].status == DispatchQueued then Completed else JobCancelled, None);
      match outcome
      case Refused(retry) => MoveKeepsOwned(called, k, Failing(retry));
      case Unsaved(number) =>
        MoveKeepsOwned(called, k, Saving(if s.orders[o].stored.Some? then s.orders[o].stored else number));
      case _ =>
    }
  }

  lemma SettleKeepsOwned(s: State, k: nat, seen: Status)
    requires Owned(s)
    ensures Owned(Settled(s, k, seen))
  {
    hide Owned;
    hide Returned;
    hide Moved;
    if IsWorking(s, k) {
      var o := OrderOf(s, k);
      var failed := if seen == DispatchQueued then WithStatus(s, o, DispatchFailed) else s;
      SameKeepsOwned(s, failed);
      match s.working[k].stage
      case Failing(_) =>
        OwnerKeepsOwned(s, k, Queued, None);
        OwnerKeepsOwned(failed, k, Failed, None);
      case Saving(number) => OwnerKeepsOwned(s, k, Failed, number);
      case _ =>
    }
  }

  lemma PersistKeepsOwned(s: State, k: nat, seen: Status, committed: bool)
    requires Owned(s)
    ensures Owned(Persisted(s, k, seen, committed))
  {
    hide Owned;
    hide Returned;
    if IsWorking(s, k) && s.working[k].stage.Persisting? {
      var o := OrderOf(s, k);
      var saved := s.(orders := s.orders[o := Saved(s.orders[o], seen, s.working[k].stage.number)]);
      SameKeepsOwned(s, saved);
      DropKeepsOwned(s, k);
      DropKeepsOwned(saved, k);
    }
  }

  lemma StepKeepsOwned(s: State, a: Action)
    requires Owned(s)
    ensures Owned(Step(s, a))
  {
    hide Owned;
    hide Claimed;
    hide Requeued;
    hide Asked;
    hide Settled;
    hide Persisted;
    match a
    case Take(msg) =>
      if msg in s.pending && msg < |s.stream| {
        ClaimKeepsOwned(s, s.stream[msg], Some(msg));
      }
    case Poll(j) => ClaimKeepsOwned(s, j, None);
    case AdminRetry(o, seen) =>
      if Retryable(s, o, seen) {
        RequeueKeepsOwned(s, o, seen);
        ClaimKeepsOwned(Requeued(s, o, seen).0, Requeued(s, o, seen).1, None);
      }
    case Ask(k, outcome, made) => AskKeepsOwned(s, k, outcome, made);
    case Settle(k, seen) => SettleKeepsOwned(s, k, seen);
    case Persist(k, seen, committed) => PersistKeepsOwned(s, k, seen, committed);
    case Die(k) => DropKeepsOwned(s, k);
    case Publish(_) => SameKeepsOwned(s, Step(s, a));
    case Deliver(_) => SameKeepsOwned(s, Step(s, a));
    case _ =>
      hide Step;
      OthersLeaveWork(s, a);
      SameKeepsOwned(s, Step(s, a));
  }

  lemma {:induction false} WorkersOwnTheirJobs(es: seq<Action>)
    ensures Owned(Run(es))
  {
    hide Step;
    if es != [] {
      WorkersOwnTheirJobs(es[..|es| - 1]);
      StepKeepsOwned(Run(es[..|es| - 1]), es[|es| - 1]);
    }
  }

  predicate JobIsCancelled(s: State, j: nat) {
    j < |s.jobs| && s.jobs[j].status.JobCancelled?
  }

  function StartsOf(starts: seq<Start>, j: nat): seq<Start> {
    if starts == [] then []
    else
      var n := |starts| - 1;
      StartsOf(starts[..n], j) + if starts[n].job == j then [starts[n]] else []
  }

  predicate StillCancelled(s: State, next: State, j: nat) {
    JobIsCancelled(next, j) && StartsOf(next.starts, j) == StartsOf(s.starts, j)
  }

  lemma StartsMore(starts: seq<Start>, x: Start, j: nat)
    ensures StartsOf(starts + [x], j) == StartsOf(starts, j) + if x.job == j then [x] else []
  {
    assert (starts + [x])[..|starts|] == starts;
  }

  lemma ClaimLeavesCancelled(s: State, k: nat, from: Option<nat>, j: nat)
    requires JobIsCancelled(s, j)
    ensures StillCancelled(s, Claimed(s, k, from), j)
  {
    hide StartsOf;
    if k < |s.jobs| && s.jobs[k].status.Queued? {
      StartsMore(s.starts, Start(k, s.jobs[k].queued), j);
      assert StartsOf(s.starts, j) + [] == StartsOf(s.starts, j);
    }
  }

  /** A worker's steps write only the job it has in progress. */
  lemma WorkerLeavesCancelled(s: State, k: nat, outcome: Outcome, made: set<nat>, seen: Status, committed: bool, j: nat)
    requires Owned(s) && JobIsCancelled(s, j)
    ensures StillCancelled(s, Asked(s, k, outcome, made), j)
    ensures StillCancelled(s, Settled(s, k, seen), j)
    ensures StillCancelled(s, Persisted(s, k, seen, committed), j)
  {
    hide StartsOf;
    hide Carried;
    hide Saved;
    hide Returned;
    hide Moved;
  }

  lemma StepLeavesCancelled(s: State, a: Action, j: nat)
    requires Owned(s) && JobIsCancelled(s, j)
    ensures StillCancelled(s, Step(s, a), j)
  {
    hide Claimed;
    hide StartsOf;
    hide Owned;
    hide Asked;
    hide Settled;
    hide Persisted;
    hide CanTransition;
    match a
    case Take(msg) =>
      if msg in s.pending && msg < |s.stream| {
        ClaimLeavesCancelled(s, s.stream[msg], Some(msg), j);
      }
    case Poll(k) => ClaimLeavesCancelled(s, k, None, j);
    case AdminRetry(o, seen) =>
      if Retryable(s, o, seen) {
        ClaimLeavesCancelled(Requeued(s, o, seen).0, Requeued(s, o, seen).1, None, j);
      }
    case Ask(k, outcome, made) => WorkerLeavesCancelled(s, k, outcome, made, Draft, false, j);
    case Settle(k, seen) => WorkerLeavesCancelled(s, k, Died, {}, seen, false, j);
    case Persist(k, seen, committed) => WorkerLeavesCancelled(s, k, Died, {}, seen, committed, j);
    case Publish(_) =>
    case Deliver(_) =>
    case Die(_) =>
    case _ =>
      hide Step;
      OthersLeaveWork(s, a);
  }

  /** A job cancelled with its order, at any point of any run, is never queued or started again. */
  lemma {:induction false} CancelledJobsStayCancelled(es: seq<Action>, more: seq<Action>, j: nat)
    requires JobIsCancelled(Run(es), j)
    ensures StillCancelled(Run(es), RunFrom(Run(es), more), j)
  {
    hide Step;
    if more != [] {
      var n := |more| - 1;
      CancelledJobsStayCancelled(es, more[..n], j);
      RunConcat(es, more[..n]);
      WorkersOwnTheirJobs(es + more[..n]);
      StepLeavesCancelled(RunFrom(Run(es), more[..n]), more[n], j);
    }
  }

  lemma {:induction false} RunConcat(es: seq<Action>, more: seq<Action>)
    ensures RunFrom(Run(es), more) == Run(es + more)
  {
    hide Step;
    if more == [] {
      assert es + more == es;
    } else {
      var n := |more| - 1;
      RunConcat(es, more[..n]);
      assert (es + more)[..|es + more| - 1] == es + more[..n];
    }
  }

  /** No override, and a step that acts on the order has seen that it is cancelled. */
  predicate Respects(s: State, a: Action, order: nat) {
    match a
    case Override(o, _) => o != order
    case MoveOrder(o, seen, _) => o == order ==> seen == Cancelled
    case Enqueue(o, seen) => o == order ==> seen == Cancelled
    case AdminRetry(o, seen) => o == order ==> seen == Cancelled
    case MarkDispatched(o, seen, _, _, _) => o == order ==> seen == Cancelled
    case CancelOrder(o, seen) => o == order ==> seen == Cancelled
    case Reschedule(o, seen, _, _, _, _) => o == order ==> seen == Cancelled
    case Settle(k, seen) => IsWorking(s, k) && OrderOf(s, k) == order ==> seen == Cancelled
    case Persist(k, seen, _) => IsWorking(s, k) && OrderOf(s, k) == order ==> seen == Cancelled
    case _ => true
  }

  /**
   Once an order is cancelled, in any state and whatever follows, the carrier makes it no further waybill, and it
   stays cancelled, unless an operator overrides its status or someone acts on what it was before.
   */
  lemma {:induction false} CancelledOrderIsNotShipped(s: State, es: seq<Action>, order: nat)
    requires order < |s.orders| && s.orders[order].status == Cancelled
    requires forall i :: 0 <= i < |es| ==> Respects(RunFrom(s, es[..i]), es[i], order)
    ensures order < |RunFrom(s, es).orders|
    ensures RunFrom(s, es).orders[order].status == Cancelled && RunFrom(s, es).orders[order].live <= s.orders[order].live
  {
    hide Step;
    hide Respects;
    if es != [] {
      var n := |es| - 1;
      forall i | 0 <= i < n
        ensures Respects(RunFrom(s, es[..n][..i]), es[..n][i], order)
      {
        assert es[..n][..i] == es[..i];
      }
      CancelledOrderIsNotShipped(s, es[..n], order);
      assert Respects(RunFrom(s, es[..n]), es[n], order);
      StepShipsNothing(RunFrom(s, es[..n]), es[n], order);
    }
  }

  lemma WorkerShipsNothing(s: State, k: nat, outcome: Outcome, made: set<nat>, seen: Status, committed: bool, order: nat)
    requires order < |s.orders| && s.orders[order].status == Cancelled
    requires Respects(s, Settle(k, seen), order)
    ensures Asked(s, k, outcome, made).orders[order] == s.orders[order]
    ensures Settled(s, k, seen).orders[order] == s.orders[order]
    ensures var q := Persisted(s, k, seen, committed).orders[order];
            q.status == Cancelled && q.live == s.orders[order].live
  {
    hide Returned;
    hide Moved;
  }

  lemma RetryShipsNothing(s: State, o: nat, seen: Status, order: nat)
    requires order < |s.orders| && s.orders[order].status == Cancelled && (o == order ==> seen == Cancelled)
    ensures |Retried(s, o, seen).orders| == |s.orders| && Retried(s, o, seen).orders[order] == s.orders[order]
  {
    hide LatestJob;
    hide Claimed;
  }

  lemma StepShipsNothing(s: State, a: Action, order: nat)
    requires order < |s.orders| && s.orders[order].status == Cancelled && Respects(s, a, order)
    ensures order < |Step(s, a).orders|
    ensures Step(s, a).orders[order].status == Cancelled && Step(s, a).orders[order].live <= s.orders[order].live
  {
    hide CancelJobs;
    hide Retried;
    hide Claimed;
    hide Taken;
    hide Asked;
    hide Settled;
    hide Persisted;
    CancelledHasNoWayOut();
    hide CanTransition;
    match a
    case AdminRetry(o, seen) => RetryShipsNothing(s, o, seen, order);
    case Ask(k, outcome, made) => WorkerShipsNothing(s, k, outcome, made, Cancelled, false, order);
    case Settle(k, seen) => WorkerShipsNothing(s, k, Died, {}, seen, false, order);
    case Persist(k, seen, committed) => WorkerShipsNothing(s, k, Died, {}, seen, committed, order);
    case _ =>
  }

  lemma CancelledHasNoWayOut()
    ensures forall next :: !CanTransition(Cancelled, next)
  {
  }
}
