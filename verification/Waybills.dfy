/**
 What becomes of the waybills in the runs of `DispatchStream`: which steps leave a live waybill that we neither
 store nor flag, and which bring it back on our books or take it off the carrier's.
 */
module Waybills {
  import opened Prelude
  import opened OrderStatus
  import opened Store
  import opened DispatchStream

  /** The carrier will collect on it, and no operator has been told of it. */
  predicate Unflagged(s: State, order: nat, w: nat) {
    order < |s.orders| && w in s.orders[order].live && w !in s.orders[order].flagged
  }

  predicate OffBooks(s: State, order: nat, w: nat) {
    Unflagged(s, order, w) && s.orders[order].stored != Some(w)
  }

  // ---- the steps that lose and recover a waybill ----

  /** The worker is about to ask the carrier about this order. */
  predicate AsksFor(s: State, k: nat, order: nat) {
    && IsWorking(s, k) && s.working[k].stage.Asking? && OrderOf(s, k) == order
    && Asks(s.orders[order])
  }

  /** The number, if any, that the worker's second commit writes on the order. */
  function WrittenBy(s: State, k: nat, order: nat): Option<nat> {
    if IsWorking(s, k) && OrderOf(s, k) == order && s.working[k].stage.Persisting? then s.working[k].stage.number else None
  }

  /** What a rescheduling leaves flagged. */
  function FlagsAfter(p: Parcel, number: nat, flags: set<nat>, answer: Answer): set<nat> {
    if answer.Raised? then flags + {number} else p.flagged
  }

  /** The step leaves waybill `w` of the order live, unflagged and not stored, whatever it was before. */
  predicate Loses(s: State, a: Action, order: nat, w: nat) {
    && order < |s.orders|
    && var p := s.orders[order];
       match a
       // The carrier made it, and its number is not the answer that was committed.
       case Ask(k, outcome, made) =>
         AsksFor(s, k, order) && w in made && w !in p.flagged && outcome != Recorded(Some(w))
       // A late bookkeeping writes another number over it.
       case Persist(k, _, committed) =>
         committed && p.stored == Some(w) && Unflagged(s, order, w)
         && WrittenBy(s, k, order).Some? && WrittenBy(s, k, order) != Some(w)
       // The stored number goes, or stale flags are written over its own, and the carrier did not drop it.
       case Reschedule(o, seen, number, flags, answer, dropped) =>
         o == order && Reschedulable(s, order, seen) && number.Some?
         && (p.stored == Some(w) || w in p.flagged) && w in p.live
         && w !in FlagsAfter(p, number.value, flags, answer) && !(dropped && number == Some(w))
       // Made by hand, or stored before, and not the number now stored.
       case MarkDispatched(o, seen, hasShipment, number, made) =>
         o == order && Dispatchable(s, order, seen) && w !in p.flagged
         && (w in made || (w in p.live && p.stored == Some(w)))
         && (if hasShipment then number else p.stored) != Some(w)
       // An operator clears its flag while it is live.
       case ResolveOrphans(o, gone) =>
         o == order && w in p.flagged && w in p.live && w !in gone && p.stored != Some(w)
       case _ => false
  }

  /** The step stores the number of waybill `w` or flags it, or the carrier drops it. */
  predicate Recovers(s: State, a: Action, order: nat, w: nat) {
    && order < |s.orders|
    && match a
       case Ask(k, outcome, _) => AsksFor(s, k, order) && outcome == Recorded(Some(w))
       case Persist(k, _, committed) => committed && WrittenBy(s, k, order) == Some(w)
       case Reschedule(o, seen, number, flags, answer, dropped) =>
         o == order && Reschedulable(s, order, seen) && number.Some?
         && ((answer.Raised? && w in FlagsAfter(s.orders[order], number.value, flags, answer))
             || (dropped && number == Some(w)))
       case MarkDispatched(o, seen, hasShipment, number, _) =>
         o == order && Dispatchable(s, order, seen) && hasShipment && number == Some(w)
       case ResolveOrphans(o, gone) => o == order && w in gone
       case CarrierDrops(o, gone) => o == order && w in gone
       case _ => false
  }

  predicate Accounts(s: State, a: Action, order: nat, w: nat) {
    OffBooks(Step(s, a), order, w) <==> (OffBooks(s, order, w) && !Recovers(s, a, order, w)) || Loses(s, a, order, w)
  }

  lemma AskAccounts(s: State, k: nat, outcome: Outcome, made: set<nat>, order: nat, w: nat)
    ensures Accounts(s, Ask(k, outcome, made), order, w)
  {
  }

  lemma PersistAccounts(s: State, k: nat, seen: Status, committed: bool, order: nat, w: nat)
    ensures Accounts(s, Persist(k, seen, committed), order, w)
  {
  }

  lemma RescheduleAccounts(s: State, a: Action, order: nat, w: nat)
    requires a.Reschedule?
    ensures Accounts(s, a, order, w)
  {
    hide CanTransition;
  }

  lemma MarkAccounts(s: State, a: Action, order: nat, w: nat)
    requires a.MarkDispatched?
    ensures Accounts(s, a, order, w)
  {
    hide CanTransition;
  }

  /** What the order's waybills depend on is the same, or the order is new and has none. */
  lemma OthersLeaveWaybills(s: State, a: Action, order: nat)
    requires !a.Ask? && !a.Persist? && !a.Reschedule? && !a.MarkDispatched? && !a.ResolveOrphans? && !a.CarrierDrops?
    ensures |s.orders| <= |Step(s, a).orders|
    ensures order < |s.orders| ==>
              var p, q := s.orders[order], Step(s, a).orders[order];
              q.stored == p.stored && q.flagged == p.flagged && q.live == p.live
    ensures |s.orders| <= order < |Step(s, a).orders| ==> Step(s, a).orders[order].live == {}
  {
    hide Claimed;
    hide CancelJobs;
    hide LatestJob;
    hide CanTransition;
  }

  lemma StepAccounts(s: State, a: Action, order: nat, w: nat)
    ensures Accounts(s, a, order, w)
  {
    match a
    case Ask(k, outcome, made) => AskAccounts(s, k, outcome, made, order, w);
    case Persist(k, seen, committed) => PersistAccounts(s, k, seen, committed, order, w);
    case Reschedule(_, _, _, _, _, _) => RescheduleAccounts(s, a, order, w);
    case MarkDispatched(_, _, _, _, _) => MarkAccounts(s, a, order, w);
    case ResolveOrphans(_, _) =>
    case CarrierDrops(_, _) =>
    case _ =>
      hide Step;
      OthersLeaveWaybills(s, a, order);
  }

  // ---- over whole runs ----

  predicate LosesAt(es: seq<Action>, i: nat, order: nat, w: nat) {
    i < |es| && Loses(Run(es[..i]), es[i], order, w)
  }

  predicate RecoversAt(es: seq<Action>, i: nat, order: nat, w: nat) {
    i < |es| && Recovers(Run(es[..i]), es[i], order, w)
  }

  /** Some step lost the waybill, and none since has recovered it. */
  ghost predicate Lost(es: seq<Action>, order: nat, w: nat) {
    exists i: nat :: LosesAt(es, i, order, w) && NotRecoveredSince(es, i, order, w)
  }

  ghost predicate NotRecoveredSince(es: seq<Action>, i: nat, order: nat, w: nat) {
    forall k: nat :: i < k < |es| ==> !RecoversAt(es, k, order, w)
  }

  lemma EarlierSteps(es: seq<Action>, i: nat, order: nat, w: nat)
    requires 0 < |es| && i < |es| - 1
    ensures LosesAt(es, i, order, w) == LosesAt(es[..|es| - 1], i, order, w)
    ensures RecoversAt(es, i, order, w) == RecoversAt(es[..|es| - 1], i, order, w)
  {
    assert es[..|es| - 1][..i] == es[..i];
    hide Loses;
    hide Recovers;
    hide Run;
  }

  /** A run's lost waybills are those of the run before its last step, less what that recovers, and what it loses. */
  lemma LostByLast(es: seq<Action>, order: nat, w: nat)
    requires es != []
    ensures var n: nat := |es| - 1;
            Lost(es, order, w) <==> (Lost(es[..n], order, w) && !RecoversAt(es, n, order, w)) || LosesAt(es, n, order, w)
  {
    hide LosesAt;
    hide RecoversAt;
    var n: nat := |es| - 1;
    forall i: nat | i < n
      ensures LosesAt(es, i, order, w) == LosesAt(es[..n], i, order, w)
      ensures RecoversAt(es, i, order, w) == RecoversAt(es[..n], i, order, w)
    {
      EarlierSteps(es, i, order, w);
    }
    if LosesAt(es, n, order, w) {
      assert NotRecoveredSince(es, n, order, w);
    }
    if Lost(es, order, w) && !LosesAt(es, n, order, w) {
      var i: nat :| LosesAt(es, i, order, w) && NotRecoveredSince(es, i, order, w);
      LosesWithin(es, i, order, w);
      assert NotRecoveredSince(es[..n], i, order, w);
    }
    if Lost(es[..n], order, w) && !RecoversAt(es, n, order, w) {
      var i: nat :| LosesAt(es[..n], i, order, w) && NotRecoveredSince(es[..n], i, order, w);
      LosesWithin(es[..n], i, order, w);
      assert NotRecoveredSince(es, i, order, w);
    }
  }

  lemma LosesWithin(es: seq<Action>, i: nat, order: nat, w: nat)
    requires LosesAt(es, i, order, w)
    ensures i < |es|
  {
    hide Loses;
  }

  /**
   Every run accounts for every waybill: it is live, unflagged and not the stored one exactly if a step lost it
   and none since has recovered it.
   */
  lemma {:induction false} WaybillsAddUp(es: seq<Action>, order: nat, w: nat)
    ensures OffBooks(Run(es), order, w) <==> Lost(es, order, w)
  {
    hide Step;
    hide Loses;
    hide Recovers;
    if es == [] {
      assert !Lost(es, order, w);
    } else {
      var n := |es| - 1;
      WaybillsAddUp(es[..n], order, w);
      StepAccounts(Run(es[..n]), es[n], order, w);
      LostByLast(es, order, w);
    }
  }

  /** The carrier would collect twice, and no operator has been told. */
  predicate CollectsTwice(s: State, order: nat, v: nat, w: nat) {
    v != w && Unflagged(s, order, v) && Unflagged(s, order, w)
  }

  /** More than one live waybill of an order is unflagged exactly if one was lost for good and another is unflagged. */
  lemma SecondWaybillIffLost(es: seq<Action>, order: nat)
    ensures (exists v, w :: CollectsTwice(Run(es), order, v, w))
       <==> (exists v, w :: Lost(es, order, v) && w != v && Unflagged(Run(es), order, w))
  {
    forall v, w | CollectsTwice(Run(es), order, v, w)
      ensures exists x, y :: Lost(es, order, x) && y != x && Unflagged(Run(es), order, y)
    {
      WaybillsAddUp(es, order, v);
      WaybillsAddUp(es, order, w);
      assert Lost(es, order, v) || Lost(es, order, w);
    }
    forall v, w | Lost(es, order, v) && w != v && Unflagged(Run(es), order, w)
      ensures exists x, y :: CollectsTwice(Run(es), order, x, y)
    {
      WaybillsAddUp(es, order, v);
      assert CollectsTwice(Run(es), order, v, w);
    }
  }

  // ---- runs that double a waybill, and one that recovers it ----

  lemma Next(es: seq<Action>, a: Action)
    ensures Run(es + [a]) == Step(Run(es), a)
  {
    assert (es + [a])[..|es|] == es;
  }

  /** A paid order, and its dispatch job in a worker's hands. */
  const CLAIMED: seq<Action> := [Place(Paid)] + [Enqueue(0, Paid)] + [Poll(0)]

  const IN_HAND: State := State(
    [Parcel(DispatchQueued, None, {}, {})], [QueuedJob(0, Processing, 1)], [], 0, map[], {},
    map[0 := Work(0, None, Asking)], [Start(0, 1)])

  /** The carrier has two waybills, and we know of one. */
  const DOUBLED: Parcel := Parcel(SentToCarrier, Some(2), {}, {1, 2})

  lemma ReachesHand()
    ensures Run(CLAIMED) == IN_HAND
  {
    assert [] + [Place(Paid)] == [Place(Paid)] && Run([]) == EMPTY;
    Next([], Place(Paid));
    Next([Place(Paid)], Enqueue(0, Paid));
    Next([Place(Paid)] + [Enqueue(0, Paid)], Poll(0));
    hide Run;
    var s2 := Step(Step(EMPTY, Place(Paid)), Enqueue(0, Paid));
    assert s2.jobs == [QueuedJob(0, Queued, 1)];
    assert Step(s2, Poll(0)).jobs == [QueuedJob(0, Processing, 1)];
  }

  /** The connection breaks after the carrier accepted, and the client posts once more. */
  lemma RepeatedPostDoublesWaybill()
    ensures Run(CLAIMED + [Ask(0, Recorded(Some(2)), {1, 2})]).orders == [DOUBLED]
  {
    ReachesHand();
    Next(CLAIMED, Ask(0, Recorded(Some(2)), {1, 2}));
    hide Run;
    assert Carried(IN_HAND.orders[0], Recorded(Some(2)), {1, 2}).live == {1, 2};
  }

  const DIED: Action := Ask(0, Died, {1})

  lemma AfterDeath()
    ensures var s := Step(IN_HAND, DIED);
            && s.orders == [Parcel(DispatchQueued, None, {}, {1})] && s.jobs == [QueuedJob(0, Processing, 1)]
            && s.working == map[] && s.starts == [Start(0, 1)]
  {
    assert Carried(IN_HAND.orders[0], Died, {1}).live == {1};
  }

  const SECOND: Action := Ask(1, Recorded(Some(2)), {2})

  /**
   The worker dies between the carrier's answer and its commit.  Its job stays in progress, so an operator's
   retry makes a new job, and the carrier a second waybill.
   */
  lemma DeathDoublesWaybill()
    ensures Run(CLAIMED + [DIED] + [AdminRetry(0, DispatchQueued)] + [SECOND]).orders == [DOUBLED]
  {
    ReachesHand();
    Next(CLAIMED, DIED);
    Next(CLAIMED + [DIED], AdminRetry(0, DispatchQueued));
    Next(CLAIMED + [DIED] + [AdminRetry(0, DispatchQueued)], SECOND);
    hide Run;
    AfterDeath();
    var s := Step(IN_HAND, DIED);
    assert LatestJob(s.jobs, 0) == Some(0);
    var retried := Step(s, AdminRetry(0, DispatchQueued));
    assert retried.jobs == [QueuedJob(0, Processing, 1), QueuedJob(0, Processing, 1)];
    SecondInHand(retried);
  }

  /** An operator who learns of the lost waybill and types its number puts it back on the books. */
  lemma TypedNumberRecovers()
    ensures Run(CLAIMED + [DIED] + [MarkDispatched(0, DispatchQueued, true, Some(1), {})]).orders
         == [Parcel(SentToCarrier, Some(1), {}, {1})]
  {
    ReachesHand();
    Next(CLAIMED, DIED);
    Next(CLAIMED + [DIED], MarkDispatched(0, DispatchQueued, true, Some(1), {}));
    hide Run;
    AfterDeath();
    assert {1} + {} == {1};
  }

  const SENT: Action := Ask(0, Recorded(Some(1)), {1})

  /**
   An operator marks the order as dispatched while the worker's call holds its row: the write waits for the
   worker's commit, and the typed number then replaces the one just stored.
   */
  lemma StaleMarkDoublesWaybill()
    ensures Run(CLAIMED + [SENT] + [MarkDispatched(0, DispatchQueued, true, Some(2), {2})]).orders == [DOUBLED]
  {
    ReachesHand();
    Next(CLAIMED, SENT);
    Next(CLAIMED + [SENT], MarkDispatched(0, DispatchQueued, true, Some(2), {2}));
    hide Run;
    assert Carried(IN_HAND.orders[0], Recorded(Some(1)), {1}).live == {1} && {1} + {2} == {1, 2};
  }

  const DECLINED: Action := Reschedule(0, SentToCarrier, Some(1), {}, Declined, false)

  /**
   The customer moves the pickup, and the carrier declines to cancel the old waybill without an exception:
   nothing is flagged, and the next dispatch makes a second one.
   */
  lemma RefusedRescheduleDoublesWaybill()
    ensures Run(CLAIMED + [SENT] + [DECLINED] + [Poll(1)] + [SECOND]).orders == [DOUBLED]
  {
    ReachesHand();
    Next(CLAIMED, SENT);
    Next(CLAIMED + [SENT], DECLINED);
    Next(CLAIMED + [SENT] + [DECLINED], Poll(1));
    Next(CLAIMED + [SENT] + [DECLINED] + [Poll(1)], SECOND);
    hide Run;
    AfterRefusal(Step(IN_HAND, SENT));
  }

  lemma AfterRefusal(s: State)
    requires s == Step(IN_HAND, SENT)
    ensures Step(Step(Step(s, DECLINED), Poll(1)), SECOND).orders == [DOUBLED]
  {
    assert Carried(IN_HAND.orders[0], Recorded(Some(1)), {1}).live == {1};
    assert s.jobs == [QueuedJob(0, Completed, 1)] && s.orders == [Parcel(SentToCarrier, Some(1), {}, {1})];
    var moved := Step(s, DECLINED);
    assert moved.jobs == [QueuedJob(0, Completed, 1), QueuedJob(0, Queued, 1)];
    assert Untracked(s.orders[0], 1, {}, Declined, false) == Parcel(SentToCarrier, None, {}, {1});
    assert moved.orders == [Parcel(DispatchQueued, None, {}, {1})];
    var polled := Step(moved, Poll(1));
    SecondInHand(polled);
  }

  lemma SecondInHand(s: State)
    requires 1 in s.working && s.working[1] == Work(1, None, Asking) && |s.jobs| == 2 && s.jobs[1] == QueuedJob(0, Processing, 1)
    requires s.orders == [Parcel(DispatchQueued, None, {}, {1})]
    ensures Step(s, SECOND).orders == [DOUBLED]
  {
    assert {1} + {2} == {1, 2};
  }

  const UNSAVED: Action := Ask(0, Unsaved(Some(2)), {2})
  const AGAIN: Action := Ask(1, Recorded(Some(1)), {1})

  /**
   An operator retries between the two commits of the bookkeeping for an unsaved answer: the carrier makes a
   second waybill, and the late second commit writes the first number over it.
   */
  lemma LateBookkeepingDoublesWaybill()
    ensures Run(CLAIMED + [UNSAVED] + [Settle(0, DispatchQueued)] + [AdminRetry(0, DispatchQueued)] + [AGAIN] + [Persist(0, SentToCarrier, true)]).orders == [DOUBLED]
  {
    ReachesHand();
    Next(CLAIMED, UNSAVED);
    Next(CLAIMED + [UNSAVED], Settle(0, DispatchQueued));
    Next(CLAIMED + [UNSAVED] + [Settle(0, DispatchQueued)], AdminRetry(0, DispatchQueued));
    Next(CLAIMED + [UNSAVED] + [Settle(0, DispatchQueued)] + [AdminRetry(0, DispatchQueued)], AGAIN);
    Next(CLAIMED + [UNSAVED] + [Settle(0, DispatchQueued)] + [AdminRetry(0, DispatchQueued)] + [AGAIN], Persist(0, SentToCarrier, true));
    hide Run;
    HalfSaved(Step(Step(IN_HAND, UNSAVED), Settle(0, DispatchQueued)));
  }

  lemma HalfSaved(s: State)
    requires s == Step(Step(IN_HAND, UNSAVED), Settle(0, DispatchQueued))
    ensures Step(Step(Step(s, AdminRetry(0, DispatchQueued)), AGAIN), Persist(0, SentToCarrier, true)).orders == [DOUBLED]
  {
    assert Carried(IN_HAND.orders[0], UNSAVED.outcome, {2}).live == {2};
    assert Step(IN_HAND, UNSAVED).working == map[0 := Work(0, None, Saving(Some(2)))];
    assert s.jobs == [QueuedJob(0, Failed, 1)] && s.orders == [Parcel(DispatchQueued, None, {}, {2})];
    assert s.working == map[0 := Work(0, None, Persisting(Some(2)))] && |s.starts| == 1;
    AgainInHand(s);
  }

  lemma AgainInHand(s: State)
    requires s.jobs == [QueuedJob(0, Failed, 1)] && s.orders == [Parcel(DispatchQueued, None, {}, {2})]
    requires s.working == map[0 := Work(0, None, Persisting(Some(2)))] && |s.starts| == 1
    ensures Step(Step(Step(s, AdminRetry(0, DispatchQueued)), AGAIN), Persist(0, SentToCarrier, true)).orders == [DOUBLED]
  {
    assert LatestJob(s.jobs, 0) == Some(0);
    var retried := Step(s, AdminRetry(0, DispatchQueued));
    assert retried.jobs == [QueuedJob(0, Processing, 2)] && retried.orders == s.orders;
    assert retried.working == map[0 := Work(0, None, Persisting(Some(2))), 1 := Work(0, None, Asking)];
    LateWrite(retried);
  }

  lemma LateWrite(s: State)
    requires s.jobs == [QueuedJob(0, Processing, 2)] && s.orders == [Parcel(DispatchQueued, None, {}, {2})]
    requires s.working == map[0 := Work(0, None, Persisting(Some(2))), 1 := Work(0, None, Asking)]
    ensures Step(Step(s, AGAIN), Persist(0, SentToCarrier, true)).orders == [DOUBLED]
  {
    var again := Step(s, AGAIN);
    assert {2} + {1} == {1, 2} && again.orders == [Parcel(SentToCarrier, Some(1), {}, {1, 2})];
    assert again.working == map[0 := Work(0, None, Persisting(Some(2)))];
  }
}
