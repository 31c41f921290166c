/**
 The order status graph of `backend/app/common/status_machine.py`, and the status sets of the
 cancellation service.  The source keeps statuses as strings; every string it does not list is
 `Unlisted` here, with no way in and no way out.
 */
module OrderStatus {

  datatype Status =
    | Draft | ShipmentDetailsCompleted | ReadyForCheckout
    | AwaitingPayment | PaymentUnderReview | PaymentRejected
    | Paid
    | DispatchQueued | DispatchFailed | PendingManual | PendingManualDispatch | SentToCarrier
    | PickedUp | InTransit | OutForDelivery | DeliveryFailed | CustomsHold | Arrived
    | Delivered
    | ReturnRequested | ReturnInProgress
    | Returned | Cancelled
    | Unlisted(code: string)

  /** `can_transition`: is `next` in the list of `ALLOWED_ORDER_TRANSITIONS` for `current`? */
  predicate CanTransition(current: Status, next: Status) {
    match current
    case Draft => next in {ShipmentDetailsCompleted, Cancelled}
    case ShipmentDetailsCompleted => next in {ReadyForCheckout, Cancelled}
    case ReadyForCheckout => next in {AwaitingPayment, Cancelled}
    case AwaitingPayment => next in {PaymentUnderReview, Cancelled}
    case PaymentUnderReview => next in {Paid, PaymentRejected, Cancelled}
    case Paid => next in {DispatchQueued, Cancelled}
    case DispatchQueued => next in {SentToCarrier, DispatchFailed, Cancelled}
    case SentToCarrier =>
      next in {PickedUp, OutForDelivery, InTransit, Arrived, Delivered, ReturnRequested, DeliveryFailed,
               CustomsHold, Cancelled, DispatchQueued}
    case PickedUp => next in {OutForDelivery, InTransit, Delivered, ReturnRequested, DeliveryFailed, CustomsHold}
    case InTransit => next in {Arrived, OutForDelivery, Delivered, ReturnRequested, DeliveryFailed, CustomsHold}
    case OutForDelivery => next in {Delivered, ReturnRequested, DeliveryFailed}
    case DeliveryFailed => next in {OutForDelivery, InTransit, ReturnRequested, Delivered}
    case CustomsHold => next in {InTransit, Delivered, ReturnRequested}
    case Arrived => next in {OutForDelivery, Delivered, ReturnRequested}
    case Delivered => next in {ReturnRequested}
    case ReturnRequested => next in {ReturnInProgress, Cancelled}
    case ReturnInProgress => next in {Returned}
    case Returned => false
    case Cancelled => false
    case PaymentRejected => next in {AwaitingPayment, PaymentUnderReview, Cancelled}
    case DispatchFailed => next in {DispatchQueued, Cancelled}
    case PendingManualDispatch => next in {DispatchQueued, DispatchFailed, Cancelled}
    case PendingManual => next in {DispatchQueued, DispatchFailed, Cancelled}
    case Unlisted(_) => false
  }

  /** The same graph backwards: from which statuses each one is entered. */
  lemma EnteredFrom(s: Status)
    ensures CanTransition(s, ShipmentDetailsCompleted) <==> s == Draft
    ensures CanTransition(s, ReadyForCheckout) <==> s == ShipmentDetailsCompleted
    ensures CanTransition(s, AwaitingPayment) <==> s in {ReadyForCheckout, PaymentRejected}
    ensures CanTransition(s, PaymentUnderReview) <==> s in {AwaitingPayment, PaymentRejected}
    ensures CanTransition(s, PaymentRejected) <==> s == PaymentUnderReview
    ensures CanTransition(s, Paid) <==> s == PaymentUnderReview
    ensures CanTransition(s, DispatchQueued)
            <==> s in {Paid, SentToCarrier, DispatchFailed, PendingManual, PendingManualDispatch}
    ensures CanTransition(s, DispatchFailed) <==> s in {DispatchQueued, PendingManual, PendingManualDispatch}
    ensures CanTransition(s, SentToCarrier) <==> s == DispatchQueued
    ensures CanTransition(s, PickedUp) <==> s == SentToCarrier
    ensures CanTransition(s, InTransit) <==> s in {SentToCarrier, PickedUp, DeliveryFailed, CustomsHold}
    ensures CanTransition(s, OutForDelivery) <==> s in {SentToCarrier, PickedUp, InTransit, DeliveryFailed, Arrived}
    ensures CanTransition(s, Arrived) <==> s in {SentToCarrier, InTransit}
    ensures CanTransition(s, DeliveryFailed) <==> s in {SentToCarrier, PickedUp, InTransit, OutForDelivery}
    ensures CanTransition(s, CustomsHold) <==> s in {SentToCarrier, PickedUp, InTransit}
    ensures CanTransition(s, Delivered)
            <==> s in {SentToCarrier, PickedUp, InTransit, OutForDelivery, DeliveryFailed, CustomsHold, Arrived}
    ensures CanTransition(s, ReturnRequested)
            <==> s in {SentToCarrier, PickedUp, InTransit, OutForDelivery, DeliveryFailed, CustomsHold, Arrived, Delivered}
    ensures CanTransition(s, ReturnInProgress) <==> s == ReturnRequested
    ensures CanTransition(s, Returned) <==> s == ReturnInProgress
    ensures CanTransition(s, Cancelled)
            <==> s in {Draft, ShipmentDetailsCompleted, ReadyForCheckout, AwaitingPayment, PaymentUnderReview,
                       PaymentRejected, Paid, DispatchQueued, DispatchFailed, PendingManual, PendingManualDispatch,
                       SentToCarrier, ReturnRequested}
    ensures !CanTransition(s, Draft)
  {
  }

  // ---- status sets of the cancellation service ----

  predicate Cancellable(s: Status) {
    s in {Paid, DispatchQueued, DispatchFailed, PendingManual, PendingManualDispatch, SentToCarrier}
  }

  predicate UnpaidCancellable(s: Status) {
    s in {ShipmentDetailsCompleted, ReadyForCheckout, AwaitingPayment, PaymentRejected}
  }

  predicate ApiAllowed(s: Status) {
    s in {Paid, SentToCarrier}
  }

  // ---- phases ----

  const UNPAID: nat := 0
  const PAID: nat := 1
  const DISPATCH: nat := 2
  const TRANSIT: nat := 3
  const DELIVERED: nat := 4
  const RETURN: nat := 5
  const END: nat := 6

  /** The stage of an order's life; the graph has cycles, but only inside one stage. */
  function Phase(s: Status): nat {
    match s
    case Draft | ShipmentDetailsCompleted | ReadyForCheckout => UNPAID
    case AwaitingPayment | PaymentUnderReview | PaymentRejected => UNPAID
    case Paid => PAID
    case DispatchQueued | DispatchFailed | PendingManual | PendingManualDispatch | SentToCarrier => DISPATCH
    case PickedUp | InTransit | OutForDelivery | DeliveryFailed | CustomsHold | Arrived => TRANSIT
    case Delivered => DELIVERED
    case ReturnRequested | ReturnInProgress => RETURN
    case Returned | Cancelled | Unlisted(_) => END
  }

  lemma StepKeepsPhase(a: Status, b: Status)
    requires CanTransition(a, b)
    ensures Phase(a) <= Phase(b)
    ensures Phase(a) == UNPAID && Phase(b) != UNPAID ==> b in {Paid, Cancelled}
    ensures a !in {Cancelled, Returned}
  {
  }

  // ---- runs of any length ----

  ghost predicate GraphRun(p: seq<Status>) {
    |p| > 0 && forall i :: 0 <= i < |p| - 1 ==> CanTransition(p[i], p[i + 1])
  }

  lemma {:induction false} PhaseNeverFalls(p: seq<Status>, i: nat, j: nat)
    requires GraphRun(p) && i <= j < |p|
    ensures Phase(p[i]) <= Phase(p[j])
    decreases j
  {
    if i < j {
      PhaseNeverFalls(p, i, j - 1);
      assert CanTransition(p[j - 1], p[j - 1 + 1]);
      StepKeepsPhase(p[j - 1], p[j]);
    }
  }

  /** Money gate: past the unpaid stage, other than by cancelling, only through `paid`. */
  lemma {:induction false} OnlyThroughPaid(p: seq<Status>, j: nat)
    requires GraphRun(p) && j < |p|
    requires Phase(p[0]) == UNPAID
    requires Phase(p[j]) != UNPAID && p[j] != Cancelled
    ensures exists i :: 0 < i <= j && p[i] == Paid
    decreases j
  {
    assert j > 0;
    assert CanTransition(p[j - 1], p[j - 1 + 1]);
    StepKeepsPhase(p[j - 1], p[j]);
    if Phase(p[j - 1]) != UNPAID {
      OnlyThroughPaid(p, j - 1);
    } else {
      assert p[j] == Paid;
    }
  }

  /** `cancelled` and `returned` end a run: nothing follows them. */
  lemma TerminalIsLast(p: seq<Status>, i: nat)
    requires GraphRun(p) && i < |p|
    requires p[i] in {Cancelled, Returned}
    ensures i == |p| - 1
  {
    forall k | 0 <= k < |p| - 1
      ensures p[k] !in {Cancelled, Returned}
    {
      StepKeepsPhase(p[k], p[k + 1]);
    }
  }

  lemma {:induction false} PaidOnlyOnce(p: seq<Status>, i: nat, j: nat)
    requires GraphRun(p) && i < j < |p|
    requires p[i] == Paid
    ensures p[j] != Paid
  {
    assert CanTransition(p[i], p[i + 1]);
    PhaseNeverFalls(p, i + 1, j);
  }

  ghost predicate Reaches(a: Status, b: Status) {
    exists p :: GraphRun(p) && p[0] == a && p[|p| - 1] == b
  }

  lemma ReachMore(a: Status, b: Status, c: Status)
    requires Reaches(a, b) && CanTransition(b, c)
    ensures Reaches(a, c)
  {
    var p :| GraphRun(p) && p[0] == a && p[|p| - 1] == b;
    var q := p + [c];
    forall i | 0 <= i < |q| - 1
      ensures CanTransition(q[i], q[i + 1])
    {
      if i < |p| - 1 {
        assert CanTransition(p[i], p[i + 1]);
      }
    }
    assert GraphRun(q) && q[0] == a && q[|q| - 1] == c;
  }

  lemma DraftReachesCarrier()
    ensures Reaches(Draft, Draft) && Reaches(Draft, PaymentUnderReview)
    ensures Reaches(Draft, Paid) && Reaches(Draft, DispatchQueued) && Reaches(Draft, SentToCarrier)
    ensures Reaches(Draft, ShipmentDetailsCompleted) && Reaches(Draft, ReadyForCheckout)
    ensures Reaches(Draft, AwaitingPayment)
  {
    var p := [Draft];
    assert GraphRun(p) && p[0] == Draft && p[|p| - 1] == Draft;
    ReachMore(Draft, Draft, ShipmentDetailsCompleted);
    ReachMore(Draft, ShipmentDetailsCompleted, ReadyForCheckout);
    ReachMore(Draft, ReadyForCheckout, AwaitingPayment);
    ReachMore(Draft, AwaitingPayment, PaymentUnderReview);
    ReachMore(Draft, PaymentUnderReview, Paid);
    ReachMore(Draft, Paid, DispatchQueued);
    ReachMore(Draft, DispatchQueued, SentToCarrier);
  }

  lemma DraftReachesListed(t: Status)
    requires t != PendingManual && t != PendingManualDispatch && !t.Unlisted?
    ensures Reaches(Draft, t)
  {
    DraftReachesCarrier();
    match t
    case PaymentRejected => ReachMore(Draft, PaymentUnderReview, t);
    case DispatchFailed => ReachMore(Draft, DispatchQueued, t);
    case Cancelled => ReachMore(Draft, Draft, t);
    case ReturnInProgress | Returned =>
      ReachMore(Draft, SentToCarrier, ReturnRequested);
      ReachMore(Draft, ReturnRequested, ReturnInProgress);
      ReachMore(Draft, ReturnInProgress, Returned);
    case PickedUp | InTransit | OutForDelivery | DeliveryFailed | CustomsHold | Arrived
         | Delivered | ReturnRequested =>
      ReachMore(Draft, SentToCarrier, t);
    case _ =>
  }

  lemma NothingEntersManualQueues(a: Status, b: Status)
    requires CanTransition(a, b)
    ensures b != PendingManual && b != PendingManualDispatch && !b.Unlisted?
  {
  }

  /**
   What a new order can ever become along the graph: everything listed except the two manual
   queues, which the graph leaves but never enters.
   */
  lemma ReachableFromDraft(t: Status)
    ensures Reaches(Draft, t) <==> t != PendingManual && t != PendingManualDispatch && !t.Unlisted?
  {
    if t != PendingManual && t != PendingManualDispatch && !t.Unlisted? {
      DraftReachesListed(t);
    } else if Reaches(Draft, t) {
      var p :| GraphRun(p) && p[0] == Draft && p[|p| - 1] == t;
      var n := |p| - 2;
      if n >= 0 {
        NothingEntersManualQueues(p[n], p[n + 1]);
      }
    }
  }

  /** Once picked up, an order never comes back to the dispatch stage. */
  lemma NoWayBackToDispatch(p: seq<Status>, i: nat, j: nat)
    requires GraphRun(p) && i <= j < |p|
    requires p[i] == PickedUp
    ensures Phase(p[j]) >= TRANSIT
  {
    PhaseNeverFalls(p, i, j);
  }
}
