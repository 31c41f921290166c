/** Carrier webhooks may be delivered any number of times. */
module WebhookLaws {
  import opened Prelude
  import opened OrderStatus
  import opened Store
  import opened World
  import Cancellations
  import Commissions
  import W = Writers

  predicate IsRepeat(t: Tables, e: Event) {
    e.CarrierPosts? && (e.carrier, e.msg.eventId) in t.webhooks
  }

  /** A webhook step records its key exactly when it was new and accepted. */
  predicate Accepts(t: Tables, e: Event, key: (string, string)) {
    e.CarrierPosts? && (e.carrier, e.msg.eventId) == key && W.Webhook(t, e.carrier, e.msg).1 == W.Done
  }

  lemma ServiceLeavesWebhooks(t: Tables, e: Event)
    requires IsService(e)
    ensures ServiceStep(t, e).0.webhooks == t.webhooks
  {
    hide CanTransition;
    hide Store.MoveTxs;
    hide Store.MoveRows;
    hide Cancellations.StopJobs;
    hide Cancellations.Strip;
    hide Cancellations.TryApi;
    hide Cancellations.HasPending;
    hide Cancellations.ValidText;
    hide Cancellations.HasCancelApi;
    hide Cancellations.CommentText;
    hide Commissions.Reverse;
    hide Cancellable;
    hide UnpaidCancellable;
    hide ApiAllowed;
  }

  lemma PaymentLeavesWebhooks(t: Tables, e: Event)
    requires IsPayment(e)
    ensures PaymentStep(t, e).webhooks == t.webhooks
  {
  }

  lemma StepWebhooks(t: Tables, e: Timed, key: (string, string))
    ensures key in Step(t, e).webhooks <==> key in t.webhooks || Accepts(Wait(t, e.elapsed), e.event, key)
  {
    var woken := Wait(t, e.elapsed);
    if IsService(e.event) {
      ServiceLeavesWebhooks(woken, e.event);
    } else if IsPayment(e.event) {
      PaymentLeavesWebhooks(woken, e.event);
    }
  }

  predicate AcceptedAt(es: seq<Timed>, i: nat, key: (string, string))
    requires i < |es|
  {
    Accepts(Wait(Run(es[..i]), es[i].elapsed), es[i].event, key)
  }

  lemma AcceptedInPrefix(es: seq<Timed>, i: nat, key: (string, string))
    requires i < |es| - 1
    ensures AcceptedAt(es[..|es| - 1], i, key) <==> AcceptedAt(es, i, key)
  {
    hide Accepts;
    hide Run;
    var before := es[..|es| - 1];
    assert before[..i] == es[..i] && before[i] == es[i];
  }

  /** A key is known at the end of a run exactly when some step of the run accepted it. */
  lemma {:induction false} KnownKeys(es: seq<Timed>, key: (string, string))
    ensures key in Run(es).webhooks <==> exists i :: 0 <= i < |es| && AcceptedAt(es, i, key)
  {
    hide Step;
    if es != [] {
      var n := |es| - 1;
      KnownKeys(es[..n], key);
      StepWebhooks(Run(es[..n]), es[n], key);
      assert AcceptedAt(es, n, key) == Accepts(Wait(Run(es[..n]), es[n].elapsed), es[n].event, key);
      hide AcceptedAt;
      forall i | 0 <= i < n
        ensures AcceptedAt(es[..n], i, key) <==> AcceptedAt(es, i, key)
      {
        AcceptedInPrefix(es, i, key);
      }
    }
  }

  lemma RepeatDoesNothing(t: Tables, e: Timed)
    requires IsRepeat(t, e.event)
    ensures Step(t, e) == Wait(t, e.elapsed)
  {
  }

  /** The run without its repeats; their waiting time goes to the next step, or is left over. */
  function Deduped(t: Tables, es: seq<Timed>): (seq<Timed>, nat) {
    if es == [] then ([], 0)
    else
      var n := |es| - 1;
      var (kept, spare) := Deduped(t, es[..n]);
      if IsRepeat(RunFrom(t, es[..n]), es[n].event) then (kept, spare + es[n].elapsed)
      else (kept + [At(spare + es[n].elapsed, es[n].event)], 0)
  }

  lemma RepeatStep(t: Tables, kept: seq<Timed>, spare: nat, before: Tables, e: Timed)
    requires before == Wait(RunFrom(t, kept), spare) && IsRepeat(before, e.event)
    ensures Step(before, e) == Wait(RunFrom(t, kept), spare + e.elapsed)
  {
  }

  lemma FreshStep(t: Tables, kept: seq<Timed>, spare: nat, before: Tables, e: Timed)
    requires before == Wait(RunFrom(t, kept), spare)
    ensures Step(before, e) == RunFrom(t, kept + [At(spare + e.elapsed, e.event)])
  {
    var next := At(spare + e.elapsed, e.event);
    assert (kept + [next])[..|kept|] == kept;
    assert Wait(before, e.elapsed) == Wait(RunFrom(t, kept), next.elapsed);
  }

  /**
   However often accepted events are delivered again, anywhere in a run, the tables end exactly as
   without the repeats.
   */
  lemma {:induction false} RepeatsDoNotMatter(t: Tables, es: seq<Timed>)
    ensures RunFrom(t, es) == Wait(RunFrom(t, Deduped(t, es).0), Deduped(t, es).1)
  {
    hide Step;
    if es != [] {
      var n := |es| - 1;
      var (kept, spare) := Deduped(t, es[..n]);
      var before := RunFrom(t, es[..n]);
      RepeatsDoNotMatter(t, es[..n]);
      if IsRepeat(before, es[n].event) {
        RepeatStep(t, kept, spare, before, es[n]);
      } else {
        FreshStep(t, kept, spare, before, es[n]);
      }
    }
  }
}
