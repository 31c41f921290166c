/**
 The retry worker's pass over due requests (`backend/workers/jobs/retry_cancellations.py`, `_run`), with
 the query it starts from.
 */
module RetryWorker {
  import opened Prelude
  import opened OrderStatus
  import opened Store
  import opened Cancellations
  import opened RequestLaws
  import opened Queries
  import CancellationService

  // ---- the query ----

  predicate DueAt(requests: seq<Request>, id: nat, now: int) {
    id < |requests| && IsDue(requests[id], now)
  }

  /** The sort key; ids without a schedule never reach the sort. */
  function RetryAt(requests: seq<Request>, id: nat): int {
    if id < |requests| && requests[id].nextRetry.Some? then requests[id].nextRetry.value else 0
  }

  /** `list_due_for_retry`: due requests, soonest first, at most `limit` of them. */
  method ListDueForRetry(db: Database, limit: nat) returns (due: seq<nat>)
    ensures |due| <= limit && Distinct(due)
    ensures forall k :: 0 <= k < |due| ==> due[k] < |db.requests| && db.requests[due[k]].nextRetry.Some?
    ensures forall j, k :: 0 <= j < k < |due| ==>
              db.requests[due[j]].nextRetry.value <= db.requests[due[k]].nextRetry.value
    ensures forall k :: 0 <= k < |due| ==> DueAt(db.requests, due[k], db.now)
    ensures forall id: nat :: DueAt(db.requests, id, db.now) && id !in due ==>
              |due| == limit
              && forall k :: 0 <= k < |due| ==> db.requests[due[k]].nextRetry.value <= db.requests[id].nextRetry.value
  {
    var requests, now := db.requests, db.now;
    due := Select(|requests|, (id: nat) => DueAt(requests, id, now), (id: nat) => RetryAt(requests, id), limit);
  }

  // ---- the pass ----

  /** How one request's turn goes: the service answers, or raises and is rolled back. */
  datatype Turn = Served(wait: nat, api: ApiCall) | Crashed(wait: nat)

  function TakeTurn(t: Tables, id: nat, turn: Turn): Tables {
    match turn
    case Served(wait, api) => AutoRetry(Wait(t, wait), id, api).0
    case Crashed(wait) => Wait(t, wait)
  }

  function Pass(t: Tables, ids: seq<nat>, turns: seq<Turn>): Tables
    requires |ids| <= |turns|
  {
    if ids == [] then t
    else
      var n := |ids| - 1;
      TakeTurn(Pass(t, ids[..n], turns), ids[n], turns[n])
  }

  const BATCH: nat := 50

  /** `_run`: list what is due, then give each request its turn; one failure does not stop the others. */
  method RunPass(
    service: CancellationService.CancellationRequestsService, db: Database, turns: seq<Turn>)
    returns (due: seq<nat>)
    requires |turns| >= BATCH
    modifies db
    ensures |due| <= 50 && Distinct(due)
    ensures forall k :: 0 <= k < |due| ==> DueAt(old(db.requests), due[k], old(db.now))
    ensures db.Snapshot() == Pass(old(db.Snapshot()), due, turns)
  {
    hide Cancellations.AutoRetry;
    due := ListDueForRetry(db, BATCH);
    var i := 0;
    while i < |due|
      invariant i <= |due|
      invariant db.Snapshot() == Pass(old(db.Snapshot()), due[..i], turns)
    {
      assert due[..i + 1][..i] == due[..i];
      match turns[i] {
        case Served(wait, api) =>
          var _ := service.AutoRetryApiCancel(db, wait, due[i], api);
        case Crashed(wait) =>
          db.now := db.now + wait;
      }
      i := i + 1;
    }
    assert due[..i] == due;
  }

  // ---- what a pass achieves ----

  lemma TurnFrame(t: Tables, id: nat, turn: Turn)
    ensures var u := TakeTurn(t, id, turn);
            && |u.requests| == |t.requests| && u.now >= t.now
            && forall i :: 0 <= i < |t.requests| && i != id ==> u.requests[i] == t.requests[i]
  {
    if turn.Served? {
      AutoRetryLeavesOthers(Wait(t, turn.wait), id, turn.api);
      AutoRetryClock(Wait(t, turn.wait), id, turn.api);
    }
  }

  lemma AutoRetryClock(t: Tables, id: int, api: ApiCall)
    ensures AutoRetry(t, id, api).0.now >= t.now
  {
  }

  lemma {:induction false} PassFrame(t: Tables, ids: seq<nat>, turns: seq<Turn>)
    requires |ids| <= |turns|
    ensures var u := Pass(t, ids, turns);
            && |u.requests| == |t.requests| && u.now >= t.now
            && forall i :: 0 <= i < |t.requests| && i !in ids ==> u.requests[i] == t.requests[i]
  {
    hide Cancellations.AutoRetry;
    if ids != [] {
      var n := |ids| - 1;
      PassFrame(t, ids[..n], turns);
      TurnFrame(Pass(t, ids[..n], turns), ids[n], turns[n]);
    }
  }

  /** A served request is no longer due: it is resolved, unscheduled, or scheduled for later. */
  lemma ServedIsNotDue(t: Tables, id: nat, turn: Turn)
    requires turn.Served? && id < |t.requests|
    ensures id < |TakeTurn(t, id, turn).requests|
    ensures !IsDue(TakeTurn(t, id, turn).requests[id], t.now)
  {
  }

  /**
   After a pass every listed request whose turn did not crash is no longer due at the pass's start, and
   a crashed one is exactly as before, so it is due again at the next pass.
   */
  lemma {:induction false} PassClearsDue(t: Tables, ids: seq<nat>, turns: seq<Turn>, k: nat)
    requires |ids| <= |turns| && k < |ids| && ids[k] < |t.requests| && Distinct(ids)
    ensures ids[k] < |Pass(t, ids, turns).requests|
    ensures turns[k].Served? ==> !IsDue(Pass(t, ids, turns).requests[ids[k]], t.now)
    ensures turns[k].Crashed? ==> Pass(t, ids, turns).requests[ids[k]] == t.requests[ids[k]]
    decreases |ids|
  {
    hide Cancellations.AutoRetry;
    var n := |ids| - 1;
    var before := Pass(t, ids[..n], turns);
    PassFrame(t, ids[..n], turns);
    TurnFrame(before, ids[n], turns[n]);
    if k < n {
      PassClearsDue(t, ids[..n], turns, k);
    } else {
      assert ids[n] !in ids[..n];
      if turns[n].Served? {
        ServedIsNotDue(before, ids[n], turns[n]);
      }
    }
  }
}
