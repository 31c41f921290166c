/**
 The outbox e-mail worker (`backend/workers/jobs/send_email_notifications.py`).  Times are in seconds.
 Delivery itself is an input: it returns, it raises, or the turn is lost (the process dies or the commit
 fails), which rolls the row back and ends the pass.
 */
module EmailWorker {
  import opened Prelude
  import opened Queries

  datatype Status = Pending | Sent | Failed | Other(code: string)

  /** A `notification_jobs` row. */
  datatype Job = Job(
    status: Status, channel: string, attempts: nat, maxAttempts: int, nextRetry: Option<int>, createdAt: int)

  /** A committed try: when it began, and how the delivery went. */
  datatype Try = Try(job: nat, at: int, turn: Turn)

  datatype State = State(now: int, jobs: seq<Job>, tries: seq<Try>)

  datatype Turn = Returned(took: nat) | Raised(took: nat) | Lost(took: nat)

  const BATCH: nat := 20
  const STEP: int := 300

  predicate IsDue(j: Job, now: int) {
    && (j.status.Pending? || j.status.Failed?) && j.channel == "email" && j.attempts < j.maxAttempts
    && (j.nextRetry.None? || j.nextRetry.value <= now)
  }

  predicate DueAt(jobs: seq<Job>, id: nat, now: int) {
    id < |jobs| && IsDue(jobs[id], now)
  }

  function CreatedAt(jobs: seq<Job>, id: nat): int {
    if id < |jobs| then jobs[id].createdAt else 0
  }

  /** `_process`. */
  function Processed(j: Job, turn: Turn, end: int): Job {
    match turn
    case Returned(_) => j.(status := Sent, attempts := j.attempts + 1)
    case Raised(_) =>
      j.(status := Failed, attempts := j.attempts + 1,
         nextRetry := if j.attempts + 1 < j.maxAttempts then Some(end + STEP * (j.attempts + 1)) else j.nextRetry)
    case Lost(_) => j
  }

  function TakeTurn(s: State, id: nat, turn: Turn): State
    requires id < |s.jobs|
  {
    s.(now := s.now + turn.took,
       jobs := s.jobs[id := Processed(s.jobs[id], turn, s.now + turn.took)],
       tries := if turn.Lost? then s.tries else s.tries + [Try(id, s.now, turn)])
  }

  predicate NoneLost(turns: seq<Turn>, n: nat)
    requires n <= |turns|
  {
    forall i :: 0 <= i < n ==> !turns[i].Lost?
  }

  predicate Known(s: State, ids: seq<nat>) {
    forall k :: 0 <= k < |ids| ==> ids[k] < |s.jobs|
  }

  /** The batch, up to and including the first lost turn. */
  function Pass(s: State, ids: seq<nat>, turns: seq<Turn>): (end: State)
    requires |ids| <= |turns| && Known(s, ids)
    ensures |end.jobs| == |s.jobs|
  {
    if ids == [] then s
    else
      var n := |ids| - 1;
      var before := Pass(s, ids[..n], turns);
      if NoneLost(turns, n) then TakeTurn(before, ids[n], turns[n]) else before
  }

  predicate CanPass(s: State, ids: seq<nat>) {
    |ids| <= BATCH && Distinct(ids) && forall k :: 0 <= k < |ids| ==> DueAt(s.jobs, ids[k], s.now)
  }

  class Outbox {
    var now: int
    var jobs: seq<Job>
    ghost var tries: seq<Try>

    ghost function Snapshot(): State
      reads this
    {
      State(now, jobs, tries)
    }

    constructor (now: int, jobs: seq<Job>)
      ensures Snapshot() == State(now, jobs, [])
    {
      this.now, this.jobs, tries := now, jobs, [];
    }

    /** The due jobs, oldest first, at most twenty. */
    method ListDue() returns (due: seq<nat>)
      ensures |due| <= 20 && Distinct(due)
      ensures forall k :: 0 <= k < |due| ==> due[k] < |jobs| && DueAt(jobs, due[k], now)
      ensures forall j, k :: 0 <= j < k < |due| ==> jobs[due[j]].createdAt <= jobs[due[k]].createdAt
      ensures forall id: nat :: DueAt(jobs, id, now) && id !in due ==>
                |due| == 20 && forall k :: 0 <= k < |due| ==> jobs[due[k]].createdAt <= jobs[id].createdAt
    {
      var rows, start := jobs, now;
      due := Select(|rows|, (id: nat) => DueAt(rows, id, start), (id: nat) => CreatedAt(rows, id), BATCH);
    }

    /** `_run`: the listed jobs, one after the other. */
    method RunPass(turns: seq<Turn>) returns (due: seq<nat>)
      requires |turns| >= BATCH
      modifies this
      ensures CanPass(old(Snapshot()), due) && Known(old(Snapshot()), due)
      ensures forall id: nat :: DueAt(old(jobs), id, old(now)) && id !in due ==>
                |due| == 20 && forall k :: 0 <= k < |due| ==> old(jobs)[due[k]].createdAt <= old(jobs)[id].createdAt
      ensures Snapshot() == Pass(old(Snapshot()), due, turns)
    {
      due := ListDue();
      Drain(due, turns);
    }

    method Drain(due: seq<nat>, turns: seq<Turn>)
      requires |due| <= |turns| && Known(Snapshot(), due)
      modifies this
      ensures Snapshot() == Pass(old(Snapshot()), due, turns)
    {
      var i := 0;
      while i < |due|
        invariant i <= |due|
        invariant NoneLost(turns, i)
        invariant Snapshot() == Pass(old(Snapshot()), due[..i], turns)
      {
        assert due[..i + 1][..i] == due[..i];
        var job := jobs[due[i]];
        if !turns[i].Lost? {
          tries := tries + [Try(due[i], now, turns[i])];
        }
        now := now + turns[i].took;
        jobs := jobs[due[i] := Processed(job, turns[i], now)];
        if turns[i].Lost? {
          RestSkipped(old(Snapshot()), due, turns, i + 1);
          return;
        }
        i := i + 1;
      }
      assert due[..i] == due;
    }
  }

  lemma {:induction false} RestSkipped(s: State, ids: seq<nat>, turns: seq<Turn>, n: nat)
    requires |ids| <= |turns| && Known(s, ids) && n <= |ids| && !NoneLost(turns, n)
    ensures Pass(s, ids, turns) == Pass(s, ids[..n], turns)
    decreases |ids|
  {
    if n < |ids| {
      RestSkipped(s, ids[..|ids| - 1], turns, n);
      assert ids[..|ids| - 1][..n] == ids[..n];
    } else {
      assert ids[..n] == ids;
    }
  }

  // ---- runs ----

  datatype Event = Enqueued(job: Job) | PassRuns(ids: seq<nat>, turns: seq<Turn>)

  datatype Timed = At(elapsed: nat, event: Event)

  function Step(s: State, e: Timed): State {
    var woken := s.(now := s.now + e.elapsed);
    match e.event
    case Enqueued(job) =>
      if job.status.Pending? && job.attempts == 0 && job.nextRetry.None? then woken.(jobs := woken.jobs + [job]) else woken
    case PassRuns(ids, turns) =>
      if CanPass(woken, ids) && |ids| <= |turns| then Pass(woken, ids, turns) else woken
  }

  function RunFrom(s: State, es: seq<Timed>): State {
    if es == [] then s else Step(RunFrom(s, es[..|es| - 1]), es[|es| - 1])
  }

  function Run(now: int, es: seq<Timed>): State {
    RunFrom(State(now, [], []), es)
  }

  /** When a job was tried. */
  function TimesOf(tries: seq<Try>, job: nat): seq<int> {
    if tries == [] then []
    else
      var n := |tries| - 1;
      TimesOf(tries[..n], job) + if tries[n].job == job then [tries[n].at] else []
  }

  /** Try k comes at least five minutes times k after the one before it. */
  predicate Spaced(times: seq<int>) {
    forall k :: 1 <= k < |times| ==> times[k - 1] + STEP * k <= times[k]
  }

  predicate JobInv(j: Job, times: seq<int>, now: int) {
    && |times| == j.attempts && Spaced(times) && j.attempts <= Max(0, j.maxAttempts)
    && (forall k :: 0 <= k < |times| ==> times[k] <= now)
    && (j.status.Pending? ==> j.attempts == 0)
    && (j.status.Failed? && 0 < j.attempts < j.maxAttempts ==>
          j.nextRetry.Some? && times[|times| - 1] + STEP * j.attempts <= j.nextRetry.value)
  }

  ghost predicate Inv(s: State) {
    && (forall id: nat :: id < |s.jobs| ==> JobInv(s.jobs[id], TimesOf(s.tries, id), s.now))
    && forall i :: 0 <= i < |s.tries| ==> s.tries[i].job < |s.jobs|
  }

  lemma OneMoreTry(tries: seq<Try>, t: Try, id: nat)
    ensures TimesOf(tries + [t], id) == TimesOf(tries, id) + if t.job == id then [t.at] else []
  {
  }

  lemma Later(j: Job, times: seq<int>, now: int, later: int)
    requires JobInv(j, times, now) && now <= later
    ensures JobInv(j, times, later)
  {
  }

  lemma TurnKeeps(s: State, id: nat, turn: Turn)
    requires Inv(s) && DueAt(s.jobs, id, s.now)
    ensures Inv(TakeTurn(s, id, turn))
  {
    hide JobInv;
    hide Processed;
    hide IsDue;
    hide TimesOf;
    var next := TakeTurn(s, id, turn);
    forall i: nat | i < |s.jobs|
      ensures JobInv(next.jobs[i], TimesOf(next.tries, i), next.now)
    {
      var times := TimesOf(s.tries, i);
      assert JobInv(s.jobs[i], times, s.now);
      OneMoreTry(s.tries, Try(id, s.now, turn), i);
      if i == id && !turn.Lost? {
        TriedJob(s.jobs[id], times, s.now, turn);
      } else {
        LostJob(s.jobs[i], turn, next.now);
        Later(s.jobs[i], times, s.now, next.now);
        assert times + [] == times;
      }
    }
  }

  lemma LostJob(j: Job, turn: Turn, end: int)
    ensures turn.Lost? ==> Processed(j, turn, end) == j
  {
  }

  lemma TriedJob(j: Job, times: seq<int>, now: int, turn: Turn)
    requires JobInv(j, times, now) && IsDue(j, now) && !turn.Lost?
    ensures JobInv(Processed(j, turn, now + turn.took), times + [now], now + turn.took)
  {
  }

  lemma {:induction false} PassKeeps(s: State, ids: seq<nat>, turns: seq<Turn>)
    requires Inv(s) && |ids| <= |turns| && Known(s, ids) && Distinct(ids)
    requires forall k :: 0 <= k < |ids| ==> DueAt(s.jobs, ids[k], s.now)
    ensures var end := Pass(s, ids, turns);
            && Inv(end) && end.now >= s.now
            && forall id: nat :: id < |s.jobs| && id !in ids ==> end.jobs[id] == s.jobs[id]
  {
    hide Inv;
    if ids != [] {
      var n := |ids| - 1;
      PassKeeps(s, ids[..n], turns);
      assert ids[n] !in ids[..n] && DueAt(s.jobs, ids[n], s.now);
      TurnKeeps(Pass(s, ids[..n], turns), ids[n], turns[n]);
    }
  }

  lemma {:induction false} NoTries(tries: seq<Try>, id: nat)
    requires forall i :: 0 <= i < |tries| ==> tries[i].job < id
    ensures TimesOf(tries, id) == []
  {
    if tries != [] {
      NoTries(tries[..|tries| - 1], id);
    }
  }

  lemma WaitKeeps(s: State, elapsed: nat)
    requires Inv(s)
    ensures Inv(s.(now := s.now + elapsed))
  {
  }

  lemma EnqueueKeeps(s: State, job: Job)
    requires Inv(s) && job.status.Pending? && job.attempts == 0
    ensures Inv(s.(jobs := s.jobs + [job]))
  {
    hide TimesOf;
    NoTries(s.tries, |s.jobs|);
    assert JobInv(job, [], s.now);
    hide JobInv;
    var jobs := s.jobs + [job];
    forall id: nat | id < |jobs|
      ensures JobInv(jobs[id], TimesOf(s.tries, id), s.now)
    {
    }
  }

  lemma StepKeeps(s: State, e: Timed)
    requires Inv(s)
    ensures Inv(Step(s, e))
  {
    hide Inv;
    hide IsDue;
    hide Pass;
    var woken := s.(now := s.now + e.elapsed);
    WaitKeeps(s, e.elapsed);
    match e.event
    case Enqueued(job) =>
      if job.status.Pending? && job.attempts == 0 {
        EnqueueKeeps(woken, job);
      }
    case PassRuns(ids, turns) =>
      if CanPass(woken, ids) && |ids| <= |turns| {
        PassKeeps(woken, ids, turns);
      }
  }

  lemma {:induction false} RunKeeps(now: int, es: seq<Timed>)
    ensures Inv(Run(now, es))
  {
    hide Step;
    if es == [] {
      assert TimesOf([], 0) == [];
    } else {
      RunKeeps(now, es[..|es| - 1]);
      StepKeeps(Run(now, es[..|es| - 1]), es[|es| - 1]);
    }
  }

  lemma {:induction false} SpacingAddsUp(times: seq<int>, k: nat)
    requires Spaced(times) && k < |times|
    ensures 2 * (times[k] - times[0]) >= STEP * k * (k + 1)
  {
    if k > 0 {
      SpacingAddsUp(times, k - 1);
    }
  }

  /**
   In every run a job is tried at most `max_attempts` times, and its try k + 1 comes at least
   5 * k * (k + 1) / 2 minutes after the first.
   */
  lemma TriesAreBounded(now: int, es: seq<Timed>, id: nat)
    requires id < |Run(now, es).jobs|
    ensures var s := Run(now, es);
            var times := TimesOf(s.tries, id);
            && |times| <= Max(0, s.jobs[id].maxAttempts)
            && forall k :: 0 <= k < |times| ==> 2 * (times[k] - times[0]) >= STEP * k * (k + 1)
  {
    RunKeeps(now, es);
    var s := Run(now, es);
    var times := TimesOf(s.tries, id);
    assert JobInv(s.jobs[id], times, s.now);
    forall k | 0 <= k < |times|
      ensures 2 * (times[k] - times[0]) >= STEP * k * (k + 1)
    {
      SpacingAddsUp(times, k);
    }
  }

  // ---- finality and progress ----

  lemma {:induction false} PassLeavesOthers(s: State, ids: seq<nat>, turns: seq<Turn>, id: nat)
    requires |ids| <= |turns| && Known(s, ids) && id < |s.jobs| && id !in ids
    ensures var end := Pass(s, ids, turns);
            end.jobs[id] == s.jobs[id] && TimesOf(end.tries, id) == TimesOf(s.tries, id)
  {
    if ids != [] {
      var n := |ids| - 1;
      PassLeavesOthers(s, ids[..n], turns, id);
      var before, end := Pass(s, ids[..n], turns), Pass(s, ids, turns);
      assert ids[n] != id;
      assert |end.tries| > |before.tries| ==> end.tries[..|end.tries| - 1] == before.tries;
    }
  }

  /** A sent job, or one that has used up its attempts, is never tried again. */
  lemma {:induction false} FinishedIsFinal(s: State, es: seq<Timed>, id: nat)
    requires id < |s.jobs| && (s.jobs[id].status.Sent? || s.jobs[id].attempts >= s.jobs[id].maxAttempts)
    ensures var end := RunFrom(s, es);
            && id < |end.jobs| && end.jobs[id] == s.jobs[id]
            && TimesOf(end.tries, id) == TimesOf(s.tries, id)
  {
    if es != [] {
      var n := |es| - 1;
      FinishedIsFinal(s, es[..n], id);
      var before := RunFrom(s, es[..n]);
      hide RunFrom;
      hide Pass;
      hide TimesOf;
      var woken := before.(now := before.now + es[n].elapsed);
      if es[n].event.PassRuns? && CanPass(woken, es[n].event.ids) && |es[n].event.ids| <= |es[n].event.turns| {
        forall k | 0 <= k < |es[n].event.ids|
          ensures es[n].event.ids[k] != id
        {
          assert DueAt(woken.jobs, es[n].event.ids[k], woken.now);
        }
        PassLeavesOthers(woken, es[n].event.ids, es[n].event.turns, id);
      }
    }
  }

  // ---- what became of the deliveries ----

  function TriesOf(tries: seq<Try>, job: nat): seq<Try> {
    if tries == [] then []
    else
      var n := |tries| - 1;
      TriesOf(tries[..n], job) + if tries[n].job == job then [tries[n]] else []
  }

  /** The retry that the try of this number leads to; a job's last attempt schedules no more, and leaves what was. */
  function RetryAfter(own: seq<Try>, n: nat): Option<int>
    requires n <= |own|
  {
    if n == 0 then None else Some(own[n - 1].at + own[n - 1].turn.took + 300 * n)
  }

  /**
   A job stands where its last delivery left it: returned, it is sent; raised, it has failed, and comes again
   five minutes after the try's end for each try so far.  Only the last delivery of a job can have returned.
   */
  predicate StandsBy(j: Job, own: seq<Try>) {
    && |own| == j.attempts
    && (if own == [] then j.status.Pending? && j.nextRetry.None? else j.channel == "email")
    && (forall k :: 0 <= k < |own| - 1 ==> own[k].turn.Raised?)
    && (own != [] ==>
          var last := own[|own| - 1];
          && (last.turn.Returned? ==> j.status.Sent?)
          && (last.turn.Raised? ==> j.status.Failed?)
          && !last.turn.Lost?
          && (last.turn.Raised? ==> j.nextRetry == RetryAfter(own, if |own| < j.maxAttempts then |own| else |own| - 1)))
  }

  ghost predicate AllStand(s: State) {
    && (forall id: nat :: id < |s.jobs| ==> StandsBy(s.jobs[id], TriesOf(s.tries, id)))
    && forall i :: 0 <= i < |s.tries| ==> s.tries[i].job < |s.jobs|
  }

  lemma TriedStands(j: Job, own: seq<Try>, id: nat, now: int, turn: Turn)
    requires StandsBy(j, own) && IsDue(j, now) && !turn.Lost?
    ensures StandsBy(Processed(j, turn, now + turn.took), own + [Try(id, now, turn)])
  {
  }

  lemma TurnStands(s: State, id: nat, turn: Turn)
    requires AllStand(s) && DueAt(s.jobs, id, s.now)
    ensures AllStand(TakeTurn(s, id, turn))
  {
    hide StandsBy;
    hide Processed;
    hide IsDue;
    var next := TakeTurn(s, id, turn);
    assert !turn.Lost? ==> next.tries[..|s.tries|] == s.tries;
    forall i: nat | i < |s.jobs|
      ensures StandsBy(next.jobs[i], TriesOf(next.tries, i))
    {
      assert TriesOf(s.tries, i) + [] == TriesOf(s.tries, i);
      if i == id && !turn.Lost? {
        TriedStands(s.jobs[id], TriesOf(s.tries, id), id, s.now, turn);
      } else {
        LostJob(s.jobs[i], turn, next.now);
      }
    }
  }

  lemma {:induction false} PassStands(s: State, ids: seq<nat>, turns: seq<Turn>)
    requires AllStand(s) && |ids| <= |turns| && Known(s, ids) && Distinct(ids)
    requires forall k :: 0 <= k < |ids| ==> DueAt(s.jobs, ids[k], s.now)
    ensures var end := Pass(s, ids, turns);
            && AllStand(end) && end.now >= s.now
            && forall id: nat :: id < |s.jobs| && id !in ids ==> end.jobs[id] == s.jobs[id]
  {
    hide AllStand;
    if ids != [] {
      var n := |ids| - 1;
      PassStands(s, ids[..n], turns);
      assert ids[n] !in ids[..n] && DueAt(s.jobs, ids[n], s.now);
      TurnStands(Pass(s, ids[..n], turns), ids[n], turns[n]);
    }
  }

  lemma {:induction false} NoTriesOf(tries: seq<Try>, id: nat)
    requires forall i :: 0 <= i < |tries| ==> tries[i].job < id
    ensures TriesOf(tries, id) == []
  {
    if tries != [] {
      NoTriesOf(tries[..|tries| - 1], id);
    }
  }

  lemma EnqueueStands(s: State, job: Job)
    requires AllStand(s) && job.status.Pending? && job.attempts == 0 && job.nextRetry.None?
    ensures AllStand(s.(jobs := s.jobs + [job]))
  {
    NoTriesOf(s.tries, |s.jobs|);
  }

  lemma StepStands(s: State, e: Timed)
    requires AllStand(s)
    ensures AllStand(Step(s, e))
  {
    hide StandsBy;
    hide IsDue;
    hide Pass;
    var woken := s.(now := s.now + e.elapsed);
    assert AllStand(woken);
    match e.event
    case Enqueued(job) =>
      if job.status.Pending? && job.attempts == 0 && job.nextRetry.None? {
        EnqueueStands(woken, job);
      }
    case PassRuns(ids, turns) =>
      if CanPass(woken, ids) && |ids| <= |turns| {
        PassStands(woken, ids, turns);
      }
  }

  lemma {:induction false} RunStands(now: int, es: seq<Timed>)
    ensures AllStand(Run(now, es))
  {
    hide Step;
    if es != [] {
      RunStands(now, es[..|es| - 1]);
      StepStands(Run(now, es[..|es| - 1]), es[|es| - 1]);
    }
  }

  /**
   In every run a job is sent exactly if some committed delivery of it returned; that is then its last try.  A
   raised job with attempts left is due again exactly from the last try's end on plus five minutes for each try.
   */
  lemma SentIffDelivered(now: int, es: seq<Timed>, id: nat)
    requires id < |Run(now, es).jobs|
    ensures var s := Run(now, es);
            var j, own := s.jobs[id], TriesOf(s.tries, id);
            && (j.status.Sent? <==> exists k :: 0 <= k < |own| && own[k].turn.Returned?)
            && (forall k :: 0 <= k < |own| && own[k].turn.Returned? ==> k == |own| - 1)
            && (own != [] && own[|own| - 1].turn.Raised? && |own| < j.maxAttempts ==>
                  forall at: int ::
                    DueAt(s.jobs, id, at) <==> own[|own| - 1].at + own[|own| - 1].turn.took + 300 * |own| <= at)
            && (own == [] && j.channel == "email" && j.maxAttempts > 0 ==> forall at: int :: DueAt(s.jobs, id, at))
  {
    hide Step;
    RunStands(now, es);
    var s := Run(now, es);
    hide Run;
    assert StandsBy(s.jobs[id], TriesOf(s.tries, id));
  }

  function Left(j: Job): nat {
    if j.status.Sent? then 0 else Max(0, j.maxAttempts - j.attempts)
  }

  function TotalLeft(jobs: seq<Job>): nat {
    if jobs == [] then 0 else TotalLeft(jobs[..|jobs| - 1]) + Left(jobs[|jobs| - 1])
  }

  lemma {:induction false} TotalLeftUpdate(jobs: seq<Job>, id: nat, j: Job)
    requires id < |jobs|
    ensures TotalLeft(jobs[id := j]) == TotalLeft(jobs) - Left(jobs[id]) + Left(j)
  {
    var n := |jobs| - 1;
    if id < n {
      TotalLeftUpdate(jobs[..n], id, j);
      assert jobs[id := j][..n] == jobs[..n][id := j];
    } else {
      assert jobs[id := j][..n] == jobs[..n];
    }
  }

  /** How many turns of a batch were committed. */
  function Committed(turns: seq<Turn>, n: nat): nat
    requires n <= |turns|
  {
    if n == 0 then 0 else Committed(turns, n - 1) + if NoneLost(turns, n) then 1 else 0
  }

  lemma TurnMakesProgress(s: State, id: nat, turn: Turn)
    requires id < |s.jobs| && Left(s.jobs[id]) > 0
    ensures TotalLeft(TakeTurn(s, id, turn).jobs) <= TotalLeft(s.jobs) - if turn.Lost? then 0 else 1
  {
    TotalLeftUpdate(s.jobs, id, Processed(s.jobs[id], turn, s.now + turn.took));
  }

  /** Each committed turn uses up at least one of the attempts left in the whole outbox. */
  lemma {:induction false} PassMakesProgress(s: State, ids: seq<nat>, turns: seq<Turn>)
    requires CanPass(s, ids) && |ids| <= |turns| && Known(s, ids)
    ensures TotalLeft(Pass(s, ids, turns).jobs) <= TotalLeft(s.jobs) - Committed(turns, |ids|)
  {
    hide TakeTurn;
    hide TotalLeft;
    if ids != [] {
      var n := |ids| - 1;
      PassMakesProgress(s, ids[..n], turns);
      PassLeavesOthers(s, ids[..n], turns, ids[n]);
      assert DueAt(s.jobs, ids[n], s.now);
      if NoneLost(turns, n) {
        TurnMakesProgress(Pass(s, ids[..n], turns), ids[n], turns[n]);
      }
    }
  }
}
