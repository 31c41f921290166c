/**
 The in-process job scheduler (`backend/workers/scheduler.py`) and the worker's registrations
 (`backend/workers/main.py`).  Time is the monotonic clock in seconds.  Whether a job would succeed is an
 input to each tick.
 */
module Scheduler {
  import opened Prelude

  /** A registered function: its `__name__`, and its interval in seconds. */
  datatype Job = Job(name: string, interval: int)

  /** One attempt to run a job, by its place in the registration order. */
  datatype Attempt = Attempt(job: nat, at: real, ok: bool)

  datatype State = State(jobs: seq<Job>, lastRun: map<string, real>, attempts: seq<Attempt>)

  function LastRun(lastRun: map<string, real>, name: string): real {
    if name in lastRun then lastRun[name] else 0.0
  }

  predicate Due(s: State, j: nat, now: real)
    requires j < |s.jobs|
  {
    now - LastRun(s.lastRun, s.jobs[j].name) >= s.jobs[j].interval as real
  }

  function Turn(s: State, j: nat, now: real, ok: bool): State
    requires j < |s.jobs|
  {
    if !Due(s, j, now) then s
    else s.(lastRun := if ok then s.lastRun[s.jobs[j].name := now] else s.lastRun,
            attempts := s.attempts + [Attempt(j, now, ok)])
  }

  /** What every job would answer in one tick. */
  type Answers = nat -> bool

  function Turns(s: State, now: real, answers: Answers, n: nat): (next: State)
    requires n <= |s.jobs|
    ensures next.jobs == s.jobs
  {
    if n == 0 then s else Turn(Turns(s, now, answers, n - 1), n - 1, now, answers(n - 1))
  }

  datatype Tick = Tick(now: real, answers: Answers)

  function Ticked(s: State, t: Tick): (next: State)
    ensures next.jobs == s.jobs
  {
    Turns(s, t.now, t.answers, |s.jobs|)
  }

  function Register(s: State, job: Job): State {
    s.(jobs := s.jobs + [job], lastRun := s.lastRun[job.name := 0.0])
  }

  function Registered(jobs: seq<Job>): (s: State)
    ensures s.jobs == jobs && s.attempts == []
    ensures forall name :: name in s.lastRun ==> s.lastRun[name] == 0.0
  {
    if jobs == [] then State([], map[], []) else Register(Registered(jobs[..|jobs| - 1]), jobs[|jobs| - 1])
  }

  function Run(jobs: seq<Job>, ticks: seq<Tick>): (s: State)
    ensures s.jobs == jobs
  {
    if ticks == [] then Registered(jobs) else Ticked(Run(jobs, ticks[..|ticks| - 1]), ticks[|ticks| - 1])
  }

  class WorkerScheduler {
    var jobs: seq<Job>
    var lastRun: map<string, real>
    ghost var attempts: seq<Attempt>

    ghost function Snapshot(): State
      reads this
    {
      State(jobs, lastRun, attempts)
    }

    constructor ()
      ensures Snapshot() == Registered([])
    {
      jobs, lastRun, attempts := [], map[], [];
    }

    method Add(name: string, interval: int)
      modifies this
      ensures Snapshot() == Register(old(Snapshot()), Job(name, interval))
    {
      jobs := jobs + [Job(name, interval)];
      lastRun := lastRun[name := 0.0];
    }

    method RunDue(now: real, answers: Answers)
      modifies this
      ensures Snapshot() == Ticked(old(Snapshot()), Tick(now, answers))
    {
      var i := 0;
      while i < |jobs|
        invariant jobs == old(jobs) && i <= |jobs|
        invariant Snapshot() == Turns(old(Snapshot()), now, answers, i)
      {
        var last := LastRun(lastRun, jobs[i].name);
        if !(now - last < jobs[i].interval as real) {
          attempts := attempts + [Attempt(i, now, answers(i))];
          if answers(i) {
            lastRun := lastRun[jobs[i].name := now];
          }
        }
        i := i + 1;
      }
    }
  }

  // ---- what the log of attempts says ----

  /** The last success under a name, or 0.0. */
  function LastSuccess(jobs: seq<Job>, attempts: seq<Attempt>, name: string): real {
    if attempts == [] then 0.0
    else
      var a := attempts[|attempts| - 1];
      if a.ok && a.job < |jobs| && jobs[a.job].name == name then a.at
      else LastSuccess(jobs, attempts[..|attempts| - 1], name)
  }

  predicate Success(jobs: seq<Job>, a: Attempt, name: string) {
    a.ok && a.job < |jobs| && jobs[a.job].name == name
  }

  predicate LogUpTo(attempts: seq<Attempt>, now: real) {
    && (forall i, j :: 0 <= i < j < |attempts| ==> attempts[i].at <= attempts[j].at)
    && (forall i :: 0 <= i < |attempts| ==> attempts[i].at <= now)
  }

  /** The log is in time order and the per-name clock is the last success under that name. */
  ghost predicate Inv(s: State, now: real) {
    && LogUpTo(s.attempts, now)
    && forall name :: LastRun(s.lastRun, name) == LastSuccess(s.jobs, s.attempts, name)
  }

  predicate ClockRuns(ticks: seq<Tick>) {
    && (forall i :: 0 <= i < |ticks| ==> ticks[i].now >= 0.0)
    && forall i, j :: 0 <= i < j < |ticks| ==> ticks[i].now <= ticks[j].now
  }

  lemma TurnKeeps(s: State, j: nat, now: real, ok: bool)
    requires j < |s.jobs| && Inv(s, now)
    ensures Inv(Turn(s, j, now, ok), now)
  {
  }

  lemma {:induction false} TurnsKeep(s: State, now: real, answers: Answers, n: nat)
    requires n <= |s.jobs| && Inv(s, now)
    ensures Inv(Turns(s, now, answers, n), now)
  {
    hide Inv;
    hide Turn;
    if n > 0 {
      TurnsKeep(s, now, answers, n - 1);
      TurnKeeps(Turns(s, now, answers, n - 1), n - 1, now, answers(n - 1));
    }
  }

  lemma {:induction false} RunKeeps(jobs: seq<Job>, ticks: seq<Tick>, now: real)
    requires ClockRuns(ticks) && now >= 0.0 && (ticks != [] ==> now >= ticks[|ticks| - 1].now)
    ensures Inv(Run(jobs, ticks), now)
  {
    hide Turns;
    if ticks == [] {
      StartInv(jobs, now);
    } else {
      hide Inv;
      var n := |ticks| - 1;
      RunKeeps(jobs, ticks[..n], ticks[n].now);
      TurnsKeep(Run(jobs, ticks[..n]), ticks[n].now, ticks[n].answers, |jobs|);
      InvLater(Run(jobs, ticks), ticks[n].now, now);
    }
  }

  lemma StartInv(jobs: seq<Job>, now: real)
    ensures Inv(Registered(jobs), now)
  {
  }

  lemma InvLater(s: State, now: real, later: real)
    requires Inv(s, now) && now <= later
    ensures Inv(s, later)
  {
  }

  lemma {:induction false} LastSuccessIsLatest(jobs: seq<Job>, attempts: seq<Attempt>, name: string, now: real, gap: real)
    requires LogUpTo(attempts, now) && gap <= now
    ensures now - LastSuccess(jobs, attempts, name) < gap
            <==> exists i :: 0 <= i < |attempts| && Success(jobs, attempts[i], name) && now - attempts[i].at < gap
  {
    if attempts != [] {
      var n := |attempts| - 1;
      if !Success(jobs, attempts[n], name) {
        LastSuccessIsLatest(jobs, attempts[..n], name, now, gap);
        forall i | 0 <= i < |attempts| && Success(jobs, attempts[i], name)
          ensures attempts[..n][i] == attempts[i]
        {
        }
      }
    }
  }

  /** The state when job `j` has its turn in a tick after some ticks. */
  function AtTurn(jobs: seq<Job>, ticks: seq<Tick>, t: Tick, j: nat): State
    requires j < |jobs|
  {
    Turns(Run(jobs, ticks), t.now, t.answers, j)
  }

  /**
   When its turn comes, a job is skipped exactly when some job registered under the same name, itself or
   another, succeeded less than its interval ago (earlier in the same tick included).  This needs the clock
   to have passed one interval, since a fresh scheduler counts as having run at zero.
   */
  lemma SkippedIffNameRanRecently(jobs: seq<Job>, ticks: seq<Tick>, t: Tick, j: nat)
    requires ClockRuns(ticks + [t]) && j < |jobs| && jobs[j].interval as real <= t.now
    ensures var s := AtTurn(jobs, ticks, t, j);
            Turn(s, j, t.now, t.answers(j)) == s <==>
            exists i :: 0 <= i < |s.attempts| && Success(jobs, s.attempts[i], jobs[j].name)
                        && t.now - s.attempts[i].at < jobs[j].interval as real
  {
    ClockPrefix(ticks, t);
    RunKeeps(jobs, ticks, t.now);
    TurnsKeep(Run(jobs, ticks), t.now, t.answers, j);
    var s := AtTurn(jobs, ticks, t, j);
    LastSuccessIsLatest(jobs, s.attempts, jobs[j].name, t.now, jobs[j].interval as real);
    assert Due(s, j, t.now) ==> |Turn(s, j, t.now, t.answers(j)).attempts| > |s.attempts|;
  }

  lemma ClockPrefix(ticks: seq<Tick>, t: Tick)
    requires ClockRuns(ticks + [t])
    ensures ClockRuns(ticks) && t.now >= 0.0 && (ticks != [] ==> ticks[|ticks| - 1].now <= t.now)
  {
    var all := ticks + [t];
    assert all[|ticks|] == t;
    forall i | 0 <= i < |ticks|
      ensures ticks[i] == all[i]
    {
    }
  }

  // ---- spacing ----

  /** No attempt comes within its job's interval after an earlier success under the same name. */
  ghost predicate Spaced(s: State) {
    && (forall k :: 0 <= k < |s.attempts| ==> s.attempts[k].job < |s.jobs|)
    && forall i, k :: 0 <= i < k < |s.attempts| ==>
         Success(s.jobs, s.attempts[i], s.jobs[s.attempts[k].job].name) ==>
         s.attempts[k].at - s.attempts[i].at >= s.jobs[s.attempts[k].job].interval as real
  }

  lemma {:induction false} LastSuccessBounds(jobs: seq<Job>, attempts: seq<Attempt>, name: string, now: real, i: nat)
    requires LogUpTo(attempts, now) && i < |attempts| && Success(jobs, attempts[i], name)
    ensures attempts[i].at <= LastSuccess(jobs, attempts, name)
  {
    var n := |attempts| - 1;
    if i < n {
      LastSuccessBounds(jobs, attempts[..n], name, now, i);
    }
  }

  lemma TurnSpaced(s: State, j: nat, now: real, ok: bool)
    requires j < |s.jobs| && Inv(s, now) && Spaced(s)
    ensures Spaced(Turn(s, j, now, ok))
  {
    if Due(s, j, now) {
      forall i | 0 <= i < |s.attempts| && Success(s.jobs, s.attempts[i], s.jobs[j].name)
        ensures now - s.attempts[i].at >= s.jobs[j].interval as real
      {
        LastSuccessBounds(s.jobs, s.attempts, s.jobs[j].name, now, i);
      }
    }
  }

  lemma {:induction false} TurnsSpaced(s: State, now: real, answers: Answers, n: nat)
    requires n <= |s.jobs| && Inv(s, now) && Spaced(s)
    ensures Spaced(Turns(s, now, answers, n))
  {
    hide Inv;
    hide Spaced;
    hide Turn;
    if n > 0 {
      TurnsSpaced(s, now, answers, n - 1);
      TurnsKeep(s, now, answers, n - 1);
      TurnSpaced(Turns(s, now, answers, n - 1), n - 1, now, answers(n - 1));
    }
  }

  lemma StartSpaced(jobs: seq<Job>)
    ensures Spaced(Registered(jobs))
  {
  }

  /** Over any run, a job's attempts keep their interval from every earlier success under its name. */
  lemma {:induction false} AttemptsAreSpaced(jobs: seq<Job>, ticks: seq<Tick>)
    requires ClockRuns(ticks)
    ensures Spaced(Run(jobs, ticks))
  {
    hide Turns;
    hide Spaced;
    if ticks == [] {
      StartSpaced(jobs);
    } else {
      var n := |ticks| - 1;
      AttemptsAreSpaced(jobs, ticks[..n]);
      RunKeeps(jobs, ticks[..n], ticks[n].now);
      TurnsSpaced(Run(jobs, ticks[..n]), ticks[n].now, ticks[n].answers, |jobs|);
    }
  }

  // ---- distinct names ----

  predicate DistinctNames(jobs: seq<Job>) {
    forall i, j :: 0 <= i < j < |jobs| ==> jobs[i].name != jobs[j].name
  }

  /** With distinct names only the job's own recent success makes it skip: a due job always gets its turn. */
  lemma DistinctJobsNeverStarve(jobs: seq<Job>, ticks: seq<Tick>, t: Tick, j: nat)
    requires DistinctNames(jobs) && ClockRuns(ticks + [t]) && j < |jobs| && jobs[j].interval as real <= t.now
    ensures var s := AtTurn(jobs, ticks, t, j);
            Turn(s, j, t.now, t.answers(j)) == s <==>
            exists i :: 0 <= i < |s.attempts| && s.attempts[i].ok && s.attempts[i].job == j
                        && t.now - s.attempts[i].at < jobs[j].interval as real
  {
    SkippedIffNameRanRecently(jobs, ticks, t, j);
    var s := AtTurn(jobs, ticks, t, j);
    forall i | 0 <= i < |s.attempts|
      ensures Success(jobs, s.attempts[i], jobs[j].name) <==> s.attempts[i].ok && s.attempts[i].job == j
    {
    }
  }

  lemma {:induction false} OthersLeaveClock(s: State, now: real, answers: Answers, m: nat, n: nat, name: string)
    requires m <= n <= |s.jobs|
    requires forall i :: m <= i < n ==> s.jobs[i].name != name
    ensures LastRun(Turns(s, now, answers, n).lastRun, name) == LastRun(Turns(s, now, answers, m).lastRun, name)
  {
    if m < n {
      OthersLeaveClock(s, now, answers, m, n - 1, name);
    }
  }

  /** A job that fails is tried again at the very next tick, whatever the other jobs do. */
  lemma FailedJobIsRetried(jobs: seq<Job>, ticks: seq<Tick>, t: Tick, next: Tick, j: nat)
    requires DistinctNames(jobs) && j < |jobs| && t.now <= next.now
    requires Due(AtTurn(jobs, ticks, t, j), j, t.now) && !t.answers(j)
    ensures Due(AtTurn(jobs, ticks + [t], next, j), j, next.now)
  {
    var s, name := Run(jobs, ticks), jobs[j].name;
    assert (ticks + [t])[..|ticks|] == ticks;
    OthersLeaveClock(s, t.now, t.answers, j + 1, |jobs|, name);
    OthersLeaveClock(Run(jobs, ticks + [t]), next.now, next.answers, 0, j, name);
  }

  // ---- the worker's own registrations ----

  /** Every job module's entry point is called `run`. */
  const WORKER_JOBS: seq<Job> := [
    Job("run", 60), Job("run", 60), Job("run", 3600), Job("run", 300),
    Job("run", 30), Job("run", 1800), Job("run", 604800), Job("run", 120)]

  const RETRY_CANCELLATIONS: nat := 4

  /** Jobs succeed, and the main loop's wait of thirty seconds and its work take less than a minute. */
  ghost predicate Healthy(ticks: seq<Tick>) {
    && (forall i :: 0 <= i < |ticks| ==> forall j: nat :: ticks[i].answers(j))
    && (ticks != [] ==> ticks[0].now >= 60.0)
    && forall i :: 0 < i < |ticks| ==> ticks[i - 1].now + 30.0 <= ticks[i].now < ticks[i - 1].now + 60.0
  }

  /** The first job, then retry_cancellations once a tick. */
  function Starved(ticks: seq<Tick>): seq<Attempt> {
    if ticks == [] then []
    else
      var n := |ticks| - 1;
      Starved(ticks[..n]) + [Attempt(if n == 0 then 0 else RETRY_CANCELLATIONS, ticks[n].now, true)]
  }

  lemma {:induction false} NoneDue(s: State, now: real, answers: Answers, m: nat, n: nat)
    requires m <= n <= |s.jobs|
    requires forall i :: m <= i < n ==> !Due(Turns(s, now, answers, m), i, now)
    ensures Turns(s, now, answers, n) == Turns(s, now, answers, m)
  {
    if m < n {
      NoneDue(s, now, answers, m, n - 1);
    }
  }

  lemma StarvedTick(s: State, now: real, answers: Answers)
    requires s.jobs == WORKER_JOBS && (forall j: nat :: answers(j)) && "run" in s.lastRun
    requires 30.0 <= now - s.lastRun["run"]
    ensures var first := if now - s.lastRun["run"] < 60.0 then RETRY_CANCELLATIONS else 0;
            Ticked(s, Tick(now, answers)) ==
            s.(lastRun := s.lastRun["run" := now], attempts := s.attempts + [Attempt(first, now, true)])
  {
    var first := if now - s.lastRun["run"] < 60.0 then RETRY_CANCELLATIONS else 0;
    assert forall i :: 0 <= i < |s.jobs| ==> s.jobs[i].name == "run" && s.jobs[i].interval >= 30;
    NoneDue(s, now, answers, 0, first);
    NoneDue(s, now, answers, first + 1, |s.jobs|);
  }

  /**
   Because all eight functions are named `run` they share one clock: on a healthy worker the first tick
   runs dispatch_orders, and every later tick runs retry_cancellations and nothing else.
   */
  lemma {:induction false} WorkerJobsStarve(ticks: seq<Tick>)
    requires Healthy(ticks)
    ensures Run(WORKER_JOBS, ticks).attempts == Starved(ticks)
    ensures "run" in Run(WORKER_JOBS, ticks).lastRun
    ensures Run(WORKER_JOBS, ticks).lastRun["run"] == if ticks == [] then 0.0 else ticks[|ticks| - 1].now
  {
    hide Turns;
    if ticks != [] {
      var n := |ticks| - 1;
      WorkerJobsStarve(ticks[..n]);
      StarvedTick(Run(WORKER_JOBS, ticks[..n]), ticks[n].now, ticks[n].answers);
    }
  }
}
