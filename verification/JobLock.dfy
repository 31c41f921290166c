/**
 The lock that keeps a scheduled job to one replica (`backend/workers/jobs/retry_cancellations.py`,
 `backend/workers/jobs/sync_tracking.py`): SET NX EX, the job, then an unconditional DELETE.  Any number
 of replicas take these steps in any interleaving.
 */
module JobLock {
  import opened Prelude

  /** Where a replica is in `run`; `ends` is when the key it set expires. */
  datatype Phase = Idle | Running(ends: int) | Releasing(ends: int)

  /** `key` is when the lock key expires, if it was set and not deleted since. */
  datatype State = State(now: int, key: Option<int>, replicas: map<nat, Phase>)

  datatype Action =
    | Acquire(replica: nat, ttl: nat)
    | JobEnds(replica: nat)
    | Delete(replica: nat)
    | Crash(replica: nat)

  datatype Timed = At(elapsed: nat, action: Action)

  const START: State := State(0, None, map[])

  function PhaseOf(s: State, r: nat): Phase {
    if r in s.replicas then s.replicas[r] else Idle
  }

  function Put(s: State, r: nat, phase: Phase): State {
    s.(replicas := s.replicas[r := phase])
  }

  predicate IsFree(s: State) {
    s.key.None? || s.key.value <= s.now
  }

  /** Redis refuses a zero TTL, and then the job is not run. */
  function Apply(s: State, a: Action): State {
    match a
    case Acquire(r, ttl) =>
      if PhaseOf(s, r).Idle? && IsFree(s) && ttl > 0 then Put(s, r, Running(s.now + ttl)).(key := Some(s.now + ttl))
      else s
    case JobEnds(r) =>
      if PhaseOf(s, r).Running? then Put(s, r, Releasing(PhaseOf(s, r).ends)) else s
    case Delete(r) =>
      if PhaseOf(s, r).Releasing? then Put(s, r, Idle).(key := None) else s
    case Crash(r) => Put(s, r, Idle)
  }

  function Step(s: State, e: Timed): State {
    Apply(s.(now := s.now + e.elapsed), e.action)
  }

  function RunFrom(s: State, es: seq<Timed>): State {
    if es == [] then s else Step(RunFrom(s, es[..|es| - 1]), es[|es| - 1])
  }

  function Run(es: seq<Timed>): State {
    RunFrom(START, es)
  }

  /** Redis and the replicas of one job; `Enter` and `Leave` are the two ends of `run`. */
  class Cluster {
    var now: int
    var key: Option<int>
    var replicas: map<nat, Phase>

    ghost function Snapshot(): State
      reads this
    {
      State(now, key, replicas)
    }

    constructor ()
      ensures Snapshot() == START
    {
      now, key, replicas := 0, None, map[];
    }

    /** SET NX EX; the replica goes on only if the key was set. */
    method Enter(r: nat, ttl: nat) returns (got: bool)
      requires PhaseOf(Snapshot(), r).Idle?
      modifies this
      ensures Snapshot() == Apply(old(Snapshot()), Acquire(r, ttl))
      ensures got == Busy(Snapshot(), r)
    {
      got := (key.None? || key.value <= now) && ttl > 0;
      if got {
        key, replicas := Some(now + ttl), replicas[r := Running(now + ttl)];
      }
    }

    /** The end of the job, raised or not, and the DELETE in its `finally`. */
    method Leave(r: nat)
      requires PhaseOf(Snapshot(), r).Running?
      modifies this
      ensures Snapshot() == Apply(Apply(old(Snapshot()), JobEnds(r)), Delete(r))
      ensures key == None && !Busy(Snapshot(), r)
    {
      key, replicas := None, replicas[r := Idle];
    }
  }

  predicate Busy(s: State, r: nat) {
    !PhaseOf(s, r).Idle?
  }

  predicate Overran(s: State, r: nat) {
    Busy(s, r) && PhaseOf(s, r).ends <= s.now
  }

  /** No replica is ever seen between SET and DELETE at or past its key's expiry. */
  ghost predicate Punctual(es: seq<Timed>) {
    forall n: nat, r: nat :: n <= |es| ==> !Overran(Run(es[..n]), r)
  }

  lemma PunctualPrefix(es: seq<Timed>)
    requires Punctual(es) && es != []
    ensures Punctual(es[..|es| - 1])
    ensures forall r: nat :: !Overran(Run(es), r)
  {
    hide Run;
    hide Overran;
    var before := es[..|es| - 1];
    forall n: nat, r: nat | n <= |before|
      ensures !Overran(Run(before[..n]), r)
    {
      assert before[..n] == es[..n];
    }
    assert es[..|es|] == es;
  }

  /** The key belongs to the one busy replica. */
  ghost predicate Exclusive(s: State) {
    && (forall r: nat :: Busy(s, r) ==> s.key == Some(PhaseOf(s, r).ends))
    && (forall q: nat, r: nat :: Busy(s, q) && Busy(s, r) ==> q == r)
  }

  lemma HolderKeepsOthersOut(s: State, e: Timed, q: nat, r: nat)
    requires Exclusive(s) && Busy(Step(s, e), q) && Busy(Step(s, e), r) && !Overran(Step(s, e), r)
    requires r != e.action.replica
    ensures Busy(s, q) && Busy(s, r)
  {
    assert PhaseOf(Step(s, e), r) == PhaseOf(s, r) && Busy(s, r);
  }

  lemma StepExclusive(s: State, e: Timed)
    requires Exclusive(s)
    requires forall r: nat :: !Overran(Step(s, e), r)
    ensures Exclusive(Step(s, e))
  {
    var next, a := Step(s, e), e.action.replica;
    forall q: nat, r: nat | Busy(next, q) && Busy(next, r)
      ensures q == r
    {
      if r != a {
        HolderKeepsOthersOut(s, e, q, r);
      } else if q != a {
        HolderKeepsOthersOut(s, e, r, q);
      }
    }
    forall r: nat | Busy(next, r)
      ensures next.key == Some(PhaseOf(next, r).ends)
    {
      assert r != a ==> Busy(s, r) && PhaseOf(next, r) == PhaseOf(s, r);
      assert !Overran(next, r);
      assert Busy(s, a) ==> s.key == Some(PhaseOf(s, a).ends);
    }
  }

  /** At most one replica is between SET and DELETE, if no run is late. */
  lemma {:induction false} AtMostOneInside(es: seq<Timed>)
    requires Punctual(es)
    ensures Exclusive(Run(es))
  {
    hide Step;
    if es != [] {
      PunctualPrefix(es);
      AtMostOneInside(es[..|es| - 1]);
      assert Run(es) == Step(Run(es[..|es| - 1]), es[|es| - 1]);
      StepExclusive(Run(es[..|es| - 1]), es[|es| - 1]);
    }
  }

  /** While one replica is inside, another gets in exactly when the first has outlived its key. */
  lemma SecondEntersIffFirstIsLate(es: seq<Timed>, r: nat, q: nat, wait: nat, ttl: nat)
    requires Punctual(es) && Busy(Run(es), r) && !Busy(Run(es), q) && ttl > 0
    ensures Busy(Step(Run(es), At(wait, Acquire(q, ttl))), q) <==> PhaseOf(Run(es), r).ends <= Run(es).now + wait
    ensures Busy(Step(Run(es), At(wait, Acquire(q, ttl))), r)
  {
    AtMostOneInside(es);
  }

  predicate OnlyTries(es: seq<Timed>) {
    forall i :: 0 <= i < |es| ==> es[i].action.Acquire?
  }

  lemma {:induction false} TriesFail(s: State, es: seq<Timed>)
    requires OnlyTries(es) && s.key.Some? && RunFrom(s, es).now < s.key.value
    ensures RunFrom(s, es) == s.(now := RunFrom(s, es).now) && s.now <= RunFrom(s, es).now
  {
    if es != [] {
      TriesFail(s, es[..|es| - 1]);
    }
  }

  /**
   A crash leaves the key behind: the job is blocked on every replica until exactly the moment the
   crashed run's TTL is over, whatever the others try meanwhile.
   */
  lemma CrashBlocksUntilExpiry(es: seq<Timed>, r: nat, tries: seq<Timed>, q: nat, wait: nat, ttl: nat)
    requires Punctual(es) && Busy(Run(es), r) && OnlyTries(tries) && ttl > 0
    requires var crashed := Step(Run(es), At(0, Crash(r)));
             RunFrom(crashed, tries).now < PhaseOf(Run(es), r).ends
    ensures var s := RunFrom(Step(Run(es), At(0, Crash(r))), tries);
            && !Busy(s, q)
            && (Busy(Step(s, At(wait, Acquire(q, ttl))), q) <==> PhaseOf(Run(es), r).ends <= s.now + wait)
  {
    AtMostOneInside(es);
    var crashed := Step(Run(es), At(0, Crash(r)));
    TriesFail(crashed, tries);
    assert q != r ==> !Busy(Run(es), q) && PhaseOf(crashed, q) == PhaseOf(Run(es), q);
  }

  /** After a punctual run's DELETE the very next attempt gets in. */
  lemma DeleteFrees(es: seq<Timed>, r: nat, q: nat, wait: nat, ttl: nat)
    requires Punctual(es) && PhaseOf(Run(es), r).Releasing? && ttl > 0
    ensures Busy(Step(Step(Run(es), At(0, Delete(r))), At(wait, Acquire(q, ttl))), q)
  {
  }

  /** Replica 0 takes 70 s under a 60 s key; its DELETE removes replica 1's key, and replica 2 joins 1. */
  const LATE: seq<Timed> := [
    At(0, Acquire(0, 60)), At(65, Acquire(1, 60)), At(3, JobEnds(0)), At(2, Delete(0)), At(5, Acquire(2, 60))]

  /**
   The DELETE does not check whose key it removes: after one late run, two replicas that are both well
   within their own TTL run the job together.
   */
  lemma LateDeleteLetsTwoIn()
    ensures var s := Run(LATE); PhaseOf(s, 1).Running? && PhaseOf(s, 2).Running? && !Overran(s, 1) && !Overran(s, 2)
  {
    var s1 := Step(START, LATE[0]);
    var s2 := Step(s1, LATE[1]);
    var s3 := Step(s2, LATE[2]);
    var s4 := Step(s3, LATE[3]);
    Unrolled(LATE, 0);
    Unrolled(LATE, 1);
    Unrolled(LATE, 2);
    Unrolled(LATE, 3);
    Unrolled(LATE, 4);
    assert Run(LATE[..4]) == s4;
    assert LATE[..5] == LATE;
  }

  lemma Unrolled(es: seq<Timed>, n: nat)
    requires n < |es|
    ensures Run(es[..n + 1]) == Step(Run(es[..n]), es[n])
  {
    assert es[..n + 1][..n] == es[..n];
  }
}
