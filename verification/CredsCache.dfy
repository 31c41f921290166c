/**
 The shared credentials cache of one carrier (`backend/app/modules/carriers/creds_cache.py`): readers go
 to Redis, then to the database, then write Redis back; admin writes commit and then delete the key.
 Readers, admins and Redis failures interleave freely between those steps.
 */
module CredsCache {
  import opened Prelude

  /** What a row amounts to for its readers (`_dict_from_row`), and when it was committed. */
  datatype Version = Version(creds: string, since: int)

  datatype Entry = Entry(creds: string, expires: int)

  /** Inside `get_creds`: the cache missed; or the row is read and not yet written back. */
  datatype Reader = Outside | Missed | Holding(creds: string, readAt: int)

  datatype Answer = Answer(creds: string, at: int)

  datatype State = State(
    now: int, versions: seq<Version>, cache: Option<Entry>, readers: map<nat, Reader>, answers: seq<Answer>)

  datatype Action =
    | Commit(creds: string)
    | Invalidate(redisUp: bool)
    | ReadCache(reader: nat, redisUp: bool)
    | ReadRow(reader: nat)
    | WriteCache(reader: nat, redisUp: bool, ttl: nat)
    | Abandon(reader: nat)

  datatype Timed = At(elapsed: nat, action: Action)

  function Start(creds: string): State {
    State(0, [Version(creds, 0)], None, map[], [])
  }

  function ReaderOf(readers: map<nat, Reader>, r: nat): Reader {
    if r in readers then readers[r] else Outside
  }

  function Newest(s: State): string
    requires s.versions != []
  {
    s.versions[|s.versions| - 1].creds
  }

  predicate Fresh(cache: Option<Entry>, now: int) {
    cache.Some? && now < cache.value.expires
  }

  function Say(s: State, r: nat, creds: string): State {
    s.(readers := s.readers[r := Outside], answers := s.answers + [Answer(creds, s.now)])
  }

  function Apply(s: State, a: Action): State
    requires s.versions != []
  {
    match a
    case Commit(creds) => s.(versions := s.versions + [Version(creds, s.now)])
    case Invalidate(redisUp) => if redisUp then s.(cache := None) else s
    case ReadCache(r, redisUp) =>
      if !ReaderOf(s.readers, r).Outside? then s
      else if redisUp && Fresh(s.cache, s.now) then Say(s, r, s.cache.value.creds)
      else s.(readers := s.readers[r := Missed])
    case ReadRow(r) =>
      if ReaderOf(s.readers, r).Missed? then s.(readers := s.readers[r := Holding(Newest(s), s.now)]) else s
    case WriteCache(r, redisUp, ttl) =>
      if !ReaderOf(s.readers, r).Holding? then s
      else
        var creds := ReaderOf(s.readers, r).creds;
        Say(if redisUp then s.(cache := Some(Entry(creds, s.now + ttl))) else s, r, creds)
    case Abandon(r) => s.(readers := s.readers[r := Outside])
  }

  function Step(s: State, e: Timed): (next: State)
    requires s.versions != []
    ensures next.versions != []
  {
    Apply(s.(now := s.now + e.elapsed), e.action)
  }

  function RunFrom(s: State, es: seq<Timed>): (end: State)
    requires s.versions != []
    ensures end.versions != []
  {
    if es == [] then s else Step(RunFrom(s, es[..|es| - 1]), es[|es| - 1])
  }

  /** The steps as the code takes them, one object for Redis and the row. */
  class CredsStore {
    var now: int
    var versions: seq<Version>
    var cache: Option<Entry>
    var readers: map<nat, Reader>
    ghost var answers: seq<Answer>

    ghost function Snapshot(): State
      reads this
    {
      State(now, versions, cache, readers, answers)
    }

    constructor (creds: string)
      ensures Snapshot() == Start(creds)
    {
      now, versions, cache, readers, answers := 0, [Version(creds, 0)], None, map[], [];
    }

    /** `_read_cache`: None on a miss or when Redis fails. */
    method ReadFromRedis(r: nat, redisUp: bool) returns (cached: Option<string>)
      requires versions != [] && ReaderOf(readers, r).Outside?
      modifies this
      ensures Snapshot() == Apply(old(Snapshot()), ReadCache(r, redisUp))
      ensures cached == if redisUp && Fresh(old(cache), now) then Some(old(cache).value.creds) else None
      ensures cached.None? ==> ReaderOf(readers, r).Missed?
    {
      if redisUp && Fresh(cache, now) {
        readers, answers := readers[r := Outside], answers + [Answer(cache.value.creds, now)];
        return Some(cache.value.creds);
      }
      readers := readers[r := Missed];
      return None;
    }

    method ReadFromDatabase(r: nat) returns (creds: string)
      requires versions != [] && ReaderOf(readers, r).Missed?
      modifies this
      ensures Snapshot() == Apply(old(Snapshot()), ReadRow(r))
      ensures ReaderOf(readers, r) == Holding(creds, now) && creds == Newest(Snapshot())
    {
      creds := versions[|versions| - 1].creds;
      readers := readers[r := Holding(creds, now)];
    }

    /** `_write_cache`, and the reader's answer. */
    method WriteToRedis(r: nat, creds: string, redisUp: bool, ttl: nat)
      requires versions != [] && ReaderOf(readers, r).Holding? && ReaderOf(readers, r).creds == creds
      modifies this
      ensures Snapshot() == Apply(old(Snapshot()), WriteCache(r, redisUp, ttl))
    {
      if redisUp {
        cache := Some(Entry(creds, now + ttl));
      }
      readers, answers := readers[r := Outside], answers + [Answer(creds, now)];
    }

    /** `get_creds` when nothing comes between its steps. */
    method GetCreds(r: nat, readable: bool, writable: bool, ttl: nat) returns (creds: string)
      requires versions != [] && ReaderOf(readers, r).Outside?
      modifies this
      ensures answers == old(answers) + [Answer(creds, now)] && now == old(now) && versions == old(versions)
      ensures creds == if readable && Fresh(old(cache), now) then old(cache).value.creds else Newest(Snapshot())
      ensures cache == if (readable && Fresh(old(cache), now)) || !writable then old(cache) else Some(Entry(creds, now + ttl))
    {
      var cached := ReadFromRedis(r, readable);
      if cached.Some? {
        return cached.value;
      }
      creds := ReadFromDatabase(r);
      WriteToRedis(r, creds, writable, ttl);
    }

    method InvalidateCreds(redisUp: bool)
      requires versions != []
      modifies this
      ensures Snapshot() == Apply(old(Snapshot()), Invalidate(redisUp))
    {
      if redisUp {
        cache := None;
      }
    }
  }

  // ---- staleness ----

  /** The database gave these credentials at that moment. */
  predicate CurrentAt(versions: seq<Version>, creds: string, moment: int) {
    exists i :: 0 <= i < |versions| && IsCurrent(versions, i, creds, moment)
  }

  predicate IsCurrent(versions: seq<Version>, i: nat, creds: string, moment: int)
    requires i < |versions|
  {
    && versions[i].creds == creds && versions[i].since <= moment
    && (i == |versions| - 1 || moment <= versions[i + 1].since)
  }

  lemma CommitKeepsCurrent(versions: seq<Version>, v: Version, creds: string, moment: int)
    requires versions != [] && CurrentAt(versions, creds, moment) && moment <= v.since
    ensures CurrentAt(versions + [v], creds, moment)
  {
    var i :| 0 <= i < |versions| && IsCurrent(versions, i, creds, moment);
    assert IsCurrent(versions + [v], i, creds, moment);
  }

  /** A reader's last step: when its row was read, when it was written back, for how long, and if Redis took it. */
  datatype WriteBack = WriteBack(creds: string, readAt: int, at: int, ttl: nat, landed: bool)

  function NewWriteBack(s: State, e: Timed): seq<WriteBack> {
    match e.action
    case WriteCache(r, redisUp, ttl) =>
      (match ReaderOf(s.readers, r)
       case Holding(creds, readAt) => [WriteBack(creds, readAt, s.now + e.elapsed, ttl, redisUp)]
       case _ => [])
    case _ => []
  }

  function WriteBacks(s: State, es: seq<Timed>): seq<WriteBack>
    requires s.versions != []
  {
    if es == [] then []
    else WriteBacks(s, es[..|es| - 1]) + NewWriteBack(RunFrom(s, es[..|es| - 1]), es[|es| - 1])
  }

  /** The row was read while current, and answered at the write-back or from the cache within its TTL. */
  predicate Explains(versions: seq<Version>, w: WriteBack, a: Answer) {
    && w.creds == a.creds && CurrentAt(versions, w.creds, w.readAt)
    && w.readAt <= w.at <= a.at && (a.at == w.at || (w.landed && a.at < w.at + w.ttl))
  }

  ghost predicate Explained(versions: seq<Version>, writes: seq<WriteBack>, a: Answer) {
    exists k :: 0 <= k < |writes| && Explains(versions, writes[k], a)
  }

  /** Every cached value is explained until it expires. */
  ghost predicate CacheExplained(s: State, writes: seq<WriteBack>) {
    s.cache.Some? ==>
      exists k :: 0 <= k < |writes| && Caches(s.versions, writes[k], s.cache.value, s.now)
  }

  predicate Caches(versions: seq<Version>, w: WriteBack, c: Entry, now: int) {
    && w.creds == c.creds && CurrentAt(versions, w.creds, w.readAt)
    && w.readAt <= w.at <= now && c.expires == w.at + w.ttl && w.landed
  }

  ghost predicate Sourced(s: State, writes: seq<WriteBack>) {
    && s.versions != [] && s.versions[|s.versions| - 1].since <= s.now
    && (forall r: nat :: ReaderOf(s.readers, r).Holding? ==> HoldsRow(s, ReaderOf(s.readers, r)))
    && CacheExplained(s, writes)
    && forall i :: 0 <= i < |s.answers| ==> s.answers[i].at <= s.now && Explained(s.versions, writes, s.answers[i])
  }

  predicate HoldsRow(s: State, held: Reader)
    requires held.Holding?
  {
    held.readAt <= s.now && CurrentAt(s.versions, held.creds, held.readAt)
  }

  lemma CurrentStays(s: State, e: Timed, creds: string, moment: int)
    requires s.versions != [] && CurrentAt(s.versions, creds, moment) && moment <= s.now
    ensures CurrentAt(Step(s, e).versions, creds, moment)
  {
    if e.action.Commit? {
      CommitKeepsCurrent(s.versions, Version(e.action.creds, s.now + e.elapsed), creds, moment);
    }
  }

  lemma ExplainedStays(s: State, e: Timed, writes: seq<WriteBack>, a: Answer)
    requires s.versions != [] && Explained(s.versions, writes, a) && a.at <= s.now
    ensures Explained(Step(s, e).versions, writes + NewWriteBack(s, e), a)
  {
    hide NewWriteBack;
    hide CurrentAt;
    var k :| 0 <= k < |writes| && Explains(s.versions, writes[k], a);
    CurrentStays(s, e, writes[k].creds, writes[k].readAt);
    assert Explains(Step(s, e).versions, (writes + NewWriteBack(s, e))[k], a);
  }

  lemma CacheStays(s: State, e: Timed, writes: seq<WriteBack>)
    requires Sourced(s, writes) && Step(s, e).cache == s.cache
    ensures CacheExplained(Step(s, e), writes + NewWriteBack(s, e))
  {
    hide NewWriteBack;
    hide CurrentAt;
    if s.cache.Some? {
      var k :| 0 <= k < |writes| && Caches(s.versions, writes[k], s.cache.value, s.now);
      CurrentStays(s, e, writes[k].creds, writes[k].readAt);
      assert Caches(Step(s, e).versions, (writes + NewWriteBack(s, e))[k], s.cache.value, Step(s, e).now);
    }
  }

  lemma NewAnswerIsExplained(s: State, e: Timed, writes: seq<WriteBack>)
    requires Sourced(s, writes) && |Step(s, e).answers| > |s.answers|
    ensures Step(s, e).answers == s.answers + [Step(s, e).answers[|s.answers|]]
    ensures Step(s, e).answers[|s.answers|].at == Step(s, e).now
    ensures Explained(Step(s, e).versions, writes + NewWriteBack(s, e), Step(s, e).answers[|s.answers|])
  {
    hide CurrentAt;
    var a := Step(s, e).answers[|s.answers|];
    var more := writes + NewWriteBack(s, e);
    if e.action.ReadCache? {
      var k :| 0 <= k < |writes| && Caches(s.versions, writes[k], s.cache.value, s.now);
      assert Explains(s.versions, more[k], a);
    } else {
      var held := ReaderOf(s.readers, e.action.reader);
      assert HoldsRow(s, held);
      assert Explains(s.versions, more[|writes|], a);
    }
  }

  lemma StepSourced(s: State, e: Timed, writes: seq<WriteBack>)
    requires Sourced(s, writes)
    ensures Sourced(Step(s, e), writes + NewWriteBack(s, e))
  {
    hide CurrentAt;
    var next, more := Step(s, e), writes + NewWriteBack(s, e);
    assert next.versions[|next.versions| - 1].since <= next.now;
    forall r: nat | ReaderOf(next.readers, r).Holding?
      ensures HoldsRow(next, ReaderOf(next.readers, r))
    {
      if ReaderOf(s.readers, r) == ReaderOf(next.readers, r) {
        CurrentStays(s, e, ReaderOf(s.readers, r).creds, ReaderOf(s.readers, r).readAt);
      } else {
        NewestIsCurrent(next);
      }
    }
    if next.cache == s.cache {
      CacheStays(s, e, writes);
    } else if next.cache.Some? {
      var held := ReaderOf(s.readers, e.action.reader);
      assert HoldsRow(s, held);
      assert Caches(next.versions, more[|writes|], next.cache.value, next.now);
    }
    if |next.answers| > |s.answers| {
      NewAnswerIsExplained(s, e, writes);
    }
    forall i | 0 <= i < |next.answers|
      ensures next.answers[i].at <= next.now && Explained(next.versions, more, next.answers[i])
    {
      if i < |s.answers| {
        ExplainedStays(s, e, writes, s.answers[i]);
      }
    }
  }

  lemma NewestIsCurrent(s: State)
    requires s.versions != [] && s.versions[|s.versions| - 1].since <= s.now
    ensures CurrentAt(s.versions, Newest(s), s.now)
  {
    var last: nat := |s.versions| - 1;
    assert IsCurrent(s.versions, last, Newest(s), s.now);
  }

  /**
   Every answer of every run was read from the row by one reader while it was current, and given either as that
   reader wrote it back, or from the cache within the TTL that write set.
   */
  lemma {:induction false} AnswersAreExplained(creds: string, es: seq<Timed>)
    ensures Sourced(RunFrom(Start(creds), es), WriteBacks(Start(creds), es))
  {
    hide Step;
    hide NewWriteBack;
    if es != [] {
      AnswersAreExplained(creds, es[..|es| - 1]);
      StepSourced(RunFrom(Start(creds), es[..|es| - 1]), es[|es| - 1], WriteBacks(Start(creds), es[..|es| - 1]));
    }
  }

  /** A write-back at most `gap` after its reader's row read, under a TTL of at most `ttl`. */
  predicate Brisk(w: WriteBack, gap: nat, ttl: nat) {
    w.at - w.readAt <= gap && w.ttl <= ttl
  }

  /**
   So, however often Redis fails, what `get_creds` returns was the database's value at some moment at most the
   TTL and the slowest write-back gap ago.
   */
  lemma StalenessBound(creds: string, es: seq<Timed>, gap: nat, ttl: nat, i: nat)
    requires forall w :: w in WriteBacks(Start(creds), es) ==> Brisk(w, gap, ttl)
    requires i < |RunFrom(Start(creds), es).answers|
    ensures var end := RunFrom(Start(creds), es);
            var a := end.answers[i];
            exists moment :: a.at - ttl - gap <= moment <= a.at && CurrentAt(end.versions, a.creds, moment)
  {
    hide RunFrom;
    hide WriteBacks;
    hide CurrentAt;
    AnswersAreExplained(creds, es);
    var end, writes := RunFrom(Start(creds), es), WriteBacks(Start(creds), es);
    assert Explained(end.versions, writes, end.answers[i]);
    var k :| 0 <= k < |writes| && Explains(end.versions, writes[k], end.answers[i]);
    assert Brisk(writes[k], gap, ttl) && CurrentAt(end.versions, end.answers[i].creds, writes[k].readAt);
  }

  // ---- invalidation ----

  predicate NoCommits(es: seq<Timed>) {
    forall i :: 0 <= i < |es| ==> !es[i].action.Commit?
  }

  /** Until the next admin write, every further answer is the newest committed value. */
  ghost predicate NewestFromHere(s: State)
    requires s.versions != []
  {
    forall es: seq<Timed> :: NoCommits(es) ==> AnswersNewest(s, RunFrom(s, es))
  }

  predicate AnswersNewest(s: State, end: State)
    requires s.versions != []
  {
    |s.answers| <= |end.answers| && forall i :: |s.answers| <= i < |end.answers| ==> end.answers[i].creds == Newest(s)
  }

  /** No reader that has yet to write the cache holds anything but the newest commit. */
  ghost predicate NoneHoldsOld(s: State)
    requires s.versions != []
  {
    forall r: nat :: ReaderOf(s.readers, r).Holding? ==> ReaderOf(s.readers, r).creds == Newest(s)
  }

  ghost predicate AllNewest(s: State)
    requires s.versions != []
  {
    NoneHoldsOld(s) && (s.cache.Some? ==> s.cache.value.creds == Newest(s))
  }

  lemma StepNewest(s: State, e: Timed)
    requires s.versions != [] && AllNewest(s) && !e.action.Commit?
    ensures AllNewest(Step(s, e)) && Newest(Step(s, e)) == Newest(s) && AnswersNewest(s, Step(s, e))
  {
    var next := Step(s, e);
    forall r: nat | ReaderOf(next.readers, r).Holding?
      ensures ReaderOf(next.readers, r).creds == Newest(s)
    {
      assert ReaderOf(next.readers, r) == ReaderOf(s.readers, r) || ReaderOf(next.readers, r).creds == Newest(s);
    }
  }

  lemma StepKeepsAnswers(s: State, e: Timed)
    requires s.versions != []
    ensures s.answers <= Step(s, e).answers
  {
  }

  lemma {:induction false} RunNewest(s: State, es: seq<Timed>)
    requires s.versions != [] && AllNewest(s) && NoCommits(es)
    ensures var end := RunFrom(s, es); AllNewest(end) && Newest(end) == Newest(s) && AnswersNewest(s, end)
  {
    hide Step;
    hide AllNewest;
    if es != [] {
      var before := RunFrom(s, es[..|es| - 1]);
      RunNewest(s, es[..|es| - 1]);
      StepNewest(before, es[|es| - 1]);
      StepKeepsAnswers(before, es[|es| - 1]);
    }
  }

  /** The slow reader's own answer is old. */
  lemma SlowReaderAnswersOld(s: State, r: nat)
    requires s.versions != [] && ReaderOf(s.readers, r).Holding? && ReaderOf(s.readers, r).creds != Newest(s)
    ensures !NewestFromHere(s)
  {
    var slow := [At(0, WriteCache(r, false, 0))];
    assert slow[..0] == [];
    assert RunFrom(s, slow) == Step(s, slow[0]);
    assert RunFrom(s, slow).answers[|s.answers|].creds != Newest(s);
    assert NoCommits(slow) && !AnswersNewest(s, RunFrom(s, slow));
  }

  /**
   A successful `invalidate_creds` makes every later answer the newest value exactly when no reader is
   between its row read and its write-back with an older one.
   */
  lemma InvalidateWorksIffNoSlowReader(s: State)
    requires s.versions != []
    ensures NewestFromHere(Step(s, At(0, Invalidate(true)))) <==> NoneHoldsOld(s)
  {
    var next := Step(s, At(0, Invalidate(true)));
    if NoneHoldsOld(s) {
      assert AllNewest(next);
      forall es: seq<Timed> | NoCommits(es)
        ensures AnswersNewest(next, RunFrom(next, es))
      {
        RunNewest(next, es);
      }
    } else {
      var r: nat :| ReaderOf(s.readers, r).Holding? && ReaderOf(s.readers, r).creds != Newest(s);
      assert ReaderOf(next.readers, r) == ReaderOf(s.readers, r);
      SlowReaderAnswersOld(next, r);
    }
  }

  /** One slow reader also leaves its old value behind for others: reader 1 starts after the invalidation. */
  const RACE: seq<Timed> := [
    At(0, ReadCache(0, true)), At(1, ReadRow(0)), At(1, Commit("new")), At(1, Invalidate(true)),
    At(1, WriteCache(0, true, 300)), At(200, ReadCache(1, true))]

  lemma SlowReaderPoisonsCache()
    ensures var end := RunFrom(Start("old"), RACE);
            Newest(end) == "new" && end.answers == [Answer("old", 4), Answer("old", 204)]
  {
    hide RunFrom;
    var s := Start("old");
    SixSteps(s, RACE);
    var s2 := Step(Step(s, RACE[0]), RACE[1]);
    assert s2.readers[0] == Holding("old", 1);
    var s4 := Step(Step(s2, RACE[2]), RACE[3]);
    assert s4.cache == None && s4.now == 3;
    var s5 := Step(s4, RACE[4]);
    assert s5.cache == Some(Entry("old", 304)) && s5.answers == [Answer("old", 4)];
  }

  lemma SixSteps(s: State, es: seq<Timed>)
    requires s.versions != [] && |es| == 6
    ensures RunFrom(s, es) == Step(Step(Step(Step(Step(Step(s, es[0]), es[1]), es[2]), es[3]), es[4]), es[5])
  {
    hide Step;
    assert es[..0] == [] && es[..6] == es && RunFrom(s, []) == s;
    hide RunFrom;
    var s1 := Step(s, es[0]);
    assert RunFrom(s, es[..1]) == s1 by { Unrolled(s, es, 0); }
    var s2 := Step(s1, es[1]);
    assert RunFrom(s, es[..2]) == s2 by { Unrolled(s, es, 1); }
    var s3 := Step(s2, es[2]);
    assert RunFrom(s, es[..3]) == s3 by { Unrolled(s, es, 2); }
    var s4 := Step(s3, es[3]);
    assert RunFrom(s, es[..4]) == s4 by { Unrolled(s, es, 3); }
    var s5 := Step(s4, es[4]);
    assert RunFrom(s, es[..5]) == s5 by { Unrolled(s, es, 4); }
    Unrolled(s, es, 5);
  }

  lemma Unrolled(s: State, es: seq<Timed>, n: nat)
    requires s.versions != [] && n < |es|
    ensures RunFrom(s, es[..n + 1]) == Step(RunFrom(s, es[..n]), es[n])
  {
    assert es[..n + 1][..n] == es[..n];
  }
}
