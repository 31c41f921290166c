/** The query shape the workers share: where a row is due, order by a key, limit.  Rows are ids below `n`. */
module Queries {

  predicate Distinct(ids: seq<nat>) {
    forall j, k :: 0 <= j < k < |ids| ==> ids[j] != ids[k]
  }

  predicate Ordered(ids: seq<nat>, key: nat -> int) {
    forall j, k :: 0 <= j < k < |ids| ==> key(ids[j]) <= key(ids[k])
  }

  /** Exactly the due ids below `n`, each once, least key first. */
  ghost predicate AllDue(ids: seq<nat>, n: nat, due: nat -> bool, key: nat -> int) {
    && (forall id: nat :: id in ids <==> id < n && due(id))
    && Distinct(ids) && Ordered(ids, key)
  }

  /** What the query answers: due rows in order, and only rows with no smaller key are cut off. */
  ghost predicate Answers(ids: seq<nat>, n: nat, due: nat -> bool, key: nat -> int, limit: nat) {
    && |ids| <= limit && Distinct(ids) && Ordered(ids, key)
    && (forall k :: 0 <= k < |ids| ==> ids[k] < n && due(ids[k]))
    && forall id: nat :: id < n && due(id) && id !in ids ==>
         |ids| == limit && forall k :: 0 <= k < |ids| ==> key(ids[k]) <= key(id)
  }

  /** Insert an id behind those with no larger key. */
  function Insert(ids: seq<nat>, id: nat, key: nat -> int): seq<nat> {
    if ids == [] then [id]
    else
      var n := |ids| - 1;
      if key(ids[n]) <= key(id) then ids + [id] else Insert(ids[..n], id, key) + [ids[n]]
  }

  lemma {:induction false} InsertMembers(ids: seq<nat>, id: nat, key: nat -> int, x: nat)
    ensures x in Insert(ids, id, key) <==> x == id || x in ids
  {
    if ids != [] {
      assert ids == ids[..|ids| - 1] + [ids[|ids| - 1]];
      InsertMembers(ids[..|ids| - 1], id, key, x);
    }
  }

  lemma {:induction false} InsertOrder(ids: seq<nat>, id: nat, key: nat -> int)
    requires Distinct(ids) && Ordered(ids, key) && id !in ids
    ensures Distinct(Insert(ids, id, key)) && Ordered(Insert(ids, id, key), key)
  {
    if ids != [] {
      var n := |ids| - 1;
      if key(ids[n]) > key(id) {
        var front := Insert(ids[..n], id, key);
        InsertOrder(ids[..n], id, key);
        forall j | 0 <= j < |front|
          ensures front[j] != ids[n] && key(front[j]) <= key(ids[n])
        {
          InsertMembers(ids[..n], id, key, front[j]);
        }
      }
    }
  }

  lemma AllDueStep(ids: seq<nat>, i: nat, due: nat -> bool, key: nat -> int)
    requires AllDue(ids, i, due, key) && due(i)
    ensures AllDue(Insert(ids, i, key), i + 1, due, key)
  {
    InsertOrder(ids, i, key);
    forall id: nat
      ensures id in Insert(ids, i, key) <==> id < i + 1 && due(id)
    {
      InsertMembers(ids, i, key, id);
    }
  }

  lemma FirstOnes(all: seq<nat>, n: nat, due: nat -> bool, key: nat -> int, limit: nat)
    requires AllDue(all, n, due, key)
    ensures Answers(if |all| <= limit then all else all[..limit], n, due, key, limit)
  {
    var ids := if |all| <= limit then all else all[..limit];
    forall k | 0 <= k < |ids|
      ensures ids[k] < n && due(ids[k])
    {
      assert all[k] in all;
    }
    forall id: nat | id < n && due(id) && id !in ids
      ensures |ids| == limit && forall k :: 0 <= k < |ids| ==> key(ids[k]) <= key(id)
    {
      assert id in all;
      var p :| 0 <= p < |all| && all[p] == id;
      assert p >= limit;
    }
  }

  method Select(n: nat, due: nat -> bool, key: nat -> int, limit: nat) returns (ids: seq<nat>)
    ensures Answers(ids, n, due, key, limit)
  {
    var all: seq<nat> := [];
    var i := 0;
    while i < n
      invariant i <= n
      invariant AllDue(all, i, due, key)
    {
      if due(i) {
        AllDueStep(all, i, due, key);
        all := Insert(all, i, key);
      }
      i := i + 1;
    }
    ids := if |all| <= limit then all else all[..limit];
    FirstOnes(all, n, due, key, limit);
  }
}
