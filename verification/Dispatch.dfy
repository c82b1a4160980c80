/**
 * Choosing which Threads to dispatch (packages/platform-cloudflare/src/Alarm.ts, the
 * "select maintenance lane" transaction), and why no runnable Thread starves.
 */
module Dispatch {
  import opened Common
  import opened Maintenance

  const CONCURRENCY := 2

  predicate Later(t: ThreadId, cursor: Option<ThreadId>) {
    cursor.None? || t > cursor.value
  }

  /** The runnable Thread that follows the cursor in cyclic id order. */
  ghost function FirstAfter(runnable: set<ThreadId>, cursor: Option<ThreadId>): (t: ThreadId)
    requires runnable != {}
    ensures t in runnable
    ensures Later(t, cursor) ==> forall x :: x in runnable && Later(x, cursor) ==> t <= x
    ensures !Later(t, cursor) ==> forall x :: x in runnable ==> t <= x && !Later(x, cursor)
  {
    var after := set x | x in runnable && Later(x, cursor);
    assert forall x :: x in runnable && Later(x, cursor) ==> x in after;
    if after == {} then Least(runnable) else Least(after)
  }

  ghost function Least(s: set<ThreadId>): (t: ThreadId)
    requires s != {}
    ensures t in s && forall x :: x in s ==> t <= x
    decreases |s|
  {
    var x :| x in s;
    if s == {x} then x
    else
      assert s == {x} + (s - {x});
      var rest := Least(s - {x});
      assert forall y :: y in s ==> y == x || y in s - {x};
      Min(x, rest)
  }

  /** Up to `capacity` runnable Threads, in cyclic order from the cursor. */
  ghost function Rotation(runnable: set<ThreadId>, cursor: Option<ThreadId>, capacity: nat): (s: seq<ThreadId>)
    ensures |s| <= capacity
    ensures forall t :: t in s ==> t in runnable
    ensures forall i, j :: 0 <= i < j < |s| ==> s[i] != s[j]
    decreases capacity
  {
    if capacity == 0 || runnable == {} then []
    else
      var t := FirstAfter(runnable, cursor);
      [t] + Rotation(runnable - {t}, Some(t), capacity - 1)
  }


  // ------------------------------------------------------------------ the code's own form

  ghost predicate Sorted(s: seq<ThreadId>) {
    forall i, j :: 0 <= i < j < |s| ==> s[i] < s[j]
  }

  function Elements(s: seq<ThreadId>): set<ThreadId> {
    set t | t in s
  }

  /** The pivot and the two slices, on the sorted list of runnable Threads. */
  method SelectRunnable(runnable: seq<ThreadId>, cursor: Option<ThreadId>, reserved: nat) returns (selected: seq<ThreadId>)
    requires Sorted(runnable) && reserved <= CONCURRENCY
    ensures selected == Rotation(Elements(runnable), cursor, CONCURRENCY - reserved)
  {
    var pivot := 0;
    while pivot < |runnable| && !Later(runnable[pivot], cursor)
      invariant 0 <= pivot <= |runnable|
      invariant forall k :: 0 <= k < pivot ==> !Later(runnable[k], cursor)
    {
      pivot := pivot + 1;
    }
    if pivot == |runnable| {
      pivot := 0;
    }
    var rotated := runnable[pivot..] + runnable[..pivot];
    selected := rotated[..Min(CONCURRENCY - reserved, |rotated|)];
    RotatedList(runnable, cursor, pivot, CONCURRENCY - reserved);
  }

  /** Where the pivot search ends. */
  ghost predicate IsPivot(runnable: seq<ThreadId>, cursor: Option<ThreadId>, pivot: nat) {
    && (forall k :: 0 <= k < pivot <= |runnable| ==> !Later(runnable[k], cursor))
    && (pivot < |runnable| && !Later(runnable[pivot], cursor) ==>
          pivot == 0 && forall k :: 0 <= k < |runnable| ==> !Later(runnable[k], cursor))
  }

  lemma RotatedList(runnable: seq<ThreadId>, cursor: Option<ThreadId>, pivot: nat, capacity: nat)
    requires Sorted(runnable) && IsPivot(runnable, cursor, pivot) && capacity <= 2
    requires pivot < |runnable| || (pivot == 0 && runnable == [])
    ensures var rotated := runnable[pivot..] + runnable[..pivot];
            rotated[..Min(capacity, |rotated|)] == Rotation(Elements(runnable), cursor, capacity)
  {
    var rotated := runnable[pivot..] + runnable[..pivot];
    if runnable == [] {
      assert Elements(runnable) == {};
    } else if capacity > 0 {
      FirstIs(runnable, cursor, pivot);
      assert rotated[0] == runnable[pivot];
      var others := Elements(runnable) - {rotated[0]};
      assert Rotation(Elements(runnable), cursor, capacity) == [rotated[0]] + Rotation(others, Some(rotated[0]), capacity - 1);
      if |runnable| == 1 {
        assert others == {};
        assert rotated[..1] == [rotated[0]];
      } else if capacity == 1 {
        assert rotated[..1] == [rotated[0]];
      } else {
        SecondIs(runnable, pivot);
        OneMore(others, rotated[0], rotated[1]);
        assert rotated[..2] == [rotated[0]] + [rotated[1]];
      }
    }
  }

  lemma OneMore(others: set<ThreadId>, first: ThreadId, second: ThreadId)
    requires second in others && FirstAfter(others, Some(first)) == second
    ensures Rotation(others, Some(first), 1) == [second]
  {
    assert Rotation(others - {second}, Some(second), 0) == [];
  }

  lemma FirstIs(runnable: seq<ThreadId>, cursor: Option<ThreadId>, pivot: nat)
    requires Sorted(runnable) && IsPivot(runnable, cursor, pivot) && pivot < |runnable|
    ensures runnable[pivot] in Elements(runnable) && FirstAfter(Elements(runnable), cursor) == runnable[pivot]
  {
    assert runnable[pivot] in Elements(runnable);
    var first := FirstAfter(Elements(runnable), cursor);
    assert first in runnable;
  }

  lemma SecondIs(runnable: seq<ThreadId>, pivot: nat)
    requires Sorted(runnable) && pivot < |runnable| && |runnable| > 1
    ensures var rotated := runnable[pivot..] + runnable[..pivot];
            && rotated[1] in Elements(runnable) - {rotated[0]}
            && FirstAfter(Elements(runnable) - {rotated[0]}, Some(rotated[0])) == rotated[1]
  {
    var rotated := runnable[pivot..] + runnable[..pivot];
    assert rotated[0] == runnable[pivot];
    assert rotated[1] == runnable[if pivot + 1 < |runnable| then pivot + 1 else 0];
    assert rotated[1] in Elements(runnable) - {rotated[0]};
    var next := FirstAfter(Elements(runnable) - {rotated[0]}, Some(rotated[0]));
    assert next in runnable;
  }

  // ------------------------------------------------------------------ starvation freedom

  /** The ids from just after the cursor, cyclically, up to and including a Thread. */
  ghost function Ahead(universe: set<ThreadId>, cursor: Option<ThreadId>, t: ThreadId): set<ThreadId> {
    if cursor.Some? && t <= cursor.value
    then set x | x in universe && (x > cursor.value || x <= t)
    else set x | x in universe && Later(x, cursor) && x <= t
  }

  /** How far round the universe a Thread is from the cursor: 1 is next. */
  ghost function Distance(universe: set<ThreadId>, cursor: Option<ThreadId>, t: ThreadId): nat {
    |Ahead(universe, cursor, t)|
  }

  function Last(selected: seq<ThreadId>, cursor: Option<ThreadId>): Option<ThreadId> {
    if selected == [] then cursor else Some(selected[|selected| - 1])
  }

  lemma FirstAfterIsCloser(universe: set<ThreadId>, runnable: set<ThreadId>, cursor: Option<ThreadId>, t: ThreadId)
    requires t in runnable && runnable <= universe
    ensures var s := FirstAfter(runnable, cursor);
            s == t || Distance(universe, Some(s), t) < Distance(universe, cursor, t)
  {
    var s := FirstAfter(runnable, cursor);
    if s != t {
      var near, far := Ahead(universe, Some(s), t), Ahead(universe, cursor, t);
      assert near <= far - {s} && s in far;
      SubsetIsSmaller(near, far, s);
    }
  }

  lemma SubsetIsSmaller(near: set<ThreadId>, far: set<ThreadId>, s: ThreadId)
    requires near <= far - {s} && s in far
    ensures |near| < |far|
  {
    Cardinality(near, far - {s});
  }

  lemma Cardinality(a: set<ThreadId>, b: set<ThreadId>)
    requires a <= b
    ensures |a| <= |b|
  {
    assert b == a + (b - a);
  }

  /** Each selection either serves a Thread that is runnable or moves the cursor closer to it. */
  lemma {:induction false} RotationIsCloser(universe: set<ThreadId>, runnable: set<ThreadId>, cursor: Option<ThreadId>, capacity: nat, t: ThreadId)
    requires t in runnable && runnable <= universe && capacity > 0
    ensures var s := Rotation(runnable, cursor, capacity);
            t in s || Distance(universe, Last(s, cursor), t) < Distance(universe, cursor, t)
    decreases capacity
  {
    var first := FirstAfter(runnable, cursor);
    FirstAfterIsCloser(universe, runnable, cursor, t);
    if first != t && capacity > 1 {
      RotationIsCloser(universe, runnable - {first}, Some(first), capacity - 1, t);
      var rest := Rotation(runnable - {first}, Some(first), capacity - 1);
      assert Rotation(runnable, cursor, capacity) == [first] + rest;
    }
  }

  /** The threads each of a series of selections serves, as the runnable set keeps changing. */
  ghost function Serve(rounds: seq<(set<ThreadId>, nat)>, cursor: Option<ThreadId>): seq<seq<ThreadId>>
    decreases rounds
  {
    if rounds == [] then []
    else
      var s := Rotation(rounds[0].0, cursor, rounds[0].1);
      [s] + Serve(rounds[1..], Last(s, cursor))
  }

  /**
   * Starvation freedom: over a finite universe of Threads, a Thread that is runnable at every
   * selection is selected within as many selections as its cyclic distance from the cursor,
   * however the rest of the runnable set changes in between.
   */
  lemma {:induction false} RunnableThreadIsServed(universe: set<ThreadId>, rounds: seq<(set<ThreadId>, nat)>, cursor: Option<ThreadId>, t: ThreadId)
    requires forall k :: 0 <= k < |rounds| ==> t in rounds[k].0 && rounds[k].0 <= universe && rounds[k].1 > 0
    requires |rounds| >= Distance(universe, cursor, t)
    requires t in universe
    ensures Distance(universe, cursor, t) <= |universe|
    ensures exists k :: 0 <= k < |rounds| && k < Distance(universe, cursor, t) && |Serve(rounds, cursor)| == |rounds| && t in Serve(rounds, cursor)[k]
    decreases rounds
  {
    DistanceBounds(universe, cursor, t);
    ServeLength(rounds, cursor);
    var s := Rotation(rounds[0].0, cursor, rounds[0].1);
    RotationIsCloser(universe, rounds[0].0, cursor, rounds[0].1, t);
    assert Serve(rounds, cursor)[0] == s;
    if t !in s {
      RunnableThreadIsServed(universe, rounds[1..], Last(s, cursor), t);
      var k :| 0 <= k < |rounds[1..]| && k < Distance(universe, Last(s, cursor), t) && t in Serve(rounds[1..], Last(s, cursor))[k];
      assert Serve(rounds, cursor)[k + 1] == Serve(rounds[1..], Last(s, cursor))[k];
    }
  }

  lemma DistanceBounds(universe: set<ThreadId>, cursor: Option<ThreadId>, t: ThreadId)
    requires t in universe
    ensures 1 <= Distance(universe, cursor, t) <= |universe|
  {
    var far := Ahead(universe, cursor, t);
    assert t in far && far <= universe;
    Cardinality(far, universe);
  }

  lemma {:induction false} ServeLength(rounds: seq<(set<ThreadId>, nat)>, cursor: Option<ThreadId>)
    ensures |Serve(rounds, cursor)| == |rounds|
    decreases rounds
  {
    if rounds != [] {
      ServeLength(rounds[1..], Last(Rotation(rounds[0].0, cursor, rounds[0].1), cursor));
    }
  }
}
