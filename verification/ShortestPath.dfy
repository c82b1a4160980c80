/**
 * Breadth-first search with a queue and a map of parents, over any directed graph, cycles
 * included: the path it traces back is a shortest one.
 */
module ShortestPath {
  import opened Common

  type Graph<Node> = map<Node, seq<Node>>

  predicate Edge<Node(==,!new)>(g: Graph<Node>, a: Node, b: Node) {
    a in g && b in g[a]
  }

  ghost predicate IsPath<Node(!new)>(g: Graph<Node>, p: seq<Node>, from: Node, to: Node) {
    && p != [] && p[0] == from && p[|p| - 1] == to
    && forall i {:trigger Edge(g, p[i - 1], p[i])} :: 0 < i < |p| ==> Edge(g, p[i - 1], p[i])
  }

  ghost predicate Reachable<Node(!new)>(g: Graph<Node>, from: Node, to: Node) {
    exists p :: IsPath(g, p, from, to)
  }

  ghost predicate IsShortest<Node(!new)>(g: Graph<Node>, p: seq<Node>, from: Node, to: Node) {
    IsPath(g, p, from, to) && forall q :: IsPath(g, q, from, to) ==> |p| <= |q|
  }

  // ------------------------------------------------------------------ the search's bookkeeping

  /** The path by which each node was found; the map of parents keeps only its last edge. */
  type Walks<Node> = map<Node, seq<Node>>

  ghost predicate FoundNode<Node(!new)>(g: Graph<Node>, entry: Node, parent: Option<Node>, walks: Walks<Node>, n: Node)
    requires n in walks
  {
    && IsPath(g, walks[n], entry, n)
    && match parent
       case None => walks[n] == [n]
       case Some(p) => p in walks && walks[n] == walks[p] + [n]
  }

  ghost predicate Found<Node(!new)>(g: Graph<Node>, entry: Node, parents: map<Node, Option<Node>>, walks: Walks<Node>) {
    && parents.Keys == walks.Keys
    && forall n {:trigger FoundNode(g, entry, parents[n], walks, n)} :: n in walks ==> FoundNode(g, entry, parents[n], walks, n)
  }

  /** The queue is ordered by distance and holds at most two distances at once. */
  ghost predicate Ordered<Node(!new)>(pending: seq<Node>, walks: Walks<Node>, floor: nat) {
    && (forall i :: 0 <= i < |pending| ==> pending[i] in walks && floor <= |walks[pending[i]]| <= floor + 1)
    && (forall i, j :: 0 <= i < j < |pending| ==> pending[i] != pending[j])
    && (forall i, j :: 0 <= i < j < |pending| && pending[i] in walks && pending[j] in walks ==> |walks[pending[i]]| <= |walks[pending[j]]|)
  }

  /** Whatever a finished node leads to has been found, one step further at most. */
  ghost predicate Expanded<Node(!new)>(g: Graph<Node>, walks: Walks<Node>, done: set<Node>) {
    forall a, b :: a in done && Edge(g, a, b) ==> a in walks && b in walks && |walks[b]| <= |walks[a]| + 1
  }

  function Nodes<Node(==,!new)>(g: Graph<Node>, entry: Node): set<Node> {
    {entry} + set a, b | a in g && b in g[a] :: b
  }

  /** Every path leads to a node already found by no longer one, or past one still pending. */
  lemma {:induction false} PathsCrossTheFrontier<Node(!new)>(g: Graph<Node>, entry: Node, walks: Walks<Node>, done: set<Node>, p: seq<Node>, to: Node)
    requires Expanded(g, walks, done) && IsPath(g, p, entry, to)
    requires entry in walks && |walks[entry]| <= 1
    ensures (to in walks && |walks[to]| <= |p|) || (exists q :: q in walks && q !in done && |walks[q]| < |p|)
    decreases |p|
  {
    if |p| > 1 {
      var rest := p[..|p| - 1];
      var u := rest[|rest| - 1];
      assert Edge(g, p[|p| - 2], p[|p| - 1]);
      PathsCrossTheFrontier(g, entry, walks, done, rest, u);
      if u in walks && |walks[u]| <= |rest| && u in done {
        assert to in walks && |walks[to]| <= |p|;
      }
    }
  }

  lemma ExtendPath<Node(!new)>(g: Graph<Node>, entry: Node, p: seq<Node>, a: Node, b: Node)
    requires IsPath(g, p, entry, a) && Edge(g, a, b)
    ensures IsPath(g, p + [b], entry, b)
  {
    var q := p + [b];
    forall i | 0 < i < |q| ensures Edge(g, q[i - 1], q[i]) {
      if i < |p| { assert Edge(g, p[i - 1], p[i]); }
    }
  }

  lemma DiscoveryKeepsFound<Node(!new)>(g: Graph<Node>, entry: Node, parents: map<Node, Option<Node>>, walks: Walks<Node>, current: Node, next: Node)
    requires Found(g, entry, parents, walks) && current in walks && next !in walks && Edge(g, current, next)
    ensures Found(g, entry, parents[next := Some(current)], walks[next := walks[current] + [next]])
  {
    var u := walks[next := walks[current] + [next]];
    assert FoundNode(g, entry, parents[current], walks, current);
    ExtendPath(g, entry, walks[current], current, next);
    forall n | n in u ensures FoundNode(g, entry, parents[next := Some(current)][n], u, n) {
      if n != next { assert FoundNode(g, entry, parents[n], walks, n); }
    }
  }

  lemma DiscoveryKeepsOrder<Node(!new)>(pending: seq<Node>, walks: Walks<Node>, floor: nat, next: Node, walk: seq<Node>)
    requires Ordered(pending, walks, floor) && next !in walks && |walk| == floor + 1
    ensures Ordered(pending + [next], walks[next := walk], floor)
  {
  }

  lemma ArrivalIsShortest<Node(!new)>(g: Graph<Node>, entry: Node, pending: seq<Node>, walks: Walks<Node>, done: set<Node>, floor: nat, target: Node)
    requires target in walks && IsPath(g, walks[target], entry, target)
    requires pending != [] && pending[0] == target && entry in walks && |walks[entry]| <= 1
    requires Ordered(pending, walks, floor)
    requires forall n :: n in walks ==> n in done || n in pending
    requires Expanded(g, walks, done)
    ensures IsShortest(g, walks[target], entry, target)
  {
    forall q | IsPath(g, q, entry, target) ensures |walks[target]| <= |q| {
      PathsCrossTheFrontier(g, entry, walks, done, q, target);
      assert forall n :: n in pending ==> |walks[target]| <= |walks[n]|;
    }
  }

  /** What expanding one node adds to what was found before. */
  ghost predicate Grown<Node(!new)>(g: Graph<Node>, entry: Node, before: Walks<Node>, walks: Walks<Node>, current: Node) {
    && current in before
    && before.Keys <= walks.Keys <= before.Keys + Nodes(g, entry)
    && (forall n :: n in before ==> walks[n] == before[n])
    && (forall n :: n in walks && n !in before ==> |walks[n]| == |before[current]| + 1)
  }

  /** The queue holds what it held and everything newly found. */
  ghost predicate Queued<Node(!new)>(was: seq<Node>, pending: seq<Node>, before: Walks<Node>, walks: Walks<Node>) {
    forall n :: n in pending <==> n in was || (n in walks && n !in before)
  }

  lemma DiscoveryKeepsGrown<Node(!new)>(g: Graph<Node>, entry: Node, was: seq<Node>, pending: seq<Node>,
                                       before: Walks<Node>, walks: Walks<Node>, current: Node, next: Node)
    requires Grown(g, entry, before, walks, current) && Queued(was, pending, before, walks)
    requires next !in walks && Edge(g, current, next)
    ensures var u := walks[next := walks[current] + [next]];
            Grown(g, entry, before, u, current) && Queued(was, pending + [next], before, u)
  {
    assert next in Nodes(g, entry);
  }

  lemma StillExpanded<Node(!new)>(g: Graph<Node>, entry: Node, before: Walks<Node>, walks: Walks<Node>, done: set<Node>, floor: nat, current: Node)
    requires Expanded(g, before, done) && Grown(g, entry, before, walks, current)
    requires forall b :: Edge(g, current, b) ==> b in walks
    requires |before[current]| == floor && (forall n :: n in before ==> |before[n]| <= floor + 1)
    ensures Expanded(g, walks, done + {current})
  {
    forall a, b | a in done + {current} && Edge(g, a, b) ensures a in walks && b in walks && |walks[b]| <= |walks[a]| + 1 {
      if a in done { assert a in before && b in before; }
    }
  }

  /** After one node is taken off and expanded: which are found, which are done, how far. */
  lemma AdvanceSettles<Node(!new)>(g: Graph<Node>, entry: Node, rest: seq<Node>, pending: seq<Node>, before: Walks<Node>, walks: Walks<Node>,
                                   done: set<Node>, floor: nat, current: Node)
    requires Ordered([current] + rest, before, floor)
    requires forall n :: n in before <==> n in done || n in [current] + rest
    requires forall n :: n in [current] + rest ==> n !in done
    requires forall n :: n in before ==> |before[n]| <= floor + 1
    requires Grown(g, entry, before, walks, current) && Queued(rest, pending, before, walks)
    ensures forall n :: n in walks <==> n in done + {current} || n in pending
    ensures forall n :: n in pending ==> n !in done + {current}
    ensures forall n :: n in walks ==> |walks[n]| <= |before[current]| + 1
    ensures current in before && current !in done && floor <= |before[current]|
    ensures forall n :: n in before ==> |before[n]| <= |before[current]| + 1
  {
    var was := [current] + rest;
    assert was[0] == current && forall i :: 0 <= i < |rest| ==> was[i + 1] == rest[i];
    assert forall n :: n in was <==> n == current || n in rest;
  }

  lemma TailIsOrdered<Node(!new)>(current: Node, rest: seq<Node>, walks: Walks<Node>, floor: nat)
    requires Ordered([current] + rest, walks, floor)
    ensures current in walks && Ordered(rest, walks, |walks[current]|)
  {
    var was := [current] + rest;
    assert was[0] == current && forall i :: 0 <= i < |rest| ==> was[i + 1] == rest[i];
  }

  // ------------------------------------------------------------------ the search

  class Search<Node(==,!new)> {
    const graph: Graph<Node>
    const entry: Node
    var pending: seq<Node>
    var parents: map<Node, Option<Node>>
    ghost var walks: Walks<Node>

    constructor (graph: Graph<Node>, entry: Node)
      ensures this.graph == graph && this.entry == entry
      ensures pending == [entry] && walks == map[entry := [entry]] && Found(graph, entry, parents, walks)
    {
      this.graph, this.entry := graph, entry;
      pending := [entry];
      parents := map[entry := None];
      walks := map[entry := [entry]];
    }

    /** What holds while `current`, taken off a queue `was` with `before` found, is expanded. */
    ghost predicate Expanding(current: Node, was: seq<Node>, before: Walks<Node>)
      reads this
    {
      && Found(graph, entry, parents, walks)
      && Grown(graph, entry, before, walks, current)
      && Ordered(pending, walks, |before[current]|)
      && Queued(was, pending, before, walks)
    }

    method Visit(current: Node, next: Node, ghost was: seq<Node>, ghost before: Walks<Node>)
      requires Expanding(current, was, before) && Edge(graph, current, next)
      modifies this
      ensures Expanding(current, was, before)
      ensures next in walks && forall n :: n in old(walks) ==> n in walks
    {
      if next in parents { return; }
      DiscoveryKeepsGrown(graph, entry, was, pending, before, walks, current, next);
      DiscoveryKeepsFound(graph, entry, parents, walks, current, next);
      DiscoveryKeepsOrder(pending, walks, |before[current]|, next, walks[current] + [next]);
      parents := parents[next := Some(current)];
      pending := pending + [next];
      walks := walks[next := walks[current] + [next]];
    }

    /** Everything `current` leads to that was not found yet joins the end of the queue. */
    method Expand(current: Node)
      requires Expanding(current, pending, walks) && current in graph
      modifies this
      ensures Expanding(current, old(pending), old(walks))
      ensures forall b :: Edge(graph, current, b) ==> b in walks
    {
      var successors := graph[current];
      for i := 0 to |successors|
        invariant Expanding(current, old(pending), old(walks))
        invariant forall j :: 0 <= j < i ==> successors[j] in walks
      {
        Visit(current, successors[i], old(pending), old(walks));
      }
    }

    /** What holds before each node is taken off the queue; `done` are those taken off so far. */
    ghost predicate Searching(target: Node, done: set<Node>, floor: nat)
      reads this
    {
      && Found(graph, entry, parents, walks)
      && entry in walks && walks[entry] == [entry]
      && Ordered(pending, walks, floor)
      && (forall n :: n in walks <==> n in done || n in pending)
      && (forall n :: n in pending ==> n !in done)
      && (forall n :: n in walks ==> |walks[n]| <= floor + 1)
      && Expanded(graph, walks, done)
      && walks.Keys <= Nodes(graph, entry)
      && target !in done
    }

    /** Take one node off the queue and expand it. */
    method Advance(target: Node, ghost done: set<Node>, ghost floor: nat) returns (ghost next: set<Node>, ghost higher: nat)
      requires Searching(target, done, floor) && pending != [] && pending[0] != target
      modifies this
      ensures Searching(target, next, higher)
      ensures next == done + {old(pending)[0]} && old(pending)[0] in Nodes(graph, entry) - done
    {
      var current, rest := pending[0], pending[1..];
      ghost var before := walks;
      assert pending == [current] + rest;
      TailIsOrdered(current, rest, walks, floor);
      higher, next := |walks[current]|, done + {current};
      pending := rest;
      if current in graph { Expand(current); }
      AdvanceSettles(graph, entry, rest, pending, before, walks, done, floor, current);
      StillExpanded(graph, entry, before, walks, done, higher, current);
    }

    /** Search until the target is first in line or nothing is left. */
    method Run(target: Node)
      requires pending == [entry] && walks == map[entry := [entry]] && Found(graph, entry, parents, walks)
      modifies this
      ensures Found(graph, entry, parents, walks)
      ensures target in parents <==> Reachable(graph, entry, target)
      ensures target in parents ==> target in walks && IsShortest(graph, walks[target], entry, target)
    {
      ghost var done: set<Node> := {};
      ghost var floor: nat := 1;
      while pending != []
        invariant Searching(target, done, floor)
        decreases |Nodes(graph, entry) - done|
      {
        if pending[0] == target {
          assert FoundNode(graph, entry, parents[target], walks, target);
          ArrivalIsShortest(graph, entry, pending, walks, done, floor, target);
          return;
        }
        ghost var left := Nodes(graph, entry) - done;
        done, floor := Advance(target, done, floor);
        assert Nodes(graph, entry) - done < left;
      }
      if p :| IsPath(graph, p, entry, target) {
        PathsCrossTheFrontier(graph, entry, walks, done, p, target);
      }
    }

    /** The chain of parents back to the entry, each node shown, turned around. */
    method Trace<T>(target: Node, show: Node -> T) returns (path: seq<T>)
      requires Found(graph, entry, parents, walks) && target in walks
      ensures path == Shown(walks[target], show)
    {
      var reversed: seq<T> := [];
      var current := Some(target);
      ghost var rest := walks[target];
      while current.Some?
        invariant current.Some? ==> current.value in walks && rest == walks[current.value]
        invariant current.None? ==> rest == []
        invariant rest <= walks[target] && Reversed(reversed) == Shown(walks[target][|rest|..], show)
        decreases |rest|
      {
        var node := current.value;
        assert FoundNode(graph, entry, parents[node], walks, node);
        reversed := reversed + [show(node)];
        ghost var shorter := rest[..|rest| - 1];
        assert walks[target][|shorter|..] == [node] + walks[target][|rest|..];
        current := parents[node];
        rest := shorter;
      }
      path := Reversed(reversed);
    }
  }

  function Shown<Node, T>(path: seq<Node>, show: Node -> T): (r: seq<T>)
    ensures |r| == |path| && forall i :: 0 <= i < |path| ==> r[i] == show(path[i])
  {
    seq(|path|, i requires 0 <= i < |path| => show(path[i]))
  }

  function Reversed<T>(s: seq<T>): (r: seq<T>)
    ensures |r| == |s| && forall i :: 0 <= i < |s| ==> r[i] == s[|s| - 1 - i]
  {
    seq(|s|, i requires 0 <= i < |s| => s[|s| - 1 - i])
  }
}
