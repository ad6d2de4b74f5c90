/** The backend's set of flood-blocked road edges: `add_blocked` inserts the
    edges of the road path between two snapped nodes in both directions, and
    `clear_blocked` empties the set.

    Snapping a coordinate to a graph node and computing the shortest path
    between two nodes are calls into the graph library; their results are
    parameters here. */
module Blocked {

  import opened Wrappers

  /** A node id of the road graph. */
  type NodeId = int

  /** A directed node pair `(u, v)`. */
  type Edge = (NodeId, NodeId)

  function Flip(e: Edge): Edge {
    (e.1, e.0)
  }

  /** Every pair's reverse is in the set too. */
  predicate Symmetric(b: set<Edge>) {
    forall e :: e in b ==> Flip(e) in b
  }

  /** The `i`-th consecutive pair of a path. */
  function Hop(p: seq<NodeId>, i: nat): Edge
    requires i + 1 < |p|
  {
    (p[i], p[i + 1])
  }

  /** The consecutive pairs of a path. */
  function Hops(p: seq<NodeId>): set<Edge> {
    set i | 0 <= i < |p| - 1 :: Hop(p, i)
  }

  /** A set of pairs together with all their reverses. */
  function BothWays(es: set<Edge>): set<Edge> {
    es + set e | e in es :: Flip(e)
  }

  lemma BothWaysIsSymmetric(es: set<Edge>)
    ensures Symmetric(BothWays(es))
  {
    forall e | e in BothWays(es)
      ensures Flip(e) in BothWays(es)
    {
      if e !in es {
        var d :| d in es && e == Flip(d);
        assert Flip(e) == d;
      }
    }
  }

  /** The hops of a path of two or more nodes: its first hop and those of its tail. */
  lemma HopsOfLonger(p: seq<NodeId>)
    requires |p| >= 2
    ensures Hops(p) == {(p[0], p[1])} + Hops(p[1..])
  {
    var t := p[1..];
    forall e | e in Hops(p)
      ensures e in {(p[0], p[1])} + Hops(t)
    {
      var i :| 0 <= i < |p| - 1 && e == Hop(p, i);
      if i > 0 {
        assert e == Hop(t, i - 1) && Hop(t, i - 1) in Hops(t);
      }
    }
    assert Hop(p, 0) in Hops(p);
    forall e | e in Hops(t)
      ensures e in Hops(p)
    {
      var i :| 0 <= i < |t| - 1 && e == Hop(t, i);
      assert e == Hop(p, i + 1) && Hop(p, i + 1) in Hops(p);
    }
  }

  /** The loop of `add_blocked` over `zip(path[:-1], path[1:])`: each
      consecutive pair is added, then its reverse. */
  function AddPathHops(b: set<Edge>, p: seq<NodeId>): (r: set<Edge>)
    ensures r == b + BothWays(Hops(p))
    decreases |p|
  {
    if |p| < 2 then
      assert Hops(p) == {};
      b
    else
      HopsOfLonger(p);
      AddPathHops(b + {(p[0], p[1]), (p[1], p[0])}, p[1..])
  }

  datatype Status = Success | Error

  /** `add_blocked`, given the two snapped nodes `u`, `v` and the outcome of
      the library's shortest-path call (`None` when it raised). */
  function AddBlocked(b: set<Edge>, u: NodeId, v: NodeId, path: Option<seq<NodeId>>): (r: (Status, set<Edge>))
    ensures r.0 == Error <==> u == v
    ensures u == v ==> r.1 == b
    ensures u != v && path.Some? ==> r.1 == b + BothWays(Hops(path.value))
    ensures u != v && path.None? ==> r.1 == b + {(u, v), (v, u)}
    ensures b <= r.1
  {
    if u == v then (Error, b)
    else
      match path
      case Some(p) => (Success, AddPathHops(b, p))
      case None => (Success, b + {(u, v), (v, u)})
  }

  /** `add_blocked` keeps the set symmetric. */
  lemma AddBlockedKeepsSymmetric(b: set<Edge>, u: NodeId, v: NodeId, path: Option<seq<NodeId>>)
    requires Symmetric(b)
    ensures Symmetric(AddBlocked(b, u, v, path).1)
  {
    if u != v && path.Some? {
      BothWaysIsSymmetric(Hops(path.value));
    }
  }

  /** The fallback blocks exactly what blocking the one-hop path `[u, v]` would. */
  lemma FallbackIsDirectHop(b: set<Edge>, u: NodeId, v: NodeId)
    requires u != v
    ensures AddBlocked(b, u, v, None).1 == AddBlocked(b, u, v, Some([u, v])).1
  {
    assert Hops([u, v]) == {(u, v)} by {
      HopsOfLonger([u, v]);
      assert Hops([u, v][1..]) == {};
    }
  }

  /** A pair is blocked after `add_blocked` exactly when it was before, or it
      is a hop of the path read in either direction. */
  lemma AddedPairs(b: set<Edge>, u: NodeId, v: NodeId, p: seq<NodeId>, e: Edge)
    requires u != v
    ensures e in AddBlocked(b, u, v, Some(p)).1 <==>
      e in b || exists i :: 0 <= i < |p| - 1 && (e == Hop(p, i) || e == Flip(Hop(p, i)))
  {
    var r := AddBlocked(b, u, v, Some(p)).1;
    if e in r && e !in b && e !in Hops(p) {
      var d :| d in Hops(p) && e == Flip(d);
      var i :| 0 <= i < |p| - 1 && d == Hop(p, i);
      assert e == Flip(Hop(p, i));
    }
    if exists i :: 0 <= i < |p| - 1 && (e == Hop(p, i) || e == Flip(Hop(p, i))) {
      var i :| 0 <= i < |p| - 1 && (e == Hop(p, i) || e == Flip(Hop(p, i)));
      assert Hop(p, i) in Hops(p);
      if e == Flip(Hop(p, i)) {
        assert e in set d | d in Hops(p) :: Flip(d);
      }
    }
  }

  /** `clear_blocked`: the set becomes empty. */
  function ClearBlocked(b: set<Edge>): (r: (Status, set<Edge>))
    ensures r.0 == Success && r.1 == {}
  {
    (Success, {})
  }
}
