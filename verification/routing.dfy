/** The backend's route request: a request-local copy of the road graph is
    penalised by the blocked edges (edges removed for breadth-first search,
    lengths multiplied by 100 otherwise), the algorithm named in the request is
    run on it, and the route's total length is summed edge by edge.

    The graph search itself, the undirected fallback graph and the snapping of
    coordinates to nodes are calls into the graph library; their outcomes are
    parameters here. Lengths are exact `real`s (IEEE-754 rounding is not
    modelled). */
module Routing {

  import opened Wrappers
  import opened Blocked

  /** A road multigraph: for each directed pair with at least one edge, the
      `length` of each parallel edge, in key order. */
  type Graph = map<Edge, seq<real>>

  // ---------------------------------------------------------------------------
  // Penalising the request copy
  // ---------------------------------------------------------------------------

  /** Every length of `ls` multiplied by `f`. */
  function Rescaled(ls: seq<real>, f: real): (r: seq<real>)
    ensures |r| == |ls|
    ensures forall i :: 0 <= i < |ls| ==> r[i] == ls[i] * f
  {
    seq(|ls|, i requires 0 <= i < |ls| => ls[i] * f)
  }

  lemma RescaledTwice(ls: seq<real>, f: real, h: real)
    ensures Rescaled(Rescaled(ls, f), h) == Rescaled(ls, f * h)
  {
    forall i | 0 <= i < |ls|
      ensures Rescaled(Rescaled(ls, f), h)[i] == Rescaled(ls, f * h)[i]
    {
      assert ls[i] * f * h == ls[i] * (f * h);
    }
  }

  lemma RescaledByOne(ls: seq<real>)
    ensures Rescaled(ls, 1.0) == ls
  {
  }

  function Pow100(n: nat): real {
    if n == 0 then 1.0 else Pow100(n - 1) * 100.0
  }

  /** How many members of the blocked set name the pair `e`: the member `e`
      scales it as `u -> v`, the member `Flip(e)` as `v -> u`. */
  function BlockCount(e: Edge, b: set<Edge>): nat {
    (if e in b then 1 else 0) + (if Flip(e) in b then 1 else 0)
  }

  /** The copy the weighted searches run on: every edge multiplied by 100 once
      per blocked member that names it. */
  function Penalised(g: Graph, b: set<Edge>): Graph {
    map e | e in g :: Rescaled(g[e], Pow100(BlockCount(e, b)))
  }

  /** The copy breadth-first search runs on: every edge a blocked member names,
      in either direction, removed. */
  function Pruned(g: Graph, b: set<Edge>): Graph {
    map e | e in g && e !in b && Flip(e) !in b :: g[e]
  }

  /** Removing one member's two directions turns the copy for `done` into the
      copy for `done + {m}`. */
  lemma RemoveStep(g: Graph, done: set<Edge>, m: Edge, t: Graph, t1: Graph, t2: Graph)
    requires forall e :: e in t <==> e in g && e !in done && Flip(e) !in done
    requires forall e :: e in t ==> t[e] == g[e]
    requires t1 == if m in t then t - {m} else t
    requires t2 == if Flip(m) in t1 then t1 - {Flip(m)} else t1
    ensures forall e :: e in t2 <==> e in g && e !in done + {m} && Flip(e) !in done + {m}
    ensures forall e :: e in t2 ==> t2[e] == g[e]
  {
    forall e
      ensures e in t2 <==> e in g && e !in done + {m} && Flip(e) !in done + {m}
    {
      assert Flip(e) == m <==> e == Flip(m);
    }
  }

  /** A map with the keys and values the removal loop promises is the pruned copy. */
  lemma IsPruned(g: Graph, b: set<Edge>, t: Graph)
    requires forall e :: e in t <==> e in g && e !in b && Flip(e) !in b
    requires forall e :: e in t ==> t[e] == g[e]
    ensures t == Pruned(g, b)
  {
    assert t.Keys == Pruned(g, b).Keys;
  }

  /** The removal loop for `bfs`, one blocked member at a time in whatever order
      the set yields them. */
  method RemoveBlockedEdges(g: Graph, b: set<Edge>) returns (t: Graph)
    ensures forall e :: e in t <==> e in g && e !in b && Flip(e) !in b
    ensures forall e :: e in t ==> t[e] == g[e]
    ensures t == Pruned(g, b)
  {
    t := g;
    var todo := b;
    ghost var done: set<Edge> := {};
    while todo != {}
      invariant todo + done == b && todo !! done
      invariant forall e :: e in t <==> e in g && e !in done && Flip(e) !in done
      invariant forall e :: e in t ==> t[e] == g[e]
      decreases |todo|
    {
      var m :| m in todo;
      ghost var t0 := t;
      if m in t {
        t := t - {m};
      }
      ghost var t1 := t;
      if Flip(m) in t {
        t := t - {Flip(m)};
      }
      RemoveStep(g, done, m, t0, t1, t);
      todo := todo - {m};
      done := done + {m};
    }
    IsPruned(g, b, t);
  }

  /** Scaling one member's two directions turns the copy for `done` into the
      copy for `done + {m}`. */
  lemma ScaleStep(g: Graph, done: set<Edge>, m: Edge, t: Graph, t1: Graph, t2: Graph)
    requires m !in done
    requires t.Keys == g.Keys
    requires forall e :: e in g ==> t[e] == Rescaled(g[e], Pow100(BlockCount(e, done)))
    requires t1 == if m in t then t[m := Rescaled(t[m], 100.0)] else t
    requires t2 == if Flip(m) in t1 then t1[Flip(m) := Rescaled(t1[Flip(m)], 100.0)] else t1
    ensures t2.Keys == g.Keys
    ensures forall e :: e in g ==> t2[e] == Rescaled(g[e], Pow100(BlockCount(e, done + {m})))
  {
    forall e | e in g
      ensures t2[e] == Rescaled(g[e], Pow100(BlockCount(e, done + {m})))
    {
      var n := BlockCount(e, done);
      var times := (if e == m then 1 else 0) + (if e == Flip(m) then 1 else 0);
      assert Flip(e) == m <==> e == Flip(m);
      assert BlockCount(e, done + {m}) == n + times;
      if times == 1 {
        RescaledTwice(g[e], Pow100(n), 100.0);
      } else if times == 2 {
        RescaledTwice(g[e], Pow100(n), 100.0);
        RescaledTwice(g[e], Pow100(n + 1), 100.0);
      }
    }
  }

  /** The scaling loop for the weighted searches: for each blocked member
      `(u, v)`, every parallel `u -> v` edge and then every parallel `v -> u`
      edge has its length multiplied by 100. */
  method ScaleBlockedEdges(g: Graph, b: set<Edge>) returns (t: Graph)
    ensures t.Keys == g.Keys
    ensures forall e :: e in g ==> t[e] == Rescaled(g[e], Pow100(BlockCount(e, b)))
    ensures t == Penalised(g, b)
  {
    t := g;
    var todo := b;
    ghost var done: set<Edge> := {};
    forall e | e in g
      ensures t[e] == Rescaled(g[e], Pow100(BlockCount(e, done)))
    {
      RescaledByOne(g[e]);
    }
    while todo != {}
      invariant todo + done == b && todo !! done
      invariant t.Keys == g.Keys
      invariant forall e :: e in g ==> t[e] == Rescaled(g[e], Pow100(BlockCount(e, done)))
      decreases |todo|
    {
      var m :| m in todo;
      ghost var t0 := t;
      if m in t {
        t := t[m := Rescaled(t[m], 100.0)];
      }
      ghost var t1 := t;
      if Flip(m) in t {
        t := t[Flip(m) := Rescaled(t[Flip(m)], 100.0)];
      }
      ScaleStep(g, done, m, t0, t1, t);
      todo := todo - {m};
      done := done + {m};
    }
  }

  /** With nothing blocked (after `clear_blocked`) both copies equal the graph. */
  lemma NothingBlockedLeavesGraph(g: Graph)
    ensures Pruned(g, {}) == g
    ensures Penalised(g, {}) == g
  {
    forall e | e in g
      ensures Penalised(g, {})[e] == g[e]
    {
      RescaledByOne(g[e]);
    }
  }

  /** Since `add_blocked` keeps the set symmetric, a blocked edge is named by
      two members and so multiplied by 100 twice. */
  lemma SymmetricBlockScaledTwice(g: Graph, b: set<Edge>, e: Edge)
    requires Symmetric(b) && e in b && e in g
    ensures Penalised(g, b)[e] == Rescaled(g[e], 10000.0)
  {
    assert BlockCount(e, b) == 2;
    assert Pow100(2) == 10000.0;
  }

  // ---------------------------------------------------------------------------
  // Route length
  // ---------------------------------------------------------------------------

  /** `edge_length`: the data of `u -> v`, else of `v -> u`, then the length
      of its first parallel edge; 0 when there is neither. On the directed
      request copy the second lookup is the code's explicit retry; on the
      undirected view the library answers for either order by itself, so an
      edge may be filed under either orientation. */
  function EdgeLength(g: Graph, u: NodeId, v: NodeId): (r: real)
    ensures (u, v) in g && |g[(u, v)]| > 0 ==> r == g[(u, v)][0]
    ensures (u, v) !in g && (v, u) in g && |g[(v, u)]| > 0 ==> r == g[(v, u)][0]
    ensures (u, v) !in g && (v, u) !in g ==> r == 0.0
    ensures r == 0.0 || r in (if (u, v) in g then g[(u, v)] else g[(v, u)])
  {
    var data :=
      if (u, v) in g then Some(g[(u, v)])
      else if (v, u) in g then Some(g[(v, u)])
      else None;
    match data
    case None => 0.0
    case Some(ls) => if |ls| > 0 then ls[0] else 0.0
  }

  /** An undirected view holds one edge list per unordered pair: where both
      orientations are present they carry the same data. */
  predicate UndirectedView(g: Graph) {
    forall e :: e in g && Flip(e) in g ==> g[Flip(e)] == g[e]
  }

  /** On an undirected view a hop has the same length read in either order. */
  lemma EdgeLengthEitherOrder(g: Graph, u: NodeId, v: NodeId)
    requires UndirectedView(g)
    ensures EdgeLength(g, u, v) == EdgeLength(g, v, u)
  {
    if (u, v) in g && (v, u) in g {
      assert Flip((u, v)) == (v, u);
    }
  }

  /** A route of the undirected retry that walks an edge against its stored
      orientation still counts that edge's length. */
  lemma ReverseHopIsMeasured()
    ensures PathLength(map[(1, 2) := [50.0]], [2, 1]) == 50.0
  {
    assert [2, 1][1..] == [1];
  }

  /** The sum of `edge_length` over the consecutive pairs of a path. */
  function PathLength(g: Graph, p: seq<NodeId>): real
    decreases |p|
  {
    if |p| < 2 then 0.0 else EdgeLength(g, p[0], p[1]) + PathLength(g, p[1..])
  }

  /** Extending a path by one node adds that last hop's length. */
  lemma {:induction false} PathLengthSnoc(g: Graph, p: seq<NodeId>, x: NodeId)
    requires |p| >= 1
    ensures PathLength(g, p + [x])
         == PathLength(g, p) + EdgeLength(g, p[|p| - 1], x)
    decreases |p|
  {
    if |p| >= 2 {
      assert (p + [x])[1..] == p[1..] + [x];
      PathLengthSnoc(g, p[1..], x);
    } else {
      assert (p + [x])[1..] == [x];
    }
  }

  /** The summation loop of `total_length` over `zip(path[:-1], path[1:])`. */
  method TotalLength(g: Graph, path: seq<NodeId>) returns (total: real)
    ensures total == PathLength(g, path)
    ensures |path| < 2 ==> total == 0.0
  {
    total := 0.0;
    if |path| == 0 {
      return;
    }
    var i := 1;
    while i < |path|
      invariant 1 <= i <= |path|
      invariant total == PathLength(g, path[..i])
    {
      PathLengthSnoc(g, path[..i], path[i]);
      assert path[..i] + [path[i]] == path[..i + 1];
      total := total + EdgeLength(g, path[i - 1], path[i]);
      i := i + 1;
    }
    assert path[..i] == path;
  }

  /** A route's length splits at any of its nodes into the lengths of the two legs. */
  lemma {:induction false} PathLengthSplit(g: Graph, p: seq<NodeId>, k: nat)
    requires k < |p|
    ensures PathLength(g, p) == PathLength(g, p[..k + 1]) + PathLength(g, p[k..])
    decreases k
  {
    if k > 0 {
      PathLengthSplit(g, p[1..], k - 1);
      assert p[1..][..k] == p[..k + 1][1..];
      assert p[1..][k - 1..] == p[k..];
    } else {
      assert p[0..] == p;
    }
  }

  predicate NonNegative(g: Graph) {
    forall e, i :: e in g && 0 <= i < |g[e]| ==> g[e][i] >= 0.0
  }

  lemma Pow100AtLeastOne(n: nat)
    ensures Pow100(n) >= 1.0
  {
  }

  /** With non-negative lengths the penalty never makes a route shorter. */
  lemma {:induction false} PenaltyNeverShortens(g: Graph, b: set<Edge>, p: seq<NodeId>)
    requires NonNegative(g)
    ensures PathLength(Penalised(g, b), p) >= PathLength(g, p)
    decreases |p|
  {
    if |p| >= 2 {
      var u, v := p[0], p[1];
      var h := Penalised(g, b);
      var e := if (u, v) in g then (u, v) else (v, u);
      if e in g && |g[e]| > 0 {
        Pow100AtLeastOne(BlockCount(e, b));
        assert h[e][0] == g[e][0] * Pow100(BlockCount(e, b));
        assert g[e][0] >= 0.0;
      }
      PenaltyNeverShortens(g, b, p[1..]);
    }
  }

  /** A route none of whose hops is blocked, in either direction, has the same
      length on the penalised copy as on the graph. */
  lemma {:induction false} UnblockedRouteKeepsLength(g: Graph, b: set<Edge>, p: seq<NodeId>)
    requires forall i :: 0 <= i < |p| - 1 ==> Hop(p, i) !in b && Flip(Hop(p, i)) !in b
    ensures PathLength(Penalised(g, b), p) == PathLength(g, p)
    decreases |p|
  {
    if |p| >= 2 {
      var u, v := p[0], p[1];
      assert Hop(p, 0) == (u, v);
      if (u, v) in g {
        RescaledByOne(g[(u, v)]);
      }
      if (v, u) in g {
        RescaledByOne(g[(v, u)]);
      }
      forall i | 0 <= i < |p[1..]| - 1
        ensures Hop(p[1..], i) !in b && Flip(Hop(p[1..], i)) !in b
      {
        assert Hop(p[1..], i) == Hop(p, i + 1);
      }
      UnblockedRouteKeepsLength(g, b, p[1..]);
    }
  }

  // ---------------------------------------------------------------------------
  // The route request
  // ---------------------------------------------------------------------------

  /** ASCII lower-casing of one character. */
  function LowerChar(ch: char): char {
    if 'A' <= ch <= 'Z' then (ch as int + 32) as char else ch
  }

  function Lower(s: string): (r: string)
    ensures |r| == |s|
    ensures forall i :: 0 <= i < |s| ==> r[i] == LowerChar(s[i])
  {
    seq(|s|, i requires 0 <= i < |s| => LowerChar(s[i]))
  }

  /** The requested algorithm: a missing or empty name means "astar", and the
      name is lower-cased. */
  function AlgorithmName(field: Option<string>): (r: string)
    ensures field.None? || field.value == "" ==> r == "astar"
    ensures field.Some? && field.value != "" ==>
      |r| == |field.value| && forall i :: 0 <= i < |r| ==> r[i] == LowerChar(field.value[i])
    ensures forall i :: 0 <= i < |r| ==> !('A' <= r[i] <= 'Z')
  {
    if field.None? || field.value == "" then "astar" else Lower(field.value)
  }

  /** Naming the algorithm again by its resolved name resolves to the same one:
      the name is case-insensitive and its default is stable. */
  lemma AlgorithmNameStable(field: Option<string>)
    ensures AlgorithmName(Some(AlgorithmName(field))) == AlgorithmName(field)
  {
    var r := AlgorithmName(field);
    if r != "" {
      assert Lower(r) == r;
    }
  }

  lemma UpperCaseBfsIsBfs()
    ensures AlgorithmName(Some("BFS")) == "bfs"
  {
  }

  predicate Supported(algo: string) {
    algo == "astar" || algo == "dijkstra" || algo == "bfs"
  }

  /** The request-local copy the chosen algorithm runs on. */
  function RequestCopy(g: Graph, b: set<Edge>, algo: string): Graph {
    if algo == "bfs" then Pruned(g, b) else Penalised(g, b)
  }

  /** A point of the request body: latitude and longitude, either possibly null. */
  type Coordinate = (Option<real>, Option<real>)

  datatype PathQuery = PathQuery(start: Coordinate, goal: Coordinate, algorithm: Option<string>)

  predicate MissingCoordinate(q: PathQuery) {
    q.start.0.None? || q.start.1.None? || q.goal.0.None? || q.goal.1.None?
  }

  /** What the undirected retry of the graph library did. */
  datatype Fallback =
    | FallbackFound(view: Graph, path: seq<NodeId>)   // the undirected view of the request copy it searched, and the path
    | FallbackFailed

  /** What the graph library's search on the request copy did. */
  datatype Search =
    | Found(path: seq<NodeId>)
    | NoPath(fallback: Fallback)    // it raised "no path": the undirected retry follows
    | Raised(message: string)       // it raised anything else

  datatype PathReply =
    | Routed(path: seq<NodeId>, totalLength: real)
    | MissingCoordinates
    | UnsupportedAlgorithm
    | Disconnected
    | SearchFailed(message: string)

  /** Both coordinates are given and the algorithm is one `find_path` runs. */
  predicate Answered(q: PathQuery) {
    !MissingCoordinate(q) && Supported(AlgorithmName(q.algorithm))
  }

  /** The reply after the search raised "no path": the undirected retry's
      route measured on the view it searched, or a disconnected graph. */
  predicate FallbackReply(f: Fallback, reply: PathReply) {
    if f.FallbackFound? then reply == Routed(f.path, PathLength(f.view, f.path))
    else reply == Disconnected
  }

  /** `find_path`, given the blocked set and the graph library's search outcome
      on the request copy. The graph `g` itself is a value and stays as it was. */
  method FindPath(g: Graph, b: set<Edge>, q: PathQuery, search: Search) returns (reply: PathReply)
    ensures reply.MissingCoordinates? <==> MissingCoordinate(q)
    ensures reply.UnsupportedAlgorithm? <==>
      !MissingCoordinate(q) && !Supported(AlgorithmName(q.algorithm))
    ensures Answered(q) && search.Found? ==>
      reply == Routed(search.path, PathLength(RequestCopy(g, b, AlgorithmName(q.algorithm)), search.path))
    ensures Answered(q) && search.NoPath? ==> FallbackReply(search.fallback, reply)
    ensures Answered(q) && search.Raised? ==> reply == SearchFailed(search.message)
  {
    var algo := AlgorithmName(q.algorithm);
    if MissingCoordinate(q) {
      return MissingCoordinates;
    }
    var temp: Graph;
    if algo == "bfs" {
      temp := RemoveBlockedEdges(g, b);
    } else {
      temp := ScaleBlockedEdges(g, b);
    }
    if !Supported(algo) {
      return UnsupportedAlgorithm;
    }
    var path: seq<NodeId>;
    var pathGraph: Graph;
    match search {
      case Found(p) =>
        path, pathGraph := p, temp;
      case NoPath(FallbackFound(view, p)) =>
        path, pathGraph := p, view;
      case NoPath(FallbackFailed) =>
        return Disconnected;
      case Raised(m) =>
        return SearchFailed(m);
    }
    var total := TotalLength(pathGraph, path);
    reply := Routed(path, total);
  }

  // ---------------------------------------------------------------------------
  // The reported length of a penalised route
  // ---------------------------------------------------------------------------

  /** `find_path` measures a weighted route on the penalised copy, so a blocked
      edge the route cannot avoid is reported 10000 times as long: a 50 m edge
      blocked by `add_blocked` (both directions) shows up as 500 km. */
  lemma PenalisedLengthIsInflated()
    ensures AlgorithmName(Some("astar")) == "astar"
    ensures RequestCopy(map[(1, 2) := [50.0]], {(1, 2), (2, 1)}, "astar")
         == Penalised(map[(1, 2) := [50.0]], {(1, 2), (2, 1)})
    ensures PathLength(Penalised(map[(1, 2) := [50.0]], {(1, 2), (2, 1)}), [1, 2]) == 500000.0
    ensures PathLength(map[(1, 2) := [50.0]], [1, 2]) == 50.0
  {
    var g: Graph := map[(1, 2) := [50.0]];
    var b: set<Edge> := {(1, 2), (2, 1)};
    assert BlockCount((1, 2), b) == 2;
    assert Pow100(2) == 10000.0;
    assert Penalised(g, b)[(1, 2)] == [500000.0];
    assert [1, 2][1..] == [2];
  }

  /** A breadth-first route runs on the pruned copy, whose edges keep their
      lengths: measured there it has its length on the graph. */
  lemma {:induction false} PrunedRouteKeepsLength(g: Graph, b: set<Edge>, p: seq<NodeId>)
    requires forall i :: 0 <= i < |p| - 1 ==> Hop(p, i) in Pruned(g, b)
    ensures PathLength(Pruned(g, b), p) == PathLength(g, p)
    decreases |p|
  {
    if |p| >= 2 {
      assert Hop(p, 0) == (p[0], p[1]);
      forall i | 0 <= i < |p[1..]| - 1
        ensures Hop(p[1..], i) in Pruned(g, b)
      {
        assert Hop(p[1..], i) == Hop(p, i + 1);
      }
      PrunedRouteKeepsLength(g, b, p[1..]);
    }
  }

  /** `find_path` with every route, found directly or by the undirected retry,
      measured on the graph itself rather than on the penalised copy or its
      undirected view: the reported length no longer depends on the blocked
      set. The copy still decides which route the search finds; that outcome
      is the `search` parameter. A retry route may walk a one-way edge
      backwards, which `EdgeLength` reads as `v -> u`. */
  method RouteWithRoadLength(g: Graph, q: PathQuery, search: Search) returns (reply: PathReply)
    ensures reply.MissingCoordinates? <==> MissingCoordinate(q)
    ensures reply.UnsupportedAlgorithm? <==>
      !MissingCoordinate(q) && !Supported(AlgorithmName(q.algorithm))
    ensures Answered(q) && search.Found? ==>
      reply == Routed(search.path, PathLength(g, search.path))
    ensures Answered(q) && search.NoPath? && search.fallback.FallbackFound? ==>
      reply == Routed(search.fallback.path, PathLength(g, search.fallback.path))
    ensures Answered(q) && search == NoPath(FallbackFailed) ==> reply == Disconnected
    ensures Answered(q) && search.Raised? ==> reply == SearchFailed(search.message)
  {
    if MissingCoordinate(q) {
      return MissingCoordinates;
    }
    if !Supported(AlgorithmName(q.algorithm)) {
      return UnsupportedAlgorithm;
    }
    match search {
      case Found(p) =>
        var total := TotalLength(g, p);
        reply := Routed(p, total);
      case NoPath(FallbackFound(_, p)) =>
        var total := TotalLength(g, p);
        reply := Routed(p, total);
      case NoPath(FallbackFailed) =>
        reply := Disconnected;
      case Raised(m) =>
        reply := SearchFailed(m);
    }
  }
}
