/** Planar geometry used by both map clients: snapping a click to the nearest
    loaded graph node, and the centroid of a flood gesture.

    Coordinates are exact `real`s: the IEEE-754 rounding of the JavaScript
    numbers is not modelled, so squared distances and means are exact. */
module Geo {

  import opened Wrappers

  /** A map coordinate (Leaflet's `L.latLng`). */
  datatype LatLng = LatLng(lat: real, lng: real)

  /** One entry of the client's node list: a graph node id with its position.
      The client stores it as GeoJSON-like `[lng, lat]` coordinates; the model
      keeps the two components by name. */
  datatype Node = Node(id: int, lat: real, lng: real)

  function Position(n: Node): LatLng {
    LatLng(n.lat, n.lng)
  }

  /** Squared planar distance between a click and a node, with no geodesic correction. */
  function SqDist(p: LatLng, n: Node): real {
    (p.lat - n.lat) * (p.lat - n.lat) + (p.lng - n.lng) * (p.lng - n.lng)
  }

  // ---------------------------------------------------------------------------
  // Snapping
  // ---------------------------------------------------------------------------

  /** `k` indexes a node of minimal squared distance to `q`, and no earlier node
      is as close: the node a left-to-right scan with a strict `<` keeps. */
  predicate IsFirstNearest(q: LatLng, nodes: seq<Node>, k: int) {
    && 0 <= k < |nodes|
    && (forall j :: 0 <= j < |nodes| ==> SqDist(q, nodes[k]) <= SqDist(q, nodes[j]))
    && (forall j :: 0 <= j < k ==> SqDist(q, nodes[k]) < SqDist(q, nodes[j]))
  }

  /** The index the scan keeps, defined over ever longer prefixes of the list. */
  function FirstNearestIndex(q: LatLng, nodes: seq<Node>): (k: nat)
    requires |nodes| > 0
    ensures IsFirstNearest(q, nodes, k)
    decreases |nodes|
  {
    if |nodes| == 1 then 0
    else
      var front := nodes[..|nodes| - 1];
      var k := FirstNearestIndex(q, front);
      assert forall j :: 0 <= j < |front| ==> front[j] == nodes[j];
      if SqDist(q, nodes[|nodes| - 1]) < SqDist(q, nodes[k]) then |nodes| - 1 else k
  }

  /** What a snapped click is: the click itself when no node is loaded,
      otherwise the position of the first nearest node. */
  predicate SnappedFrom(q: LatLng, nodes: seq<Node>, p: LatLng) {
    if |nodes| == 0 then p == q
    else exists k :: 0 <= k < |nodes| && IsFirstNearest(q, nodes, k) && p == Position(nodes[k])
  }

  /** The snapped click as a value, for use by the client state machines. */
  function Snap(q: LatLng, nodes: seq<Node>): (p: LatLng)
    ensures SnappedFrom(q, nodes, p)
  {
    if |nodes| == 0 then q else Position(nodes[FirstNearestIndex(q, nodes)])
  }

  /** At most one index is a first nearest one. */
  lemma FirstNearestUnique(q: LatLng, nodes: seq<Node>, k1: int, k2: int)
    requires IsFirstNearest(q, nodes, k1) && IsFirstNearest(q, nodes, k2)
    ensures k1 == k2
  {
    var d1, d2 := SqDist(q, nodes[k1]), SqDist(q, nodes[k2]);
    assert d1 <= d2 && d2 <= d1;
    assert k1 < k2 ==> d2 < d1;
    assert k2 < k1 ==> d1 < d2;
  }

  /** The specification of a snapped click determines it: `Snap` is the only
      value it allows. */
  lemma SnapIsFirstNearest(q: LatLng, nodes: seq<Node>, p: LatLng)
    ensures SnappedFrom(q, nodes, p) <==> p == Snap(q, nodes)
  {
    if |nodes| > 0 && SnappedFrom(q, nodes, p) {
      var k :| IsFirstNearest(q, nodes, k) && p == Position(nodes[k]);
      FirstNearestUnique(q, nodes, k, FirstNearestIndex(q, nodes));
    }
  }

  /** The linear scan of the client's `findNearestNode`. `minDist == None`
      plays the role of the scan's initial `Infinity`, and `best == None` of
      its initial `null`. */
  method FindNearestNode(q: LatLng, nodes: seq<Node>) returns (r: LatLng)
    ensures SnappedFrom(q, nodes, r)
    ensures |nodes| == 0 ==> r == q
  {
    if |nodes| == 0 {
      return q;
    }
    var best: Option<LatLng> := None;
    var minDist: Option<real> := None;
    ghost var bestIndex := 0;
    var i := 0;
    while i < |nodes|
      invariant 0 <= i <= |nodes|
      invariant i == 0 <==> best.None?
      invariant best.None? <==> minDist.None?
      invariant i > 0 ==> IsFirstNearest(q, nodes[..i], bestIndex)
      invariant i > 0 ==> best == Some(Position(nodes[bestIndex]))
      invariant i > 0 ==> minDist == Some(SqDist(q, nodes[bestIndex]))
    {
      var dist := SqDist(q, nodes[i]);
      if minDist.None? || dist < minDist.value {
        minDist := Some(dist);
        best := Some(Position(nodes[i]));
        bestIndex := i;
      }
      assert forall j :: 0 <= j <= i ==> nodes[..i + 1][j] == nodes[j];
      i := i + 1;
    }
    assert nodes[..i] == nodes;
    r := best.value;
  }

  // ---------------------------------------------------------------------------
  // Centroid of a flood gesture
  // ---------------------------------------------------------------------------

  /** Sum of the latitudes, accumulated left to right. */
  function SumLat(ps: seq<LatLng>): real
    decreases |ps|
  {
    if |ps| == 0 then 0.0 else SumLat(ps[..|ps| - 1]) + ps[|ps| - 1].lat
  }

  /** Sum of the longitudes, accumulated left to right. */
  function SumLng(ps: seq<LatLng>): real
    decreases |ps|
  {
    if |ps| == 0 then 0.0 else SumLng(ps[..|ps| - 1]) + ps[|ps| - 1].lng
  }

  /** The arithmetic mean of the latitudes and of the longitudes. */
  function Mean(ps: seq<LatLng>): LatLng
    requires |ps| > 0
  {
    LatLng(SumLat(ps) / (|ps| as real), SumLng(ps) / (|ps| as real))
  }

  /** `computeCentroid`: one pass summing both components, then one division each. */
  method ComputeCentroid(points: seq<LatLng>) returns (c: LatLng)
    requires |points| > 0
    ensures c == Mean(points)
  {
    var sumLat := 0.0;
    var sumLng := 0.0;
    var i := 0;
    while i < |points|
      invariant 0 <= i <= |points|
      invariant sumLat == SumLat(points[..i])
      invariant sumLng == SumLng(points[..i])
    {
      assert points[..i + 1][..i] == points[..i];
      sumLat := sumLat + points[i].lat;
      sumLng := sumLng + points[i].lng;
      i := i + 1;
    }
    assert points[..i] == points;
    c := LatLng(sumLat / (|points| as real), sumLng / (|points| as real));
  }

  /** Bounds on every latitude bound their sum. */
  lemma {:induction false} SumLatBounds(ps: seq<LatLng>, lo: real, hi: real)
    requires forall i :: 0 <= i < |ps| ==> lo <= ps[i].lat <= hi
    ensures (|ps| as real) * lo <= SumLat(ps) <= (|ps| as real) * hi
    decreases |ps|
  {
    if |ps| > 0 {
      var front := ps[..|ps| - 1];
      assert forall i :: 0 <= i < |front| ==> front[i] == ps[i];
      SumLatBounds(front, lo, hi);
    }
  }

  /** Bounds on every longitude bound their sum. */
  lemma {:induction false} SumLngBounds(ps: seq<LatLng>, lo: real, hi: real)
    requires forall i :: 0 <= i < |ps| ==> lo <= ps[i].lng <= hi
    ensures (|ps| as real) * lo <= SumLng(ps) <= (|ps| as real) * hi
    decreases |ps|
  {
    if |ps| > 0 {
      var front := ps[..|ps| - 1];
      assert forall i :: 0 <= i < |front| ==> front[i] == ps[i];
      SumLngBounds(front, lo, hi);
    }
  }

  /** The centroid lies inside every box that contains all the gesture's points. */
  lemma CentroidInsideBox(ps: seq<LatLng>, south: real, north: real, west: real, east: real)
    requires |ps| > 0
    requires forall i :: 0 <= i < |ps| ==> south <= ps[i].lat <= north
    requires forall i :: 0 <= i < |ps| ==> west <= ps[i].lng <= east
    ensures south <= Mean(ps).lat <= north
    ensures west <= Mean(ps).lng <= east
  {
    var n := |ps| as real;
    SumLatBounds(ps, south, north);
    SumLngBounds(ps, west, east);
    DivideBounds(SumLat(ps), n, south, north);
    DivideBounds(SumLng(ps), n, west, east);
  }

  lemma DivideBounds(s: real, n: real, lo: real, hi: real)
    requires n > 0.0
    requires n * lo <= s <= n * hi
    ensures lo <= s / n <= hi
  {
    assert s / n * n == s;
  }

  /** Of two points, the centroid is the midpoint. */
  lemma CentroidOfTwo(a: LatLng, b: LatLng)
    ensures Mean([a, b]) == LatLng((a.lat + b.lat) / 2.0, (a.lng + b.lng) / 2.0)
  {
    assert [a, b][..1] == [a];
    assert [a][..0] == [];
    assert SumLat([a]) == SumLat([]) + a.lat;
    assert SumLng([a]) == SumLng([]) + a.lng;
    assert SumLat([a, b]) == SumLat([a]) + b.lat;
    assert SumLng([a, b]) == SumLng([a]) + b.lng;
  }

  /** The two-click gesture (21.000, 105.800), (21.002, 105.804) has centroid (21.001, 105.802). */
  lemma CentroidExample()
    ensures Mean([LatLng(21.000, 105.800), LatLng(21.002, 105.804)]) == LatLng(21.001, 105.802)
  {
    CentroidOfTwo(LatLng(21.000, 105.800), LatLng(21.002, 105.804));
  }
}
