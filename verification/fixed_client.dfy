/** The fixed-size flood gesture client: a flood-mode click buffers one point,
    and the second click commits the pair at once as one blocked segment, sent
    to the backend without waiting for a reply. Route requests have no flood
    barrier, and switching mode always drops a half-made pair. */
module FixedClient {

  import opened Wrappers
  import opened Geo
  import opened Wire

  /** One committed flood segment, `{start, end}` as the client stores and sends it. */
  datatype Segment = Segment(start: LatLng, end: LatLng)

  /** The page's state, one field per global of the script (rendering layers left out). */
  datatype Client = Client(
    mode: Mode,                       // selectionMode
    start: Option<LatLng>,            // startLatLng
    goal: Option<LatLng>,             // goalLatLng
    nodes: seq<Node>,                 // nodeFeatures
    algorithm: string,                // current value of the algorithm selector
    floodPoints: seq<LatLng>,         // floodPointsTemp
    blockedEdges: seq<Segment>,       // blockedEdges
    routesInFlight: nat,              // route requests not yet answered
    clearsInFlight: nat,              // clear requests not yet answered
    shownRoute: seq<LatLng>,          // the points of the route polyline
    sent: seq<Request>)               // every request issued so far, in order

  /** The page just loaded: start mode, nothing chosen, the graph request sent. */
  function Init(algorithm: string): (c: Client)
    ensures c.mode == Start && c.start.None? && c.goal.None?
    ensures c.floodPoints == [] && c.blockedEdges == []
    ensures c.nodes == [] && c.algorithm == algorithm && c.routesInFlight == 0 && c.clearsInFlight == 0 && c.shownRoute == []
    ensures c.sent == [LoadGraph(FOCUS_PLACE)]
  {
    Client(Start, None, None, [], algorithm, [], [], 0, 0, [], [LoadGraph(FOCUS_PLACE)])
  }

  /** Settle of `loadMapData`: a reply with a `nodes` field replaces the node list. */
  function LoadSettled(c: Client, nodes: Option<seq<Node>>): (r: Client)
    ensures nodes.Some? ==> r.nodes == nodes.value
    ensures nodes.None? ==> r == c
    ensures r == c.(nodes := r.nodes)
  {
    match nodes
    case Some(ns) => c.(nodes := ns)
    case None => c
  }

  /** The map click handler. In flood mode the snapped point is buffered; when
      the buffer then holds exactly two points they become one segment, which
      is recorded, sent, and the buffer emptied. */
  function MapClick(c: Client, at: LatLng): (r: Client)
    ensures c.mode == Start ==>
      r.start.Some? && SnappedFrom(at, c.nodes, r.start.value) && r == c.(start := r.start)
    ensures c.mode == Goal ==>
      r.goal.Some? && SnappedFrom(at, c.nodes, r.goal.value) && r == c.(goal := r.goal)
    ensures c.mode == Flood && |c.floodPoints| == 0 ==>
      && |r.floodPoints| == 1 && SnappedFrom(at, c.nodes, r.floodPoints[0])
      && r == c.(floodPoints := r.floodPoints)
    ensures c.mode == Flood && |c.floodPoints| == 1 ==>
      && r.floodPoints == []
      && |r.blockedEdges| == |c.blockedEdges| + 1
      && r.blockedEdges[..|c.blockedEdges|] == c.blockedEdges
      && (var seg := r.blockedEdges[|c.blockedEdges|];
          && seg.start == c.floodPoints[0] && SnappedFrom(at, c.nodes, seg.end)
          && r.sent == c.sent + [AddBlockedSegment(seg.start, seg.end)])
      && r == c.(floodPoints := [], blockedEdges := r.blockedEdges, sent := r.sent)
    ensures c.mode == Other ==> r == c
  {
    var p := Snap(at, c.nodes);
    match c.mode
    case Start => c.(start := Some(p))
    case Goal => c.(goal := Some(p))
    case Flood =>
      var points := c.floodPoints + [p];
      if |points| == 2 then
        var seg := Segment(points[0], points[1]);
        c.(blockedEdges := c.blockedEdges + [seg],
           sent := c.sent + [AddBlockedSegment(seg.start, seg.end)],
           floodPoints := [])
      else
        c.(floodPoints := points)
    case Other => c
  }

  /** `setSelectionMode`: the mode is assigned and the buffer emptied, whatever
      the old and new modes; nothing is sent and the endpoints stay. */
  function SetSelectionMode(c: Client, m: Mode): (r: Client)
    ensures r.mode == m && r.floodPoints == []
    ensures r.sent == c.sent && r.start == c.start && r.goal == c.goal
    ensures r == c.(mode := m, floodPoints := [])
  {
    c.(mode := m, floodPoints := [])
  }

  /** How the synchronous part of `runPathfinding` ends. */
  datatype RunOutcome =
    | MissingEndpoints   // alert, no request
    | Posted             // the route request is on the wire

  /** Start of `runPathfinding`: without both endpoints nothing is sent;
      otherwise the route request goes out at once. */
  function RunPathfinding(c: Client): (r: (Client, RunOutcome))
    ensures (c.start.None? || c.goal.None?) <==> r.1 == MissingEndpoints
    ensures r.1 == MissingEndpoints ==> r.0 == c
    ensures r.1 == Posted ==>
      && r.0.sent == c.sent + [RoutePayload(c.start.value, c.goal.value, c.algorithm)]
      && r.0 == c.(sent := r.0.sent, routesInFlight := c.routesInFlight + 1)
  {
    if c.start.None? || c.goal.None? then
      (c, MissingEndpoints)
    else
      (c.(sent := c.sent + [RoutePayload(c.start.value, c.goal.value, c.algorithm)],
          routesInFlight := c.routesInFlight + 1), Posted)
  }

  /** Settle of a route request: a reply with a path replaces the drawn route. */
  function RouteSettled(c: Client, reply: RouteReply): (r: Client)
    requires c.routesInFlight > 0
    ensures r.routesInFlight == c.routesInFlight - 1
    ensures reply.PathFound? ==> r.shownRoute == reply.path
    ensures !reply.PathFound? ==> r.shownRoute == c.shownRoute
    ensures r == c.(routesInFlight := r.routesInFlight, shownRoute := r.shownRoute)
  {
    var shown := if reply.PathFound? then reply.path else c.shownRoute;
    c.(routesInFlight := c.routesInFlight - 1, shownRoute := shown)
  }

  /** Start of `clearAllFloods`: the clear request is posted. */
  function ClearAllFloods(c: Client): (r: Client)
    ensures r.sent == c.sent + [ClearBlocked]
    ensures r == c.(sent := r.sent, clearsInFlight := c.clearsInFlight + 1)
  {
    c.(sent := c.sent + [ClearBlocked], clearsInFlight := c.clearsInFlight + 1)
  }

  /** Settle of `clearAllFloods`: once the POST has returned the segment list
      and the drawn route are emptied; the flood buffer is not touched. If the
      fetch threw, the rest of the function never runs. */
  function ClearSettled(c: Client, ok: bool): (r: Client)
    requires c.clearsInFlight > 0
    ensures r.clearsInFlight == c.clearsInFlight - 1
    ensures ok ==> r.blockedEdges == [] && r.shownRoute == []
    ensures !ok ==> r.blockedEdges == c.blockedEdges && r.shownRoute == c.shownRoute
    ensures r.floodPoints == c.floodPoints
    ensures r == c.(clearsInFlight := r.clearsInFlight, blockedEdges := r.blockedEdges, shownRoute := r.shownRoute)
  {
    if ok then
      c.(clearsInFlight := c.clearsInFlight - 1, blockedEdges := [], shownRoute := [])
    else
      c.(clearsInFlight := c.clearsInFlight - 1)
  }

  // ---------------------------------------------------------------------------
  // The page as a state machine
  // ---------------------------------------------------------------------------

  datatype Event =
    | Loaded(nodes: Option<seq<Node>>)
    | Click(at: LatLng)
    | PickAlgorithm(name: string)
    | SetMode(mode: Mode)
    | RunButton
    | RouteSettles(reply: RouteReply)
    | ClearButton
    | ClearSettles(ok: bool)

  /** A settle event exists only for an operation that was started. */
  predicate Enabled(c: Client, e: Event) {
    match e
    case RouteSettles(_) => c.routesInFlight > 0
    case ClearSettles(_) => c.clearsInFlight > 0
    case _ => true
  }

  function Step(c: Client, e: Event): Client
    requires Enabled(c, e)
  {
    match e
    case Loaded(ns) => LoadSettled(c, ns)
    case Click(at) => MapClick(c, at)
    case PickAlgorithm(a) => c.(algorithm := a)
    case SetMode(m) => SetSelectionMode(c, m)
    case RunButton => RunPathfinding(c).0
    case RouteSettles(reply) => RouteSettled(c, reply)
    case ClearButton => ClearAllFloods(c)
    case ClearSettles(ok) => ClearSettled(c, ok)
  }

  /** `es` can be played from `c`, each event enabled when it arrives. */
  predicate Playable(c: Client, es: seq<Event>)
    decreases |es|
  {
    |es| == 0 || (Enabled(c, es[0]) && Playable(Step(c, es[0]), es[1..]))
  }

  function Play(c: Client, es: seq<Event>): Client
    requires Playable(c, es)
    decreases |es|
  {
    if |es| == 0 then c else Play(Step(c, es[0]), es[1..])
  }

  /** Between events the buffer holds at most one point. */
  lemma {:induction false} BufferHoldsAtMostOne(c: Client, es: seq<Event>)
    requires |c.floodPoints| <= 1 && Playable(c, es)
    ensures |Play(c, es).floodPoints| <= 1
    decreases |es|
  {
    if |es| > 0 {
      BufferHoldsAtMostOne(Step(c, es[0]), es[1..]);
    }
  }

  /** Each committed pair appends exactly one segment and keeps the earlier
      ones: without a successful clear, the segment list only grows, one
      segment per "add blocked" request sent. */
  lemma {:induction false} SegmentsOnlyGrow(c: Client, es: seq<Event>)
    requires Playable(c, es)
    requires forall i :: 0 <= i < |es| ==> es[i] != ClearSettles(true)
    ensures |c.blockedEdges| <= |Play(c, es).blockedEdges|
    ensures Play(c, es).blockedEdges[..|c.blockedEdges|] == c.blockedEdges
    ensures |Play(c, es).sent| >= |c.sent| && Play(c, es).sent[..|c.sent|] == c.sent
    ensures |Play(c, es).blockedEdges| - |c.blockedEdges|
         == CountSubmissions(Play(c, es).sent) - CountSubmissions(c.sent)
    decreases |es|
  {
    if |es| > 0 {
      var c1 := Step(c, es[0]);
      var added := c1.sent[|c.sent|..];
      assert c1.sent == c.sent + added;
      CountAppend(c.sent, added);
      if |added| == 1 {
        CountOne(added[0]);
        assert added == [added[0]];
      }
      SegmentsOnlyGrow(c1, es[1..]);
      var r := Play(c1, es[1..]);
      assert r.blockedEdges[..|c.blockedEdges|] == r.blockedEdges[..|c1.blockedEdges|][..|c.blockedEdges|];
      assert r.sent[..|c.sent|] == r.sent[..|c1.sent|][..|c.sent|];
    }
  }

  /** Two flood clicks from an empty buffer make one segment from the two
      snapped points and send it. */
  lemma TwoClicksMakeOneSegment(c: Client, a: LatLng, b: LatLng)
    requires c.mode == Flood && c.floodPoints == []
    ensures
      var r := MapClick(MapClick(c, a), b);
      && r.floodPoints == []
      && r.blockedEdges == c.blockedEdges + [Segment(Snap(a, c.nodes), Snap(b, c.nodes))]
      && r.sent == c.sent + [AddBlockedSegment(Snap(a, c.nodes), Snap(b, c.nodes))]
  {
  }

  /** A route request never waits: it is posted by the click itself. */
  lemma RunHasNoBarrier(c: Client)
    requires c.start.Some? && c.goal.Some?
    ensures CountRoutes(RunPathfinding(c).0.sent) == CountRoutes(c.sent) + 1
  {
    var x := RoutePayload(c.start.value, c.goal.value, c.algorithm);
    CountAppend(c.sent, [x]);
    assert [x][..0] == [];
  }
}
