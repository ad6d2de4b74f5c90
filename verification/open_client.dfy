/** The open-size flood gesture client: clicks in flood mode accumulate points
    until an explicit "finish" or a switch out of flood mode submits them all
    as one region, at most one submission is in flight at a time, and a route
    request waits behind a pending submission.

    Each `async` function of the client is split into the synchronous part that
    runs when it is called (a start transition) and the part that runs after
    its `await` (a settle transition, whose network outcome is a parameter).
    JavaScript runs one handler at a time, so the transitions never interleave. */
module OpenClient {

  import opened Wrappers
  import opened Geo
  import opened Wire

  /** The page's state, one field per global of the script (rendering layers left out). */
  datatype Client = Client(
    mode: Mode,                       // selectionMode
    start: Option<LatLng>,            // startLatLng
    goal: Option<LatLng>,             // goalLatLng
    nodes: seq<Node>,                 // nodeFeatures
    algorithm: string,                // current value of the algorithm selector
    floodPoints: seq<LatLng>,         // floodPointsTemp
    pending: Option<seq<LatLng>>,     // floodSubmitPromise: the points it posted
    waitingRoutes: nat,               // runPathfinding calls suspended behind it
    routesInFlight: nat,              // route requests not yet answered
    clearsInFlight: nat,              // clear requests not yet answered
    shownRoute: seq<LatLng>,          // the points of the route polyline
    sent: seq<Request>)               // every request issued so far, in order

  /** The page just loaded: start mode, nothing chosen, the graph request sent. */
  function Init(algorithm: string): (c: Client)
    ensures c.mode == Start && c.start.None? && c.goal.None?
    ensures c.floodPoints == [] && c.pending.None? && c.waitingRoutes == 0
    ensures c.nodes == [] && c.algorithm == algorithm && c.routesInFlight == 0 && c.clearsInFlight == 0 && c.shownRoute == []
    ensures c.sent == [LoadGraph(FOCUS_PLACE)]
  {
    Client(Start, None, None, [], algorithm, [], None, 0, 0, 0, [], [LoadGraph(FOCUS_PLACE)])
  }

  /** Before the graph reply has settled no node is loaded, so a click keeps
      its raw coordinates. */
  lemma ClickBeforeLoadKeepsCoordinates(algorithm: string, at: LatLng)
    ensures MapClick(Init(algorithm), at).start == Some(at)
  {
  }

  /** Settle of `loadMapData`: a reply with a `nodes` field replaces the node
      list; a reply without one, or a failed fetch, changes nothing. */
  function LoadSettled(c: Client, nodes: Option<seq<Node>>): (r: Client)
    ensures nodes.Some? ==> r.nodes == nodes.value
    ensures nodes.None? ==> r == c
    ensures r == c.(nodes := r.nodes)
  {
    match nodes
    case Some(ns) => c.(nodes := ns)
    case None => c
  }

  /** The map click handler: the click is snapped, then dispatched on the mode. */
  function MapClick(c: Client, at: LatLng): (r: Client)
    ensures c.mode == Start ==>
      r.start.Some? && SnappedFrom(at, c.nodes, r.start.value) && r == c.(start := r.start)
    ensures c.mode == Goal ==>
      r.goal.Some? && SnappedFrom(at, c.nodes, r.goal.value) && r == c.(goal := r.goal)
    ensures c.mode == Flood ==>
      && |r.floodPoints| == |c.floodPoints| + 1
      && r.floodPoints[..|c.floodPoints|] == c.floodPoints
      && SnappedFrom(at, c.nodes, r.floodPoints[|c.floodPoints|])
      && r == c.(floodPoints := r.floodPoints)
    ensures c.mode == Other ==> r == c
  {
    var p := Snap(at, c.nodes);
    match c.mode
    case Start => c.(start := Some(p))
    case Goal => c.(goal := Some(p))
    case Flood => c.(floodPoints := c.floodPoints + [p])
    case Other => c
  }

  /** The value `finishFloodArea` resolves to. */
  datatype Finish =
    | Joined(points: seq<LatLng>)    // the submission already pending, returned as is
    | TooFewPoints                   // fewer than two points: alert, nothing submitted
    | Started(points: seq<LatLng>)   // a new submission posting this snapshot

  /** Start of `finishFloodArea`. */
  function FinishFloodArea(c: Client): (r: (Client, Finish))
    ensures c.pending.Some? ==> r == (c, Joined(c.pending.value))
    ensures c.pending.None? && |c.floodPoints| < 2 ==> r == (c, TooFewPoints)
    ensures c.pending.None? && |c.floodPoints| >= 2 ==>
      && r.1 == Started(c.floodPoints)
      && r.0.pending == Some(c.floodPoints)
      && r.0.sent == c.sent + [AddBlockedPoints(c.floodPoints)]
      && r.0 == c.(pending := r.0.pending, sent := r.0.sent)
  {
    if c.pending.Some? then
      (c, Joined(c.pending.value))
    else if |c.floodPoints| < 2 then
      (c, TooFewPoints)
    else
      var points := c.floodPoints;
      (c.(pending := Some(points), sent := c.sent + [AddBlockedPoints(points)]), Started(points))
  }

  /** The route requests that `runPathfinding` calls waiting on the flood
      submission issue when they resume. A resumed call reads the endpoints
      afresh; were one unset it would throw before posting. */
  function Resumed(c: Client): seq<Request> {
    if c.start.Some? && c.goal.Some? then
      Repeat(RoutePayload(c.start.value, c.goal.value, c.algorithm), c.waitingRoutes)
    else []
  }

  /** Settle of the pending submission, whether its POST succeeded or failed:
      the buffer (with any point clicked meanwhile) is emptied, the slot is
      cleared, and every route request waiting on it is posted. */
  function SubmissionSettled(c: Client): (r: Client)
    requires c.pending.Some?
    ensures r.floodPoints == [] && r.pending.None? && r.waitingRoutes == 0
    ensures r.mode == c.mode && r.start == c.start && r.goal == c.goal
    ensures c.start.Some? && c.goal.Some? ==>
      r.sent == c.sent + Repeat(RoutePayload(c.start.value, c.goal.value, c.algorithm), c.waitingRoutes)
    ensures !(c.start.Some? && c.goal.Some?) ==> r.sent == c.sent
    ensures r.routesInFlight == c.routesInFlight + |r.sent| - |c.sent|
    ensures r == c.(floodPoints := [], pending := None, waitingRoutes := 0,
                    routesInFlight := r.routesInFlight, sent := r.sent)
  {
    var resumed := Resumed(c);
    c.(floodPoints := [], pending := None, waitingRoutes := 0,
       routesInFlight := c.routesInFlight + |resumed|, sent := c.sent + resumed)
  }

  /** `setSelectionMode`: leaving flood mode finishes a gesture of two or more
      points and discards a shorter one; entering flood mode empties the buffer;
      only then is the mode assigned. The endpoints are never touched. */
  function SetSelectionMode(c: Client, m: Mode): (r: Client)
    ensures r.mode == m && r.start == c.start && r.goal == c.goal
    ensures c.mode == Flood && m != Flood && |c.floodPoints| >= 2 ==>
      r == FinishFloodArea(c).0.(mode := m)
    ensures c.mode == Flood && m != Flood && |c.floodPoints| < 2 ==>
      r == c.(floodPoints := [], mode := m)
    ensures c.mode != Flood && m == Flood ==> r == c.(floodPoints := [], mode := m)
    ensures (c.mode == Flood <==> m == Flood) ==> r == c.(mode := m)
  {
    var left :=
      if c.mode == Flood && m != Flood then
        if |c.floodPoints| >= 2 then FinishFloodArea(c).0 else c.(floodPoints := [])
      else c;
    var entered := if m == Flood && c.mode != Flood then left.(floodPoints := []) else left;
    entered.(mode := m)
  }

  /** How the synchronous part of `runPathfinding` ends. */
  datatype RunOutcome =
    | MissingEndpoints   // alert, no request
    | Waiting            // suspended behind the flood submission
    | Posted             // the route request is on the wire

  /** Start of `runPathfinding`. */
  function RunPathfinding(c: Client): (r: (Client, RunOutcome))
    ensures (c.start.None? || c.goal.None?) ==> r == (c, MissingEndpoints)
    ensures c.start.Some? && c.goal.Some? && c.pending.Some? ==>
      r == (c.(waitingRoutes := c.waitingRoutes + 1), Waiting)
    ensures c.start.Some? && c.goal.Some? && c.pending.None? && |c.floodPoints| >= 2 ==>
      && r.1 == Waiting
      && r.0 == FinishFloodArea(c).0.(waitingRoutes := c.waitingRoutes + 1)
    ensures c.start.Some? && c.goal.Some? && c.pending.None? && |c.floodPoints| < 2 ==>
      && r.1 == Posted
      && r.0.sent == c.sent + [RoutePayload(c.start.value, c.goal.value, c.algorithm)]
      && r.0 == c.(sent := r.0.sent, routesInFlight := c.routesInFlight + 1)
  {
    if c.start.None? || c.goal.None? then
      (c, MissingEndpoints)
    else if c.pending.Some? then
      (c.(waitingRoutes := c.waitingRoutes + 1), Waiting)
    else if |c.floodPoints| >= 2 then
      (FinishFloodArea(c).0.(waitingRoutes := c.waitingRoutes + 1), Waiting)
    else
      (c.(sent := c.sent + [RoutePayload(c.start.value, c.goal.value, c.algorithm)],
          routesInFlight := c.routesInFlight + 1), Posted)
  }

  /** Settle of a route request: a reply with a path replaces the drawn route;
      a reply without one or a transport failure only alerts. */
  function RouteSettled(c: Client, reply: RouteReply): (r: Client)
    requires c.routesInFlight > 0
    ensures r.routesInFlight == c.routesInFlight - 1
    ensures reply.PathFound? ==> r.shownRoute == reply.path
    ensures !reply.PathFound? ==> r.shownRoute == c.shownRoute
    ensures r == c.(routesInFlight := r.routesInFlight, shownRoute := r.shownRoute)
  {
    var shown := if reply.PathFound? then reply.path else c.shownRoute;
    c.(routesInFlight := c.routesInFlight - 1, shownRoute := shown)
  }

  /** Start of `clearAllFloods`: the clear request is posted. */
  function ClearAllFloods(c: Client): (r: Client)
    ensures r.sent == c.sent + [ClearBlocked]
    ensures r == c.(sent := r.sent, clearsInFlight := c.clearsInFlight + 1)
  {
    c.(sent := c.sent + [ClearBlocked], clearsInFlight := c.clearsInFlight + 1)
  }

  /** Settle of `clearAllFloods`: once the POST has returned, the flood buffer
      and the drawn route are emptied; if the fetch threw, the rest of the
      function never runs. A pending submission is left alone. */
  function ClearSettled(c: Client, ok: bool): (r: Client)
    requires c.clearsInFlight > 0
    ensures r.clearsInFlight == c.clearsInFlight - 1
    ensures ok ==> r.floodPoints == [] && r.shownRoute == []
    ensures !ok ==> r.floodPoints == c.floodPoints && r.shownRoute == c.shownRoute
    ensures r.pending == c.pending && r.mode == c.mode && r.start == c.start && r.goal == c.goal
    ensures r == c.(clearsInFlight := r.clearsInFlight, floodPoints := r.floodPoints, shownRoute := r.shownRoute)
  {
    if ok then
      c.(clearsInFlight := c.clearsInFlight - 1, floodPoints := [], shownRoute := [])
    else
      c.(clearsInFlight := c.clearsInFlight - 1)
  }

  // ---------------------------------------------------------------------------
  // The page as a state machine
  // ---------------------------------------------------------------------------

  datatype Event =
    | Loaded(nodes: Option<seq<Node>>)
    | Click(at: LatLng)
    | PickAlgorithm(name: string)
    | FinishButton
    | SubmissionSettles
    | SetMode(mode: Mode)
    | RunButton
    | RouteSettles(reply: RouteReply)
    | ClearButton
    | ClearSettles(ok: bool)

  /** A settle event exists only for an operation that was started. */
  predicate Enabled(c: Client, e: Event) {
    match e
    case SubmissionSettles => c.pending.Some?
    case RouteSettles(_) => c.routesInFlight > 0
    case ClearSettles(_) => c.clearsInFlight > 0
    case _ => true
  }

  function Step(c: Client, e: Event): Client
    requires Enabled(c, e)
  {
    match e
    case Loaded(ns) => LoadSettled(c, ns)
    case Click(at) => MapClick(c, at)
    case PickAlgorithm(a) => c.(algorithm := a)
    case FinishButton => FinishFloodArea(c).0
    case SubmissionSettles => SubmissionSettled(c)
    case SetMode(m) => SetSelectionMode(c, m)
    case RunButton => RunPathfinding(c).0
    case RouteSettles(reply) => RouteSettled(c, reply)
    case ClearButton => ClearAllFloods(c)
    case ClearSettles(ok) => ClearSettled(c, ok)
  }

  /** What holds between any two events: a waiting route request always has a
      pending submission to wait on and both endpoints to post, and a pending
      submission always posted at least two points. */
  predicate Inv(c: Client) {
    && (c.waitingRoutes > 0 ==> c.pending.Some? && c.start.Some? && c.goal.Some?)
    && (c.pending.Some? ==> |c.pending.value| >= 2)
  }

  lemma InitSatisfiesInv(algorithm: string)
    ensures Inv(Init(algorithm))
  {
  }

  lemma StepPreservesInv(c: Client, e: Event)
    requires Inv(c) && Enabled(c, e)
    ensures Inv(Step(c, e))
  {
  }

  /** The requests an event issues. */
  function NewRequests(c: Client, e: Event): seq<Request>
    requires Enabled(c, e)
  {
    match e
    case SubmissionSettles => Resumed(c)
    case FinishButton =>
      if c.pending.None? && |c.floodPoints| >= 2 then [AddBlockedPoints(c.floodPoints)] else []
    case SetMode(m) =>
      if c.mode == Flood && m != Flood && c.pending.None? && |c.floodPoints| >= 2
      then [AddBlockedPoints(c.floodPoints)] else []
    case RunButton =>
      if c.start.None? || c.goal.None? || c.pending.Some? then []
      else if |c.floodPoints| >= 2 then [AddBlockedPoints(c.floodPoints)]
      else [RoutePayload(c.start.value, c.goal.value, c.algorithm)]
    case ClearButton => [ClearBlocked]
    case _ => []
  }

  /** Every event only appends to the request log, and what it appends is `NewRequests`. */
  lemma StepAppends(c: Client, e: Event)
    requires Enabled(c, e)
    ensures Step(c, e).sent == c.sent + NewRequests(c, e)
  {
  }

  /** The requests an event issues hold at most one submission, issued only
      when none is pending, and route requests only from the settle of the
      pending submission or when no submission is pending or started. */
  lemma NewRequestsCounts(c: Client, e: Event)
    requires Inv(c) && Enabled(c, e)
    ensures CountSubmissions(NewRequests(c, e)) <= 1
    ensures CountSubmissions(NewRequests(c, e)) == 1 ==> c.pending.None? && Step(c, e).pending.Some?
    ensures CountRoutes(NewRequests(c, e)) > 0 ==> Step(c, e).pending.None?
    ensures c.pending.Some? && !e.SubmissionSettles? ==> CountRoutes(NewRequests(c, e)) == 0
  {
    var added := NewRequests(c, e);
    if e.SubmissionSettles? {
      if c.start.Some? && c.goal.Some? {
        CountRepeatedRoute(RoutePayload(c.start.value, c.goal.value, c.algorithm), c.waitingRoutes);
      }
    } else if |added| == 1 {
      CountOne(added[0]);
      assert added == [added[0]];
    }
  }

  /** Single flight: an event posts at most one flood submission, and only
      when none is pending; the one it posts is then the pending one. */
  lemma SingleFlight(c: Client, e: Event)
    requires Inv(c) && Enabled(c, e)
    ensures CountSubmissions(Step(c, e).sent) <= CountSubmissions(c.sent) + 1
    ensures CountSubmissions(Step(c, e).sent) == CountSubmissions(c.sent) + 1 ==>
      c.pending.None? && Step(c, e).pending.Some?
  {
    StepAppends(c, e);
    CountAppend(c.sent, NewRequests(c, e));
    NewRequestsCounts(c, e);
  }

  /** Ordering barrier: no route request goes out while a flood submission is
      pending. A route is posted only by an event after which nothing is
      pending, and while a submission is pending only its settle posts routes. */
  lemma RouteBarrier(c: Client, e: Event)
    requires Inv(c) && Enabled(c, e)
    ensures CountRoutes(Step(c, e).sent) > CountRoutes(c.sent) ==> Step(c, e).pending.None?
    ensures c.pending.Some? && !e.SubmissionSettles? ==>
      CountRoutes(Step(c, e).sent) == CountRoutes(c.sent)
  {
    StepAppends(c, e);
    CountAppend(c.sent, NewRequests(c, e));
    NewRequestsCounts(c, e);
  }

  /** Two finish triggers before the first submission settles (the button, a
      mode switch, a route request) make exactly one POST, and the second
      returns the first's submission. */
  lemma TwoFinishesPostOnce(c: Client)
    requires c.pending.None? && |c.floodPoints| >= 2
    ensures FinishFloodArea(c).1 == Started(c.floodPoints)
    ensures FinishFloodArea(FinishFloodArea(c).0).1 == Joined(c.floodPoints)
    ensures CountSubmissions(FinishFloodArea(FinishFloodArea(c).0).0.sent) == CountSubmissions(c.sent) + 1
  {
    var c1 := FinishFloodArea(c).0;
    CountAppend(c.sent, [AddBlockedPoints(c.floodPoints)]);
    assert [AddBlockedPoints(c.floodPoints)][..0] == [];
  }

  /** A route request made while a submission is pending is posted by that
      submission's settle, after the submission itself, with the endpoints and
      algorithm current at the settle. */
  lemma RunWaitsForSubmission(c: Client)
    requires Inv(c) && c.start.Some? && c.goal.Some? && c.pending.Some?
    ensures
      var w := RunPathfinding(c).0;
      var s := SubmissionSettled(w);
      && w.sent == c.sent
      && s.sent == c.sent + Repeat(RoutePayload(c.start.value, c.goal.value, c.algorithm), c.waitingRoutes + 1)
  {
  }

  /** A route request with two or more points buffered and nothing pending
      first submits those points, then waits for that submission. */
  lemma RunSubmitsBufferFirst(c: Client)
    requires c.start.Some? && c.goal.Some? && c.pending.None? && |c.floodPoints| >= 2 && c.waitingRoutes == 0
    ensures
      var w := RunPathfinding(c).0;
      var s := SubmissionSettled(w);
      && w.sent == c.sent + [AddBlockedPoints(c.floodPoints)]
      && s.sent == c.sent + [AddBlockedPoints(c.floodPoints), RoutePayload(c.start.value, c.goal.value, c.algorithm)]
      && s.floodPoints == []
  {
    var w := RunPathfinding(c).0;
    assert Repeat(RoutePayload(c.start.value, c.goal.value, c.algorithm), 1)
        == [RoutePayload(c.start.value, c.goal.value, c.algorithm)];
  }

  // ---------------------------------------------------------------------------
  // Traces
  // ---------------------------------------------------------------------------

  /** `es` can be played from `c`, each event enabled when it arrives. */
  predicate Playable(c: Client, es: seq<Event>)
    decreases |es|
  {
    |es| == 0 || (Enabled(c, es[0]) && Playable(Step(c, es[0]), es[1..]))
  }

  function Play(c: Client, es: seq<Event>): Client
    requires Playable(c, es)
    decreases |es|
  {
    if |es| == 0 then c else Play(Step(c, es[0]), es[1..])
  }

  /** The invariant holds after every playable trace from a state that has it. */
  lemma {:induction false} PlayPreservesInv(c: Client, es: seq<Event>)
    requires Inv(c) && Playable(c, es)
    ensures Inv(Play(c, es))
    decreases |es|
  {
    if |es| > 0 {
      StepPreservesInv(c, es[0]);
      PlayPreservesInv(Step(c, es[0]), es[1..]);
    }
  }

  /** Mode switches and route requests never move the endpoints; only clicks
      in start or goal mode do. */
  lemma {:induction false} EndpointsOnlyMovedByClicks(c: Client, es: seq<Event>)
    requires Playable(c, es)
    requires forall i :: 0 <= i < |es| ==> !es[i].Click?
    ensures Play(c, es).start == c.start && Play(c, es).goal == c.goal
    decreases |es|
  {
    if |es| > 0 {
      EndpointsOnlyMovedByClicks(Step(c, es[0]), es[1..]);
    }
  }
}
