/** What the two map clients share: the selection modes and the requests they
    send to the backend. */
module Wire {

  import opened Geo

  /** The place name every request of the clients carries. */
  const FOCUS_PLACE: string := "Ha Dinh, Thanh Xuan, Hanoi"

  /** The selection mode. `Other` stands for any string other than "start",
      "goal" and "flood" handed to `setSelectionMode`: a click in it does nothing. */
  datatype Mode = Start | Goal | Flood | Other

  /** One HTTP request a client issues, in the shape of its JSON body. */
  datatype Request =
    | LoadGraph(place: string)                          // POST /api/load
    | AddBlockedPoints(points: seq<LatLng>)             // POST /api/add_blocked, open-size gesture
    | AddBlockedSegment(start: LatLng, end: LatLng)     // POST /api/add_blocked, two-point gesture
    | FindRoute(start: LatLng, goal: LatLng, algorithm: string, place: string)  // POST /api/path
    | ClearBlocked                                      // POST /api/clear_blocked

  /** The body of a route request: both endpoints, the selected algorithm and the place. */
  function RoutePayload(start: LatLng, goal: LatLng, algorithm: string): Request {
    FindRoute(start, goal, algorithm, FOCUS_PLACE)
  }

  /** How a route request settles, as the client reads the reply. */
  datatype RouteReply =
    | PathFound(path: seq<LatLng>)   // the reply has a `path` field
    | NoPath                         // the reply has no `path`; its `error` text is only alerted
    | TransportFailed                // the fetch or the JSON decoding threw

  /** Number of route requests in a request log. */
  function CountRoutes(log: seq<Request>): nat
    decreases |log|
  {
    if |log| == 0 then 0
    else CountRoutes(log[..|log| - 1]) + (if log[|log| - 1].FindRoute? then 1 else 0)
  }

  /** Number of "add blocked" requests (either shape) in a request log. */
  function CountSubmissions(log: seq<Request>): nat
    decreases |log|
  {
    if |log| == 0 then 0
    else
      CountSubmissions(log[..|log| - 1])
      + (if log[|log| - 1].AddBlockedPoints? || log[|log| - 1].AddBlockedSegment? then 1 else 0)
  }

  /** Counting is additive over concatenated logs. */
  lemma {:induction false} CountAppend(a: seq<Request>, b: seq<Request>)
    ensures CountRoutes(a + b) == CountRoutes(a) + CountRoutes(b)
    ensures CountSubmissions(a + b) == CountSubmissions(a) + CountSubmissions(b)
    decreases |b|
  {
    if |b| > 0 {
      var b' := b[..|b| - 1];
      assert (a + b)[..|a + b| - 1] == a + b';
      CountAppend(a, b');
    } else {
      assert a + b == a;
    }
  }

  /** One request, counted. */
  lemma CountOne(x: Request)
    ensures CountRoutes([x]) == (if x.FindRoute? then 1 else 0)
    ensures CountSubmissions([x]) == (if x.AddBlockedPoints? || x.AddBlockedSegment? then 1 else 0)
  {
    assert [x][..0] == [];
  }

  /** `n` copies of one request. */
  function Repeat(x: Request, n: nat): (r: seq<Request>)
    ensures |r| == n
    ensures forall i :: 0 <= i < n ==> r[i] == x
  {
    if n == 0 then [] else Repeat(x, n - 1) + [x]
  }

  /** `n` copies of a route request are `n` route requests and no submission. */
  lemma {:induction false} CountRepeatedRoute(x: Request, n: nat)
    requires x.FindRoute?
    ensures CountRoutes(Repeat(x, n)) == n
    ensures CountSubmissions(Repeat(x, n)) == 0
  {
    if n > 0 {
      CountRepeatedRoute(x, n - 1);
      CountAppend(Repeat(x, n - 1), [x]);
      assert [x][..0] == [];
    }
  }
}
