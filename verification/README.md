# Flood-aware routing: client coordination and blocked-edge bookkeeping

A user picks a start and a goal on a map of Ha Dinh (Hanoi), marks flooded
road stretches, and asks the backend for a route that avoids them. This
project models, in Dafny, the three sequential cores of that system and
proves properties of them:

- **Snapping** (`Geo`): a map click is replaced by the loaded graph node of
  least squared planar distance, the first such node in list order; with no
  nodes loaded the click is kept. `Geo` also holds the centroid of a flood
  gesture.
- **The two client pages** as state machines over immutable records:
  - `OpenClient` models `Fontend/static/script.js`. Flood clicks accumulate,
    and a finish (the button, leaving flood mode, or a route request)
    submits them as one region. At most one submission is in flight. A route
    request waits behind a pending submission.
  - `FixedClient` models `static/script.js`. The second flood click commits
    a two-point segment at once. Route requests have no barrier.
  - Each `async` function is split into a start transition and a settle
    transition, and the network outcome is a parameter of the settle. The
    page's requests are recorded in an append-only log (`sent`), so "no POST
    was made" is a statement about that log.
- **The backend's blocked-edge bookkeeping** (`app.py`):
  - `Blocked` holds the blocked set: `add_blocked` rejects two endpoints
    that snap to the same node, otherwise inserts the path's edges in both
    directions; `clear_blocked` empties the set.
  - `Routing` holds `find_path`: it builds the request copy of the graph
    (edges removed for `bfs`, lengths ×100 per naming member otherwise),
    dispatches on the algorithm name, and sums the route's length.
  - The graph is a map from node pairs to the lengths of their parallel
    edges. Snapped node ids, the library's path and its undirected view are
    inputs.

Coordinates and lengths are `real`: the model's arithmetic is exact, where
the source uses IEEE-754 doubles.

Two details of the code shape the model:
- `finishFloodArea` with fewer than two points only alerts and keeps the
  buffer. Of the finish triggers, only `setSelectionMode` discards a short
  gesture. A returned `clearAllFloods` also empties the buffer, and the
  settle of a submission drops points clicked while it was in flight.
- The open-size client posts `{points: [...]}` to `/api/add_blocked`, but
  `add_blocked` in `app.py` reads `start` and `end`. Each side is modelled
  as written. The server side is modelled for the `{start, end}` shape the
  fixed-size client sends.

## Model

| member | source | states |
|---|---|---|
| `Geo.FindNearestNode` | Fontend/static/script.js:165-179 | with no nodes the click comes back unchanged; otherwise the result is the position of a node whose squared distance is ≤ every node's and strictly less than every earlier node's (the strict `<` keeps the first minimum) |
| `Geo.FirstNearestIndex` | Fontend/static/script.js:169-177 | the index the scan keeps over each longer prefix is a first nearest index |
| `Geo.FirstNearestUnique` | Fontend/static/script.js:173-176 | the strict-`<` tie-break leaves at most one first nearest index |
| `Geo.Snap` | Fontend/static/script.js:165-179 | the value the client state machines store for a click satisfies the snapping specification |
| `Geo.SnapIsFirstNearest` | static/script.js:175-189 | the fixed-size client's identical scan: a point meets the snapping specification exactly when it is the snapped value, so the specification determines the result |
| `Geo.ComputeCentroid` | Fontend/static/script.js:209-218 | the one-pass sums divided by the count give the arithmetic mean of the latitudes and of the longitudes |
| `Geo.CentroidInsideBox` | Fontend/static/script.js:209-218 | the centroid lies in every latitude/longitude box containing all the points |
| `Geo.CentroidOfTwo` | Fontend/static/script.js:209-218 | for two points the centroid is their midpoint |
| `Geo.CentroidExample` | Fontend/static/script.js:209-218 | the clicks (21.000, 105.800) and (21.002, 105.804) have centroid (21.001, 105.802) |
| `OpenClient.Init` | Fontend/static/script.js:8-13 | the page starts in start mode, with no endpoints, no nodes loaded, an empty buffer, nothing pending, no route or clear in flight, no drawn route, the selector's algorithm, and only the graph request sent |
| `OpenClient.ClickBeforeLoadKeepsCoordinates` | Fontend/static/script.js:166 | a click before the graph reply settles keeps its raw coordinates, since no node is loaded yet |
| `OpenClient.LoadSettled` | Fontend/static/script.js:53-84 | a reply with `nodes` replaces the node list; a reply without it, or a failed fetch, changes nothing |
| `OpenClient.MapClick` | Fontend/static/script.js:89-116 | a start-mode click overwrites only the start, a goal-mode click only the goal, each with the snapped point; a flood-mode click appends exactly one snapped point and keeps the earlier ones; in any other mode nothing changes |
| `OpenClient.FinishFloodArea` | Fontend/static/script.js:249-292 | with a submission pending it returns that submission and changes nothing; with fewer than two points it submits nothing and keeps the buffer; otherwise it posts a snapshot of the buffer and makes that snapshot the pending submission |
| `OpenClient.SubmissionSettled` | Fontend/static/script.js:277-291 | whether the POST succeeded or its error was caught, the buffer is emptied (points clicked meanwhile included) and the slot cleared; each waiting route request is then posted with the current endpoints and algorithm, and with an endpoint unset nothing is sent; every other field (mode, endpoints, nodes, algorithm, drawn route, clears in flight) is untouched |
| `OpenClient.SetSelectionMode` | Fontend/static/script.js:294-314 | leaving flood mode with two or more points finishes the gesture and with fewer discards it; entering flood mode empties the buffer; the new mode is set last; the endpoints never change |
| `OpenClient.RunPathfinding` | Fontend/static/script.js:121-145 | without both endpoints nothing is sent; with a pending submission the request waits on it; else with two or more points it first starts a submission and waits on that; otherwise it posts `{start, goal, algorithm, place}` at once |
| `OpenClient.RouteSettled` | Fontend/static/script.js:146-157 | a reply with a path replaces the drawn route; a reply without one or a transport failure leaves it |
| `OpenClient.ClearAllFloods` | Fontend/static/script.js:316-317 | the clear request is posted and nothing else changes yet |
| `OpenClient.ClearSettled` | Fontend/static/script.js:316-325 | once the clear POST has returned, the buffer and the drawn route are empty; if the fetch threw they stay; a pending submission is not touched |
| `OpenClient.InitSatisfiesInv` | Fontend/static/script.js:8-13 | the initial page satisfies the invariant |
| `OpenClient.StepPreservesInv` | Fontend/static/script.js:121-131 | every event keeps the invariant: a waiting route request always has a pending submission and both endpoints, and a pending submission always holds two or more points |
| `OpenClient.PlayPreservesInv` | Fontend/static/script.js:121-131 | the invariant holds after every playable event sequence |
| `OpenClient.StepAppends` | Fontend/static/script.js:251-291 | every event only appends to the request log |
| `OpenClient.NewRequestsCounts` | Fontend/static/script.js:127-131 | an event's new requests hold at most one submission; a submission is made only when none is pending and then becomes the pending one; routes are posted only when nothing remains pending; while a submission is pending only its settle posts routes |
| `OpenClient.SingleFlight` | Fontend/static/script.js:251-253 | an event adds at most one flood submission to the log, only when none was pending, and leaves it pending |
| `OpenClient.RouteBarrier` | Fontend/static/script.js:127-131 | an event that posts a route leaves nothing pending, and while a submission is pending no event except its settle posts a route |
| `OpenClient.TwoFinishesPostOnce` | Fontend/static/script.js:251-253 | two finish triggers before the first settles make exactly one POST, and the second returns the first's submission |
| `OpenClient.RunWaitsForSubmission` | Fontend/static/script.js:127-128 | a route request made while a submission is pending sends nothing until that settle, which then posts it after the submission |
| `OpenClient.RunSubmitsBufferFirst` | Fontend/static/script.js:129-131 | with two or more points buffered and nothing pending, a route request first submits the points and posts the route only at that submission's settle |
| `OpenClient.EndpointsOnlyMovedByClicks` | Fontend/static/script.js:294-314 | no sequence of events without clicks (mode switches, finishes, route requests, settles) moves either endpoint |
| `FixedClient.Init` | static/script.js:8-13 | the page starts in start mode with no endpoints, no nodes loaded, an empty buffer, no segments, no route or clear in flight, no drawn route, the selector's algorithm, and only the graph request sent |
| `FixedClient.LoadSettled` | static/script.js:47-78 | a reply with `nodes` replaces the node list; otherwise nothing changes |
| `FixedClient.MapClick` | static/script.js:83-134 | start- and goal-mode clicks overwrite only their endpoint with the snapped point; the first flood click buffers the snapped point; the second appends one segment `{start: p0, end: p1}`, keeps the earlier segments, sends that segment and empties the buffer |
| `FixedClient.SetSelectionMode` | static/script.js:211-217 | whatever the old and new mode, the buffer is emptied and nothing is sent |
| `FixedClient.RunPathfinding` | static/script.js:139-150 | without both endpoints nothing is sent; otherwise `{start, goal, algorithm, place}` is posted at once |
| `FixedClient.RouteSettled` | static/script.js:152-169 | a reply with a path replaces the drawn route; otherwise it stays |
| `FixedClient.ClearAllFloods` | static/script.js:219-220 | the clear request is posted |
| `FixedClient.ClearSettled` | static/script.js:219-225 | after the clear POST returns the segment list and drawn route are empty; the flood buffer is never touched |
| `FixedClient.BufferHoldsAtMostOne` | static/script.js:101-132 | between events the buffer holds at most one point, along any event sequence |
| `FixedClient.SegmentsOnlyGrow` | static/script.js:111-113 | without a successful clear the segment list only grows, keeps its earlier entries, and gains exactly one segment per "add blocked" request sent |
| `FixedClient.TwoClicksMakeOneSegment` | static/script.js:101-131 | two flood clicks from an empty buffer record and send one segment made of the two snapped points |
| `FixedClient.RunHasNoBarrier` | static/script.js:139-157 | with both endpoints set, a route request is posted by the click itself |
| `Blocked.AddPathHops` | app.py:57-61 | the loop over consecutive path pairs adds exactly the path's hops and their reverses |
| `Blocked.AddBlocked` | app.py:47-67 | two endpoints that snap to the same node give an error and leave the set unchanged; otherwise the path's hops are added in both directions, or `(u, v)` and `(v, u)` when the path search raised; the set only grows |
| `Blocked.AddBlockedKeepsSymmetric` | app.py:56-65 | `add_blocked` keeps the blocked set symmetric |
| `Blocked.FallbackIsDirectHop` | app.py:62-65 | the fallback blocks exactly what blocking the one-hop path `[u, v]` would |
| `Blocked.AddedPairs` | app.py:57-61 | a pair is blocked afterwards exactly when it was before or it is a hop of the path in either direction |
| `Blocked.ClearBlocked` | app.py:160-164 | the blocked set becomes empty and the call succeeds |
| `Routing.RemoveBlockedEdges` | app.py:81-88 | for `bfs` the copy keeps exactly the edges no blocked member names in either direction, with their lengths unchanged, whatever order the set is visited in |
| `Routing.ScaleBlockedEdges` | app.py:89-96 | for the other algorithms the copy has the same edges, each parallel length multiplied by 100 once per blocked member naming that pair (the member itself or its reverse) |
| `Routing.NothingBlockedLeavesGraph` | app.py:79-96 | after `clear_blocked` both request copies equal the graph |
| `Routing.SymmetricBlockScaledTwice` | app.py:89-96 | with the symmetric set `add_blocked` maintains, every blocked edge is scaled twice, ×10000 |
| `Routing.PenaltyNeverShortens` | app.py:89-96 | with non-negative lengths the penalised copy never makes a route shorter |
| `Routing.UnblockedRouteKeepsLength` | app.py:89-96 | a route none of whose hops is blocked in either direction has the same length on the penalised copy |
| `Routing.EdgeLength` | app.py:136-149 | the first parallel length of `u -> v`, else of `v -> u`, else 0; any non-zero result is one of the stored parallel lengths of the pair it was read from |
| `Routing.TotalLength` | app.py:136-153 | the loop sums, over consecutive pairs, the first parallel edge's length of `u -> v`, else of `v -> u` (the directed copy's retry, or the undirected view answering for either order), else 0; a path of fewer than two nodes has length 0 |
| `Routing.EdgeLengthEitherOrder` | app.py:136-141 | on an undirected view, which holds one edge list per unordered pair, a hop has the same length read in either order |
| `Routing.ReverseHopIsMeasured` | app.py:136-141 | a retry route `[2, 1]` over an edge stored as `1 -> 2` of 50 m counts its 50 m |
| `Routing.PathLengthSplit` | app.py:151-153 | a route's length is the sum of the lengths of its two legs at any intermediate node |
| `Routing.AlgorithmName` | app.py:74 | a missing or empty name means "astar"; otherwise the result is the name with each character lower-cased, position by position, so no upper-case letter remains |
| `Routing.AlgorithmNameStable` | app.py:74 | resolving an already resolved name gives it back |
| `Routing.UpperCaseBfsIsBfs` | app.py:74 | "BFS" selects breadth-first search |
| `Routing.FindPath` | app.py:69-159 | a null coordinate gives the missing-coordinates error; an unsupported name gives an error after the copy is penalised; a found route is reported with its length on the request copy; a "no path" result falls back to the undirected search, and a failed fallback reports a disconnected graph; any other raise is reported with its message; the graph itself is a value and never changes |
| `Routing.PenalisedLengthIsInflated` | app.py:150-153 | a 50 m blocked edge on an A* route is reported as 500 000 m |
| `Routing.PrunedRouteKeepsLength` | app.py:102-110 | a `bfs` route whose hops are edges of the pruned copy has its true length there, so only weighted routes are affected |
| `Routing.RouteWithRoadLength` | app.py:150-153 | as `find_path`, but every route, found directly or by the undirected retry, is reported with its length on the graph itself, independent of the blocked set |

## Findings

| source | as written | input that shows it | evidently intended | confidence | as-written member | corrected member |
|---|---|---|---|---|---|---|
| app.py:103-153 | `path_graph = G_temp` (or its undirected view after the retry at 116-117): the route's `total_length_m` is summed on the penalised copy, so each blocked edge the route uses counts 10000 times its length | graph with one edge 1→2 of 50 m, `add_blocked` between nodes 1 and 2, algorithm `astar`, route `[1, 2]`: reported length 500000, true length 50 | the displayed distance is the road length of the route, measured on `G`, for direct and retry routes alike | likely; not executed | `Routing.FindPath`, `Routing.PenalisedLengthIsInflated` | `Routing.RouteWithRoadLength` |

## Left out

- Leaflet rendering (markers, layers, preview and final circles, polylines, `fitBounds`), DOM access, `alert` and `console`: foreign UI calls with no effect on the modelled state.
- The load-map button's `location.reload()` ends the page: every modelled field (endpoints, buffer, pending submission, requests in flight, drawn route, segments) is thrown away. A reloaded page is a new session that starts at `Init` and sends a new graph request; the model follows one session.
- `computeRadiusMeters` and `updateFloodPreview`: they use Leaflet's geodesic `distanceTo` in floating point and only draw.
- `showResult` text formatting (`toFixed`, minutes): floating-point display formatting.
- `fetch`, JSON and HTTP: each call is a request appended to the log, and its outcome is the parameter of a settle event. The graph-load request is not counted in flight, because the page issues it once.
- The click guard `if (!snapped) return;`: with exact reals the first node always beats the initial `Infinity`, so the snapped point is never null.
- The open-size client's `blockedEdges`: that page only ever resets it to `[]`.
- Microtask order among the `runPathfinding` calls resumed by one settle: they all run before any further user event, and they post identical payloads, so the settle is one transition.
- osmnx graph download and projection, `ox.nearest_nodes`, and the networkx `astar_path`, `dijkstra_path` and `shortest_path` searches: library calls whose results (node ids, path, "no path" or other raise) are inputs.
- Routing.FindPath: the undirected graph of the fallback is an input view. The model does not derive it from the request copy with `to_undirected`, a library call whose merging of parallel keys it does not model, so the lengths it reports for retry routes are whatever that view holds. Routing.EdgeLengthEitherOrder states the one-list-per-pair shape such a view has, but the view is not required to have it.
- Flask routing, status codes and the `/api/load` and index handlers: replies are abstract result values.
- Concurrency between requests: each handler is one atomic step on the blocked set. `app.run(debug=True)` serves requests on threads, and the fixed-size client does not await its `add_blocked` POST. So `find_path` could iterate `blocked_edges` while `add_blocked` changes it (Python raises on a set changing size during iteration), or see `(a, b)` without `(b, a)` mid-loop. The symmetry that Blocked.AddBlockedKeepsSymmetric and Routing.SymmetricBlockScaledTwice rely on holds between handlers, not inside one.
- Parsing the `add_blocked` body: a body without `start`/`end`, such as the open-size client's `{points}`, makes `p1[0]` raise in `app.py`. The model takes the snapped nodes as inputs.
- Edges without a `length` attribute: osmnx gives every edge one. Such an edge would make the ×100 step raise and be skipped by `edge_length`; neither branch is modelled.
- The `edge_length` branch for a simple (non-multi) graph: every graph here is an osmnx multigraph.
- The `path is None` check in `find_path`: the networkx searches never return `None`.
- Routing.AlgorithmName: lower-cases ASCII letters only, whereas Python's `str.lower` also folds non-ASCII letters. The client's selector offers only ASCII names.
- Geo.ComputeCentroid: requires at least one point. JavaScript would return NaN for none, and every caller guards with two or more points.
