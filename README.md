# CONGA testbed: fabric, route generator and batched driver in Dafny

This project models the core of `htsim/test_conga_testbed.cpp`, the htsim test harness that
builds a two-tier CONGA-style datacenter fabric and drives flows across it. The fabric has
24 leaf switches (`N_LEAF`), 12 core switches (`N_CORE`) and 32 servers per leaf (`N_SERVER`).
The model covers three parts:

- **Topology builder.** Nested loops fill four matrices of queue and pipe pointers,
  `leaf_queues`/`leaf_pipes` (leaf × core) and `core_queues`/`core_pipes` (core × leaf). Each
  core row is resized lazily during the first leaf's pass. After an empty second pair of loops,
  a third pair of nested loops pushes
  one `TcpSrc` and one `TcpSink` per server into `srcs` and `sinks`, and builds that server's
  static forward and reverse routes.
- **Route generator** (`routeGen`). From a flow's `src_id` and `dst_id` it derives the source
  leaf (`src_id / N_SERVER`), the destination leaf (`dst_id / N_SERVER`) and the core
  (`src_id % N_CORE`). It then builds a fresh 6-hop forward route and a fresh 5-hop reverse
  route.
- **Driver.** It runs the event list in batches of `PAUSE_INTERVAL = 1000` events. It returns
  when the event list runs dry, and after each full batch it stops unless the operator answers
  `y` or `Y`.

Files:

- `fabric.dfy`: module `Fabric` holds the dimensions, the `Server` and `Hop` values, the index
  arithmetic and the round-robin balance of core selection.
- `routes.dfy`: module `Routes` holds the forward and reverse route shapes, the routes of a flow
  and of a server, and hop adjacency (`Feeds`, `IsPath`).
- `testbed.dfy`: module `CongaTestbed` holds class `Testbed`, whose fields are the matrices and
  vectors. Its methods are the build loops, the endpoint loop and `RouteGen`.
- `driver.dfy`: module `SimulationDriver` holds the batched event loop.

Modelling choices:

- Every heap object the testbed allocates is a `Hop` value that names what it was created for.
  For example, `LeafQueue(l, c)` is the `FairQueue` on link leaf `l` → core `c`, and
  `Sink(Server(l, s))` is the `TcpSink` of server `s` on leaf `l`. The fabric's queues and pipes
  and the servers' sources and sinks are distinct objects with distinct values. The one
  exception is the end-host queue: `SrcQueue(s)` stands for every `FairQueue` the testbed puts in
  front of server `s`, both the one the endpoint loop creates and the new one each `routeGen`
  call creates.
- A matrix is a `seq<seq<Option<Hop>>>`. `None` is the null pointer that `vector::resize` puts
  in a new slot.
- The ghost field `allocations` records the fabric queues and pipes in the order the build
  loops allocate them.
- Each body of the two build loops and of the endpoint loop is its own method (`BuildLeafLinks`,
  `BuildLink`, `CreateEndpoint`). This keeps each proof small. The statements are those of the
  source, in the source's order.
- The event list is the number `pending` of events the run will process, counting those that
  running an event schedules during the run; the driver only sees how many `doNextEvent()`
  calls return true before the first false, so this count describes it exactly. The
  operator's replies are an input sequence. A prompt after the replies run out reads an empty
  reply, as `cin >> response` does at end of input.

The intended behaviour of the testbed (a mirrored reverse route, endpoints sampled with
`src != dst`) differs from the code in places, and the code leaves out some alternatives the
testbed allows. The model follows the code:

- The reverse route is meant to be the hop-by-hop mirror of the forward route. The
  code's reverse route is not a mirror. It goes `core_queues[core][src_leaf]`,
  `core_pipes[core][src_leaf]`, `leaf_queues[src_leaf][core]`, `leaf_pipes[src_leaf][core]`,
  `srcs[src_id]`. It never visits the destination leaf. Its fourth hop is the pipe of the link
  leaf → core, and a route is followed element by element, so that pipe hands the ACK straight to
  `srcs[src_id]`. Under the fabric's link adjacency (`Routes.Feeds`) that step is not a link:
  the pipe's link ends at the core switch, not at the source's leaf. `Routes.ReversePathBroken`
  and `Routes.FlowRouteShape` state this.
- Endpoints are meant to be sampled at random with `src != dst`. The code does not sample: it
  takes both ids from its caller and never compares them.
- The core is chosen round-robin, by `src_id % N_CORE` in the route generator and by
  `srv % N_CORE` in the static routes. A random core choice, the alternative strategy, is not
  what the code does, so it is not modelled.
- The forward route has 6 hops, with an end-host send queue before the source leaf, and the
  reverse route has 5. Folding the send queue into the endpoint, which would give 5-hop forward
  routes, is not what the code does, so it is not modelled.
- A configuration error is meant to abort the build. The code has fixed, positive
  dimensions and no error path.

## Model

| member | source | states |
|---|---|---|
| `Fabric.ServerIndex` | htsim/test_conga_testbed.cpp:100-110 | the endpoint loop puts server `(leaf, srv)` at position `leaf * N_SERVER + srv` of `srcs`/`sinks`, which is below `N_LEAF * N_SERVER` and divides back into `leaf` and `srv` |
| `Fabric.LeafOf` | htsim/test_conga_testbed.cpp:203-204 | for an id below `N_LEAF * N_SERVER`, `id / N_SERVER` is a leaf index below `N_LEAF`, and the id lies in that leaf's block of `N_SERVER` ids |
| `Fabric.ServerOf` | htsim/test_conga_testbed.cpp:109-110 | the server that `srcs[id]`/`sinks[id]` belongs to is a valid server whose position is `id` |
| `Fabric.ServerIndexRoundTrip` | htsim/test_conga_testbed.cpp:100-110 | position and server are inverse: every valid server is the server of its own position |
| `Fabric.CoreOf` | htsim/test_conga_testbed.cpp:205 | the chosen core is below `N_CORE` for every source id, and is congruent to the source id modulo `N_CORE` |
| `Fabric.CoreHitsSplit` | htsim/test_conga_testbed.cpp:205 | the number of times a core is chosen over two adjacent windows of source ids is the sum over each window |
| `Fabric.CoreHitsWindow` | htsim/test_conga_testbed.cpp:205 | within at most `N_CORE` consecutive source ids a core is chosen once if its offset `(core - base) mod N_CORE` falls in the window, and otherwise never |
| `Fabric.CoreHitsBalanced` | htsim/test_conga_testbed.cpp:205 | over any `n` consecutive source ids each core is chosen exactly `n / N_CORE` times, plus one for the first `n % N_CORE` cores counted from the first id's core |
| `Fabric.EachCoreOncePerWindow` | htsim/test_conga_testbed.cpp:205 | any `N_CORE` consecutive source ids choose each core exactly once |
| `Fabric.CoreSelectionFair` | htsim/test_conga_testbed.cpp:205 | no two cores' counts over a window differ by more than one, and over a multiple of `N_CORE` ids they are equal |
| `Routes.ForwardPathConnected` | htsim/test_conga_testbed.cpp:215-220 | the forward shape (queue, leaf uplink, core downlink, sink) is a connected path if and only if its first queue enters the source leaf and its sink hangs off the destination leaf |
| `Routes.ReversePathBroken` | htsim/test_conga_testbed.cpp:223-227 | under the fabric's link adjacency the reverse shape is never a connected path to a source, because its last pipe belongs to a link that ends at the core switch |
| `Routes.FlowRouteShape` | htsim/test_conga_testbed.cpp:200-228 | a flow's forward route has exactly 6 hops and its reverse route 5, in the code's order and with the code's indices; both use the same core; the forward route is a connected path from the source's queue to the destination's sink; the reverse route is not a connected path under the fabric's link adjacency |
| `Routes.FlowRouteReverseIgnoresDestination` | htsim/test_conga_testbed.cpp:203-227 | the reverse route and the first three forward hops depend only on the source id; different destinations give different forward routes |
| `Routes.StaticRouteShape` | htsim/test_conga_testbed.cpp:112-136 | a server's static routes have 6 and 5 hops through core `srv % N_CORE`; the forward route is a connected path from the server's queue back to its own sink; the reverse route is not a connected path under the fabric's link adjacency |
| `Routes.StaticAndFlowCoresAgree` | htsim/test_conga_testbed.cpp:112-136 | for a flow from a server to itself, the generator's core `src_id % N_CORE` equals the static routes' core `srv % N_CORE` if and only if the server's leaf index is a multiple of 3; equivalently, the fabric hops after the end-host queue and the reverse routes agree exactly then |
| `CongaTestbed.FabricAllocsCount` | htsim/test_conga_testbed.cpp:64-86 | the build loops allocate `4 * N_LEAF * N_CORE` objects: exactly one leaf queue, one leaf pipe, one core queue and one core pipe per cell, and no endpoint |
| `CongaTestbed.FabricAllocsDistinct` | htsim/test_conga_testbed.cpp:64-86 | no object is allocated twice: every cell of every matrix gets its own queue or pipe |
| `CongaTestbed.Resize` | htsim/test_conga_testbed.cpp:65-77 | `vector::resize(n)` gives a row of length `n` that keeps the old entries and has null in every new slot |
| `CongaTestbed.LeafResize` | htsim/test_conga_testbed.cpp:65-66 | resizing leaf row `i` at the top of the outer loop sizes that row to `N_CORE` nulls and changes nothing else |
| `CongaTestbed.LeafWrite` | htsim/test_conga_testbed.cpp:70-71 | cell `(i, j)` of a leaf matrix is null before it is written, so it is written once, and afterwards it holds the object of link leaf `i` → core `j` |
| `CongaTestbed.CoreResize` | htsim/test_conga_testbed.cpp:75-78 | during the first leaf's pass, core row `j` is resized to `N_LEAF` nulls just before its first write |
| `CongaTestbed.CoreWrite` | htsim/test_conga_testbed.cpp:81-82 | when cell `(j, i)` of a core matrix is written, its row is already sized and the cell is null; afterwards the cell holds the object of link core `j` → leaf `i` |
| `CongaTestbed.Testbed.constructor` | htsim/test_conga_testbed.cpp:57-110 | declaring the matrices and vectors and then running the build and endpoint loops yields a fully built testbed, and records in `allocations` exactly the fabric's queues and pipes in build order |
| `CongaTestbed.Testbed.BuildFabric` | htsim/test_conga_testbed.cpp:63-86 | after the nested loops every leaf row has `N_CORE` cells and every core row `N_LEAF` cells, each holding the queue or pipe of its own link, and the allocations are exactly those of every cell in leaf-major order |
| `CongaTestbed.Testbed.BuildLeafLinks` | htsim/test_conga_testbed.cpp:64-86 | one pass of the outer loop completes leaf row `i` and column `i` of the core matrices, and the core rows are all sized after the first pass |
| `CongaTestbed.Testbed.BuildLink` | htsim/test_conga_testbed.cpp:68-85 | one pass of the inner loop writes the next cell of both leaf matrices and of both core matrices and allocates those four objects, in that order |
| `CongaTestbed.Testbed.CreateEndpoints` | htsim/test_conga_testbed.cpp:96-145 | afterwards `srcs` and `sinks` each have `N_LEAF * N_SERVER` entries, and the entry at `leaf * N_SERVER + srv` is the source or sink of server `(leaf, srv)`, which also has its static routes at that position |
| `CongaTestbed.Testbed.CreateEndpoint` | htsim/test_conga_testbed.cpp:101-136 | the loop body appends the server's source, sink and static routes, built from the matrices through core `srv % N_CORE` |
| `CongaTestbed.Testbed.RouteGen` | htsim/test_conga_testbed.cpp:200-228 | on a built testbed and in-range ids, every lookup is in bounds and non-null, and the routes read from the matrices and vectors are exactly the flow's routes of `Routes.FlowRoute` |
| `SimulationDriver.Approvals` | htsim/test_conga_testbed.cpp:252-258 | the number of prompts the operator accepts: every reply before it is `y` or `Y`, and the reply at it, if there is one, is not |
| `SimulationDriver.RunSimulation` | htsim/test_conga_testbed.cpp:236-259 | with `P` pending events the loop terminates with `eventCount <= P`. It completes, with `eventCount == P`, exactly when the events run out within the first `Approvals + 1` batches. Otherwise it stops with `eventCount == 1000 * (Approvals + 1)` |

## Left out

- Internals of `FairQueue`, `Pipe`, `TcpSrc`, `TcpSink`, `FlowGenerator`, `Workloads` and the `EventList` singleton: their source is not part of this model. Queues, pipes and endpoints are hop identities, and the event list is a count of pending events.
- The constructor arguments of the queues and pipes (`LEAF_SPEED`, `CORE_SPEED`, the three buffer sizes, the 10 µs pipe delay) only configure those foreign classes, so they are not recorded.
- Argument parsing (`duration`, `flowsize`, `load`) and the floating-point rate `LEAF_SPEED * load`: these are string-to-float conversion and float arithmetic.
- `setName` calls and logger setup: they only build names and attach logging.
- Console output and reading the operator's reply from standard input: the replies are an input sequence instead.
- The flow generator that calls `routeGen`: it is foreign code. `RouteGen` takes the two ids as inputs that the caller keeps below `N_LEAF * N_SERVER`.
- The empty "connect topology" loop (:88-94): its body does nothing.
- The per-server lambda (:139-143): it is created in each pass of the endpoint loop and never used.
- The duplicate `globalRouteGen` (:158-185): it is an unused copy of `routeGen`.
- The second `load`/`flowRate` block (:190-197) and the second driver loop (:261-281): they redeclare `load`, `flowRate` (:191, :197), `eventCount` and `PAUSE_INTERVAL` (:262-263), and together with the stray braces at :147-148 and :187-188 the file does not compile with them. `break` at :257 is modelled as the end of the run.
- Heap lifetime: routes are returned as fresh sequence values, and the leaked route and queue objects are not tracked.
- CongaTestbed.Testbed.RouteGen: does not record the end-host queue it allocates on each call in `allocations`, and two such queues for the same source are equal values, whereas the source creates a new object per call.
- Routes.StaticAndFlowCoresAgree: states the agreement of the cores, the fabric hops and the reverse routes only, not of whole routes, because hop 0 is a different `FairQueue` object in the source (:120 and :208) while the model gives both the value `SrcQueue(s)`.
- CongaTestbed.Testbed.CreateEndpoints: the ghost log `allocations` holds the fabric's queues and pipes only; the `TcpSrc`, `TcpSink`, end-host `FairQueue` and two `route_t` objects allocated per server (:103-104, :116-120) are not logged, and the static routes are sequence values rather than heap `route_t` objects.
- SimulationDriver.RunSimulation: an event list that never runs dry cannot be represented by a finite `pending`. `eventCount` is a mathematical natural number, so the overflow of the source's 32-bit `int` beyond 2^31 - 1 events is not modelled.
- Other fabric sizes and configuration errors: the code's dimensions are fixed, positive constants, so neither arises.
