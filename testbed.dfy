// The state the testbed sets up before it starts the simulation: the four
// link matrices of the leaf/core fabric, the source and sink vectors of the
// servers, the per-server static routes, and the route generator that reads
// them for each new flow.

module CongaTestbed {
  import opened Fabric
  import opened Routes

  /** Cell (l, c) is written before cell (i, j) in the build loops (leaf-major order). */
  predicate Visited(i: nat, j: nat, l: nat, c: nat)
  {
    l < i || (l == i && c < j)
  }

  /** The four objects the build loops allocate for cell (leaf, core), in allocation order. */
  function LinkAllocs(leaf: nat, core: nat): seq<Hop>
  {
    [LeafQueue(leaf, core), LeafPipe(leaf, core), CoreQueue(core, leaf), CorePipe(core, leaf)]
  }

  /** Objects the build loops allocate for the first `n` cells, cell k being (k / N_CORE, k % N_CORE). */
  function FabricAllocs(n: nat): seq<Hop>
  {
    if n == 0 then [] else FabricAllocs(n - 1) + LinkAllocs((n - 1) / N_CORE, (n - 1) % N_CORE)
  }

  datatype HopKind = LeafQueueKind | LeafPipeKind | CoreQueueKind | CorePipeKind | EndpointKind

  function KindOf(h: Hop): HopKind
  {
    match h
    case LeafQueue(_, _) => LeafQueueKind
    case LeafPipe(_, _) => LeafPipeKind
    case CoreQueue(_, _) => CoreQueueKind
    case CorePipe(_, _) => CorePipeKind
    case _ => EndpointKind
  }

  /** Number of hops of kind `k` in `s`. */
  function Tally(s: seq<Hop>, k: HopKind): nat
  {
    if s == [] then 0 else Tally(s[..|s| - 1], k) + (if KindOf(s[|s| - 1]) == k then 1 else 0)
  }

  lemma {:induction false} TallyAppend(a: seq<Hop>, b: seq<Hop>, k: HopKind)
    ensures Tally(a + b, k) == Tally(a, k) + Tally(b, k)
    decreases |b|
  {
    if b != [] {
      var b' := b[..|b| - 1];
      assert (a + b)[..|a + b| - 1] == a + b';
      TallyAppend(a, b', k);
    } else {
      assert a + b == a;
    }
  }

  lemma LinkAllocsTally(leaf: nat, core: nat, k: HopKind)
    ensures Tally(LinkAllocs(leaf, core), k) == if k == EndpointKind then 0 else 1
  {
    var l := LinkAllocs(leaf, core);
    assert l[..3][..2][..1][..0] == [];
    assert l[..3][..2][..1] == [l[0]];
    assert l[..3][..2] == [l[0], l[1]];
    assert l[..3] == [l[0], l[1], l[2]];
    assert Tally(l[..3][..2][..1], k) == if k == LeafQueueKind then 1 else 0;
    assert Tally(l[..3][..2], k) == if k == LeafQueueKind || k == LeafPipeKind then 1 else 0;
    assert Tally(l[..3], k) == if k == EndpointKind || k == CorePipeKind then 0 else 1;
  }

  /** The build loops allocate exactly one queue and one pipe per direction and per cell. */
  lemma {:induction false} FabricAllocsCount(n: nat)
    ensures |FabricAllocs(n)| == 4 * n
    ensures forall k | k != EndpointKind :: Tally(FabricAllocs(n), k) == n
    ensures Tally(FabricAllocs(n), EndpointKind) == 0
  {
    if n > 0 {
      FabricAllocsCount(n - 1);
      var l := LinkAllocs((n - 1) / N_CORE, (n - 1) % N_CORE);
      forall k: HopKind
        ensures Tally(FabricAllocs(n), k) == Tally(FabricAllocs(n - 1), k) + (if k == EndpointKind then 0 else 1)
      {
        TallyAppend(FabricAllocs(n - 1), l, k);
        LinkAllocsTally((n - 1) / N_CORE, (n - 1) % N_CORE, k);
      }
    }
  }

  /** Cell of the matrices a link hop of the fabric was allocated for. */
  function CellOf(h: Hop): nat
  {
    match h
    case LeafQueue(l, c) => l * N_CORE + c
    case LeafPipe(l, c) => l * N_CORE + c
    case CoreQueue(c, l) => l * N_CORE + c
    case CorePipe(c, l) => l * N_CORE + c
    case _ => 0
  }

  predicate IsLinkHop(h: Hop)
  {
    match h
    case LeafQueue(_, c) => c < N_CORE
    case LeafPipe(_, c) => c < N_CORE
    case CoreQueue(c, _) => c < N_CORE
    case CorePipe(c, _) => c < N_CORE
    case _ => false
  }

  lemma {:induction false} FabricAllocsCells(n: nat)
    ensures forall h | h in FabricAllocs(n) :: IsLinkHop(h) && CellOf(h) < n
  {
    if n > 0 {
      FabricAllocsCells(n - 1);
      var k := n - 1;
      assert k == (k / N_CORE) * N_CORE + k % N_CORE;
    }
  }

  /** No object is allocated twice: every cell of every matrix gets its own queue and pipe. */
  lemma {:induction false} FabricAllocsDistinct(n: nat)
    ensures forall p, q | 0 <= p < q < |FabricAllocs(n)| :: FabricAllocs(n)[p] != FabricAllocs(n)[q]
  {
    if n > 0 {
      FabricAllocsDistinct(n - 1);
      FabricAllocsCells(n - 1);
      FabricAllocsCount(n - 1);
      var prev, k := FabricAllocs(n - 1), n - 1;
      var l := LinkAllocs(k / N_CORE, k % N_CORE);
      assert k == (k / N_CORE) * N_CORE + k % N_CORE;
      assert forall h | h in l :: CellOf(h) == k;
      forall p, q | 0 <= p < q < |FabricAllocs(n)|
        ensures FabricAllocs(n)[p] != FabricAllocs(n)[q]
      {
        if q >= |prev| && p < |prev| {
          assert FabricAllocs(n)[p] in prev;
          assert FabricAllocs(n)[q] in l;
        }
      }
    }
  }

  function LinkHop(pipes: bool, leafToCore: bool, l: nat, c: nat): Hop
  {
    if leafToCore then (if pipes then LeafPipe(l, c) else LeafQueue(l, c))
    else (if pipes then CorePipe(c, l) else CoreQueue(c, l))
  }

  /**
   * A leaf-to-core matrix (`leaf_queues` or `leaf_pipes`) after the build
   * loops have written every cell before (i, j) and resized its first `rows` rows.
   */
  ghost predicate LeafMatrixAt(m: seq<seq<Option<Hop>>>, i: nat, j: nat, rows: nat, pipes: bool)
  {
    && |m| == N_LEAF
    && (forall l | 0 <= l < N_LEAF :: |m[l]| == if l < rows then N_CORE else 0)
    && (forall l, c | 0 <= l < N_LEAF && l < rows && 0 <= c < N_CORE ::
          m[l][c] == if Visited(i, j, l, c) then Some(LinkHop(pipes, true, l, c)) else None)
  }

  /** A core-to-leaf matrix (`core_queues` or `core_pipes`) at the same point, with its first `rows` rows resized. */
  ghost predicate CoreMatrixAt(m: seq<seq<Option<Hop>>>, i: nat, j: nat, rows: nat, pipes: bool)
  {
    && |m| == N_CORE
    && (forall c | 0 <= c < N_CORE :: |m[c]| == if c < rows then N_LEAF else 0)
    && (forall c, l | 0 <= c < N_CORE && c < rows && 0 <= l < N_LEAF ::
          m[c][l] == if Visited(i, j, l, c) then Some(LinkHop(pipes, false, l, c)) else None)
  }

  /** `leaf_queues[i].resize(N_CORE)` at the top of the outer loop. */
  lemma LeafResize(m: seq<seq<Option<Hop>>>, i: nat, pipes: bool)
    requires i < N_LEAF && LeafMatrixAt(m, i, 0, i, pipes)
    ensures LeafMatrixAt(m[i := Resize(m[i], N_CORE)], i, 0, i + 1, pipes)
  {
  }

  /** `leaf_queues[i][j] = new ...`: the cell was null and now holds its own link's object. */
  lemma LeafWrite(m: seq<seq<Option<Hop>>>, i: nat, j: nat, pipes: bool)
    requires i < N_LEAF && j < N_CORE && LeafMatrixAt(m, i, j, i + 1, pipes)
    ensures m[i][j] == None
    ensures LeafMatrixAt(m[i := m[i][j := Some(LinkHop(pipes, true, i, j))]], i, j + 1, i + 1, pipes)
  {
  }

  /** `core_queues[j].resize(N_LEAF)` during the first leaf's pass, before row j is first written. */
  lemma CoreResize(m: seq<seq<Option<Hop>>>, j: nat, pipes: bool)
    requires j < N_CORE && CoreMatrixAt(m, 0, j, j, pipes)
    ensures CoreMatrixAt(m[j := Resize(m[j], N_LEAF)], 0, j, j + 1, pipes)
  {
  }

  /** `core_queues[j][i] = new ...`: row j is already sized, the cell was null and now holds its own link's object. */
  lemma CoreWrite(m: seq<seq<Option<Hop>>>, i: nat, j: nat, rows: nat, pipes: bool)
    requires i < N_LEAF && j < N_CORE && j < rows && CoreMatrixAt(m, i, j, rows, pipes)
    ensures |m[j]| == N_LEAF && m[j][i] == None
    ensures CoreMatrixAt(m[j := m[j][i := Some(LinkHop(pipes, false, i, j))]], i, j + 1, rows, pipes)
  {
  }

  /** After the inner loop, visiting up to (i, N_CORE) is visiting up to (i + 1, 0). */
  lemma RowDone(lq: seq<seq<Option<Hop>>>, cq: seq<seq<Option<Hop>>>, i: nat, pipes: bool)
    requires LeafMatrixAt(lq, i, N_CORE, i + 1, pipes) && CoreMatrixAt(cq, i, N_CORE, N_CORE, pipes)
    ensures LeafMatrixAt(lq, i + 1, 0, i + 1, pipes) && CoreMatrixAt(cq, i + 1, 0, N_CORE, pipes)
  {
  }

  /** The cells of a fully built fabric that a route through leaf `leaf` and core `core` reads. */
  lemma LinkCells(lq: seq<seq<Option<Hop>>>, lp: seq<seq<Option<Hop>>>, cq: seq<seq<Option<Hop>>>, cp: seq<seq<Option<Hop>>>,
                  leaf: nat, core: nat)
    requires LeafMatrixAt(lq, N_LEAF, 0, N_LEAF, false) && LeafMatrixAt(lp, N_LEAF, 0, N_LEAF, true)
    requires CoreMatrixAt(cq, N_LEAF, 0, N_CORE, false) && CoreMatrixAt(cp, N_LEAF, 0, N_CORE, true)
    requires leaf < N_LEAF && core < N_CORE
    ensures |lq[leaf]| == |lp[leaf]| == N_CORE && |cq[core]| == |cp[core]| == N_LEAF
    ensures lq[leaf][core] == Some(LeafQueue(leaf, core)) && lp[leaf][core] == Some(LeafPipe(leaf, core))
    ensures cq[core][leaf] == Some(CoreQueue(core, leaf)) && cp[core][leaf] == Some(CorePipe(core, leaf))
  {
  }

  /** Vector resize: keeps the first `n` entries and pads with null. */
  function Resize(row: seq<Option<Hop>>, n: nat): (r: seq<Option<Hop>>)
    ensures |r| == n
    ensures forall k | 0 <= k < n :: r[k] == if k < |row| then row[k] else None
  {
    if n <= |row| then row[..n] else row + seq(n - |row|, _ => None)
  }

  class Testbed {
    var leafQueues: seq<seq<Option<Hop>>>  // leaf_queues[leaf][core]
    var leafPipes: seq<seq<Option<Hop>>>   // leaf_pipes[leaf][core]
    var coreQueues: seq<seq<Option<Hop>>>  // core_queues[core][leaf]
    var corePipes: seq<seq<Option<Hop>>>   // core_pipes[core][leaf]
    var srcs: seq<Hop>
    var sinks: seq<Hop>
    /** The forward and reverse route built for each server in the endpoint loop, in the same order as `srcs`. */
    var staticRoutes: seq<RoutePair>
    /** Queues and pipes of the fabric links, in the order the build loops allocate them. */
    ghost var allocations: seq<Hop>

    /** The matrices as declared: one empty row per leaf, respectively per core. */
    ghost predicate Declared()
      reads this
    {
      && LeafMatrixAt(leafQueues, 0, 0, 0, false) && LeafMatrixAt(leafPipes, 0, 0, 0, true)
      && CoreMatrixAt(coreQueues, 0, 0, 0, false) && CoreMatrixAt(corePipes, 0, 0, 0, true)
    }

    /** Every cell of every matrix holds the queue or pipe of its own link. */
    ghost predicate FabricBuilt()
      reads this
    {
      && LeafMatrixAt(leafQueues, N_LEAF, 0, N_LEAF, false) && LeafMatrixAt(leafPipes, N_LEAF, 0, N_LEAF, true)
      && CoreMatrixAt(coreQueues, N_LEAF, 0, N_CORE, false) && CoreMatrixAt(corePipes, N_LEAF, 0, N_CORE, true)
    }

    /** The endpoint loop has handled the first `n` servers. */
    ghost predicate EndpointsUpTo(n: nat)
      reads this
    {
      && n <= N_SERVERS
      && |srcs| == n && |sinks| == n && |staticRoutes| == n
      && forall id | 0 <= id < n ::
           srcs[id] == Src(ServerOf(id)) && sinks[id] == Sink(ServerOf(id)) && staticRoutes[id] == StaticRoute(ServerOf(id))
    }

    ghost predicate Valid()
      reads this
    {
      FabricBuilt() && EndpointsUpTo(N_SERVERS)
    }

    /** Declares the matrices and vectors, then runs the build loops and the endpoint loop. */
    constructor ()
      ensures Valid()
      ensures allocations == FabricAllocs(N_LEAF * N_CORE)
    {
      leafQueues := seq(N_LEAF, _ => []);
      leafPipes := seq(N_LEAF, _ => []);
      coreQueues := seq(N_CORE, _ => []);
      corePipes := seq(N_CORE, _ => []);
      srcs, sinks, staticRoutes := [], [], [];
      allocations := [];
      new;
      BuildFabric();
      CreateEndpoints();
    }

    /**
     * The nested build loops: every leaf row is sized to N_CORE and every core
     * row to N_LEAF before it is written, and every cell is written once with
     * a freshly allocated queue or pipe of its own link.
     */
    method BuildFabric()
      requires Declared()
      modifies this`leafQueues, this`leafPipes, this`coreQueues, this`corePipes, this`allocations
      ensures FabricBuilt()
      ensures allocations == old(allocations) + FabricAllocs(N_LEAF * N_CORE)
    {
      var i := 0;
      while i < N_LEAF
        invariant 0 <= i <= N_LEAF
        invariant LeafMatrixAt(leafQueues, i, 0, i, false) && LeafMatrixAt(leafPipes, i, 0, i, true)
        invariant CoreMatrixAt(coreQueues, i, 0, if i > 0 then N_CORE else 0, false)
        invariant CoreMatrixAt(corePipes, i, 0, if i > 0 then N_CORE else 0, true)
        invariant allocations == old(allocations) + FabricAllocs(i * N_CORE)
      {
        BuildLeafLinks(i, old(allocations));
        i := i + 1;
      }
    }

    /**
     * One pass of the outer build loop: resizes row i of the leaf matrices,
     * then for every core j writes cell (i, j) of the leaf matrices and cell
     * (j, i) of the core matrices, resizing row j of the core matrices first
     * when i == 0.
     */
    method BuildLeafLinks(i: nat, ghost start: seq<Hop>)
      requires i < N_LEAF
      requires LeafMatrixAt(leafQueues, i, 0, i, false) && LeafMatrixAt(leafPipes, i, 0, i, true)
      requires CoreMatrixAt(coreQueues, i, 0, if i > 0 then N_CORE else 0, false)
      requires CoreMatrixAt(corePipes, i, 0, if i > 0 then N_CORE else 0, true)
      requires allocations == start + FabricAllocs(i * N_CORE)
      modifies this`leafQueues, this`leafPipes, this`coreQueues, this`corePipes, this`allocations
      ensures LeafMatrixAt(leafQueues, i + 1, 0, i + 1, false) && LeafMatrixAt(leafPipes, i + 1, 0, i + 1, true)
      ensures CoreMatrixAt(coreQueues, i + 1, 0, N_CORE, false) && CoreMatrixAt(corePipes, i + 1, 0, N_CORE, true)
      ensures allocations == start + FabricAllocs((i + 1) * N_CORE)
    {
      LeafResize(leafQueues, i, false);
      LeafResize(leafPipes, i, true);
      leafQueues := leafQueues[i := Resize(leafQueues[i], N_CORE)];
      leafPipes := leafPipes[i := Resize(leafPipes[i], N_CORE)];
      var j := 0;
      while j < N_CORE
        invariant 0 <= j <= N_CORE
        invariant LeafMatrixAt(leafQueues, i, j, i + 1, false) && LeafMatrixAt(leafPipes, i, j, i + 1, true)
        invariant CoreMatrixAt(coreQueues, i, j, if i > 0 then N_CORE else j, false)
        invariant CoreMatrixAt(corePipes, i, j, if i > 0 then N_CORE else j, true)
        invariant allocations == start + FabricAllocs(i * N_CORE + j)
      {
        BuildLink(i, j, start);
        j := j + 1;
      }
      RowDone(leafQueues, coreQueues, i, false);
      RowDone(leafPipes, corePipes, i, true);
    }

    /** Body of the inner build loop: the queue and pipe of link leaf i -> core j, then those of link core j -> leaf i. */
    method BuildLink(i: nat, j: nat, ghost start: seq<Hop>)
      requires i < N_LEAF && j < N_CORE
      requires LeafMatrixAt(leafQueues, i, j, i + 1, false) && LeafMatrixAt(leafPipes, i, j, i + 1, true)
      requires CoreMatrixAt(coreQueues, i, j, if i > 0 then N_CORE else j, false)
      requires CoreMatrixAt(corePipes, i, j, if i > 0 then N_CORE else j, true)
      requires allocations == start + FabricAllocs(i * N_CORE + j)
      modifies this`leafQueues, this`leafPipes, this`coreQueues, this`corePipes, this`allocations
      ensures LeafMatrixAt(leafQueues, i, j + 1, i + 1, false) && LeafMatrixAt(leafPipes, i, j + 1, i + 1, true)
      ensures CoreMatrixAt(coreQueues, i, j + 1, if i > 0 then N_CORE else j + 1, false)
      ensures CoreMatrixAt(corePipes, i, j + 1, if i > 0 then N_CORE else j + 1, true)
      ensures allocations == start + FabricAllocs(i * N_CORE + (j + 1))
    {
      ghost var before := allocations;
      // Leaf to core
      LeafWrite(leafQueues, i, j, false);
      LeafWrite(leafPipes, i, j, true);
      leafQueues := leafQueues[i := leafQueues[i][j := Some(LeafQueue(i, j))]];
      leafPipes := leafPipes[i := leafPipes[i][j := Some(LeafPipe(i, j))]];
      allocations := allocations + [LeafQueue(i, j), LeafPipe(i, j)];
      if i == 0 {
        CoreResize(coreQueues, j, false);
        CoreResize(corePipes, j, true);
        coreQueues := coreQueues[j := Resize(coreQueues[j], N_LEAF)];
        corePipes := corePipes[j := Resize(corePipes[j], N_LEAF)];
      }
      // Core to leaf
      ghost var rows := if i > 0 then N_CORE else j + 1;
      CoreWrite(coreQueues, i, j, rows, false);
      CoreWrite(corePipes, i, j, rows, true);
      coreQueues := coreQueues[j := coreQueues[j][i := Some(CoreQueue(j, i))]];
      corePipes := corePipes[j := corePipes[j][i := Some(CorePipe(j, i))]];
      allocations := allocations + [CoreQueue(j, i), CorePipe(j, i)];
      assert allocations == before + LinkAllocs(i, j);
      CellStep(i, j);
    }

    static lemma CellStep(i: nat, j: nat)
      requires j < N_CORE
      ensures FabricAllocs(i * N_CORE + (j + 1)) == FabricAllocs(i * N_CORE + j) + LinkAllocs(i, j)
      ensures j + 1 == N_CORE ==> i * N_CORE + (j + 1) == (i + 1) * N_CORE
    {
      var k := i * N_CORE + j;
      assert k / N_CORE == i && k % N_CORE == j;
    }

    /**
     * The endpoint loop: for each leaf and each of its servers, creates the
     * server's source and sink and pushes them, then builds the server's
     * static forward and reverse routes from the matrices.
     */
    method CreateEndpoints()
      requires FabricBuilt()
      requires srcs == [] && sinks == [] && staticRoutes == []
      modifies this`srcs, this`sinks, this`staticRoutes
      ensures Valid()
      ensures forall leaf, srv | 0 <= leaf < N_LEAF && 0 <= srv < N_SERVER ::
        srcs[leaf * N_SERVER + srv] == Src(Server(leaf, srv)) && sinks[leaf * N_SERVER + srv] == Sink(Server(leaf, srv))
    {
      var leaf := 0;
      while leaf < N_LEAF
        invariant 0 <= leaf <= N_LEAF
        invariant EndpointsUpTo(leaf * N_SERVER)
      {
        var srv := 0;
        while srv < N_SERVER
          invariant 0 <= srv <= N_SERVER
          invariant EndpointsUpTo(leaf * N_SERVER + srv)
        {
          CreateEndpoint(leaf, srv);
          srv := srv + 1;
        }
        leaf := leaf + 1;
      }
      forall leaf, srv | 0 <= leaf < N_LEAF && 0 <= srv < N_SERVER
        ensures srcs[leaf * N_SERVER + srv] == Src(Server(leaf, srv)) && sinks[leaf * N_SERVER + srv] == Sink(Server(leaf, srv))
      {
        ServerIndexRoundTrip(Server(leaf, srv));
      }
    }

    /** Body of the endpoint loop for server `srv` of leaf `leaf`. */
    method CreateEndpoint(leaf: nat, srv: nat)
      requires leaf < N_LEAF && srv < N_SERVER
      requires FabricBuilt() && EndpointsUpTo(leaf * N_SERVER + srv)
      modifies this`srcs, this`sinks, this`staticRoutes
      ensures EndpointsUpTo(leaf * N_SERVER + srv + 1)
    {
      var server := Server(leaf, srv);
      var src := Src(server);
      var sink := Sink(server);
      srcs := srcs + [src];
      sinks := sinks + [sink];

      // Round-robin over core switches
      var core := srv % N_CORE;
      var srcQueue := SrcQueue(server);
      LinkCells(leafQueues, leafPipes, coreQueues, corePipes, leaf, core);

      var routeFwd := [];
      routeFwd := routeFwd + [srcQueue];
      routeFwd := routeFwd + [leafQueues[leaf][core].value];
      routeFwd := routeFwd + [leafPipes[leaf][core].value];
      routeFwd := routeFwd + [coreQueues[core][leaf].value];
      routeFwd := routeFwd + [corePipes[core][leaf].value];
      routeFwd := routeFwd + [sink];

      var routeRev := [];
      routeRev := routeRev + [coreQueues[core][leaf].value];
      routeRev := routeRev + [corePipes[core][leaf].value];
      routeRev := routeRev + [leafQueues[leaf][core].value];
      routeRev := routeRev + [leafPipes[leaf][core].value];
      routeRev := routeRev + [src];

      staticRoutes := staticRoutes + [RoutePair(routeFwd, routeRev)];
      ServerIndexRoundTrip(server);
      assert RoutePair(routeFwd, routeRev) == StaticRoute(ServerOf(leaf * N_SERVER + srv));
    }

    /**
     * The route generator: from the flow's endpoint ids, looks up the
     * source leaf, the destination leaf and the core, and builds a fresh
     * forward and reverse route from the matrices and endpoint vectors.
     */
    method RouteGen(srcId: nat, dstId: nat) returns (fwd: seq<Hop>, rev: seq<Hop>)
      requires Valid()
      requires srcId < N_SERVERS && dstId < N_SERVERS
      ensures RoutePair(fwd, rev) == FlowRoute(srcId, dstId)
    {
      var srcLeaf := srcId / N_SERVER;
      var dstLeaf := dstId / N_SERVER;
      var core := srcId % N_CORE;

      var srcQueue := SrcQueue(ServerOf(srcId));

      fwd := [];
      fwd := fwd + [srcQueue];
      fwd := fwd + [leafQueues[srcLeaf][core].value];
      fwd := fwd + [leafPipes[srcLeaf][core].value];
      fwd := fwd + [coreQueues[core][dstLeaf].value];
      fwd := fwd + [corePipes[core][dstLeaf].value];
      fwd := fwd + [sinks[dstId]];

      rev := [];
      rev := rev + [coreQueues[core][srcLeaf].value];
      rev := rev + [corePipes[core][srcLeaf].value];
      rev := rev + [leafQueues[srcLeaf][core].value];
      rev := rev + [leafPipes[srcLeaf][core].value];
      rev := rev + [srcs[srcId]];
    }
  }
}
