// The routes the testbed builds: the six-hop forward shape and the five-hop
// reverse shape shared by the per-server static routes and by the route
// generator handed to the flow generator, and what it means for a hop
// sequence to be a connected path through the fabric.

module Routes {
  import opened Fabric

  datatype RoutePair = RoutePair(fwd: seq<Hop>, rev: seq<Hop>)

  /** Forward route: source queue, up the leaf -> core link, down the core -> leaf link, sink. */
  function ForwardPath(srcQueue: Hop, srcLeaf: nat, core: nat, dstLeaf: nat, sink: Hop): seq<Hop>
  {
    [srcQueue,
     LeafQueue(srcLeaf, core), LeafPipe(srcLeaf, core),
     CoreQueue(core, dstLeaf), CorePipe(core, dstLeaf),
     sink]
  }

  /**
   * Reverse (ACK) route as the testbed builds it: down the core -> source-leaf
   * link, then the source leaf's uplink to the same core, then the source.
   */
  function ReversePath(srcLeaf: nat, core: nat, src: Hop): seq<Hop>
  {
    [CoreQueue(core, srcLeaf), CorePipe(core, srcLeaf),
     LeafQueue(srcLeaf, core), LeafPipe(srcLeaf, core),
     src]
  }

  /** Static routes built for server `s` in the endpoint loop: through core `srv % N_CORE`, back to its own leaf. */
  function StaticRoute(s: Server): RoutePair
  {
    var core := s.srv % N_CORE;
    RoutePair(ForwardPath(SrcQueue(s), s.leaf, core, s.leaf, Sink(s)),
              ReversePath(s.leaf, core, Src(s)))
  }

  /** Routes the route generator returns for a flow from endpoint `srcId` to endpoint `dstId`. */
  function FlowRoute(srcId: nat, dstId: nat): RoutePair
    requires srcId < N_SERVERS && dstId < N_SERVERS
  {
    var srcLeaf := LeafOf(srcId);
    var core := CoreOf(srcId);
    RoutePair(ForwardPath(SrcQueue(ServerOf(srcId)), srcLeaf, core, LeafOf(dstId), Sink(ServerOf(dstId))),
              ReversePath(srcLeaf, core, Src(ServerOf(srcId))))
  }

  datatype Switch = LeafSwitch(leaf: nat) | CoreSwitch(core: nat)

  /** The switch a hop delivers its packets into, if any. */
  function Into(h: Hop): Option<Switch>
  {
    match h
    case SrcQueue(s) => Some(LeafSwitch(s.leaf))
    case LeafPipe(_, c) => Some(CoreSwitch(c))
    case CorePipe(_, l) => Some(LeafSwitch(l))
    case _ => None
  }

  /** The switch a hop takes its packets from, if any. */
  function OutOf(h: Hop): Option<Switch>
  {
    match h
    case LeafQueue(l, _) => Some(LeafSwitch(l))
    case CoreQueue(c, _) => Some(CoreSwitch(c))
    case Src(s) => Some(LeafSwitch(s.leaf))
    case Sink(s) => Some(LeafSwitch(s.leaf))
    case _ => None
  }

  /** Packets leaving hop `a` can next enter hop `b`: a queue feeds the pipe of its own link, and a switch forwards from its inputs to its outputs. */
  predicate Feeds(a: Hop, b: Hop)
  {
    || (a.LeafQueue? && b == LeafPipe(a.leaf, a.core))
    || (a.CoreQueue? && b == CorePipe(a.core, a.leaf))
    || (Into(a).Some? && Into(a) == OutOf(b))
  }

  /** Every hop of `r` feeds the next one. */
  predicate IsPath(r: seq<Hop>)
  {
    forall k | 0 <= k < |r| - 1 :: Feeds(r[k], r[k + 1])
  }

  /**
   * The forward shape is a connected path exactly when its source queue
   * delivers into the source leaf and its sink hangs off the destination leaf.
   */
  lemma ForwardPathConnected(srcQueue: Hop, srcLeaf: nat, core: nat, dstLeaf: nat, sink: Hop)
    ensures IsPath(ForwardPath(srcQueue, srcLeaf, core, dstLeaf, sink))
        <==> Into(srcQueue) == Some(LeafSwitch(srcLeaf)) && OutOf(sink) == Some(LeafSwitch(dstLeaf))
  {
    var r := ForwardPath(srcQueue, srcLeaf, core, dstLeaf, sink);
    if IsPath(r) {
      assert Feeds(r[0], r[1]);
      assert Feeds(r[4], r[5]);
    }
  }

  /**
   * Under the link adjacency Feeds, the reverse shape is never a connected
   * path to a source: its last pipe belongs to the link leaf -> core, which
   * ends at the core switch and not at the source's leaf.
   */
  lemma ReversePathBroken(srcLeaf: nat, core: nat, s: Server)
    ensures !IsPath(ReversePath(srcLeaf, core, Src(s)))
    ensures !Feeds(ReversePath(srcLeaf, core, Src(s))[3], Src(s))
  {
    var r := ReversePath(srcLeaf, core, Src(s));
    assert !Feeds(r[3], r[4]);
  }

  /** The route pair of a flow: exact hops, one core for both directions, a connected forward path from source to destination, a reverse route that is not a connected path under Feeds. */
  lemma FlowRouteShape(srcId: nat, dstId: nat)
    requires srcId < N_SERVERS && dstId < N_SERVERS
    ensures var r := FlowRoute(srcId, dstId);
      && |r.fwd| == 6 && |r.rev| == 5
      && r.fwd[0] == SrcQueue(ServerOf(srcId))
      && r.fwd[1] == LeafQueue(srcId / N_SERVER, srcId % N_CORE)
      && r.fwd[2] == LeafPipe(srcId / N_SERVER, srcId % N_CORE)
      && r.fwd[3] == CoreQueue(srcId % N_CORE, dstId / N_SERVER)
      && r.fwd[4] == CorePipe(srcId % N_CORE, dstId / N_SERVER)
      && r.fwd[5] == Sink(ServerOf(dstId))
      && r.rev[0] == CoreQueue(srcId % N_CORE, srcId / N_SERVER)
      && r.rev[1] == CorePipe(srcId % N_CORE, srcId / N_SERVER)
      && r.rev[2] == r.fwd[1] && r.rev[3] == r.fwd[2]
      && r.rev[4] == Src(ServerOf(srcId))
      && IsPath(r.fwd)
      && !IsPath(r.rev)
  {
    var srcLeaf, dstLeaf, core := LeafOf(srcId), LeafOf(dstId), CoreOf(srcId);
    ForwardPathConnected(SrcQueue(ServerOf(srcId)), srcLeaf, core, dstLeaf, Sink(ServerOf(dstId)));
    ReversePathBroken(srcLeaf, core, ServerOf(srcId));
  }

  /** The reverse route and the core of a flow depend on its source only. */
  lemma FlowRouteReverseIgnoresDestination(srcId: nat, dst1: nat, dst2: nat)
    requires srcId < N_SERVERS && dst1 < N_SERVERS && dst2 < N_SERVERS
    ensures FlowRoute(srcId, dst1).rev == FlowRoute(srcId, dst2).rev
    ensures FlowRoute(srcId, dst1).fwd[..3] == FlowRoute(srcId, dst2).fwd[..3]
    ensures dst1 != dst2 ==> FlowRoute(srcId, dst1).fwd != FlowRoute(srcId, dst2).fwd
  {
    if dst1 != dst2 {
      ServerIndexRoundTrip(ServerOf(dst1));
      assert FlowRoute(srcId, dst1).fwd[5] != FlowRoute(srcId, dst2).fwd[5];
    }
  }

  /** A static route is a connected path from the server's queue back to its own sink, through core `srv % N_CORE`. */
  lemma StaticRouteShape(s: Server)
    requires ValidServer(s)
    ensures var r := StaticRoute(s);
      && |r.fwd| == 6 && |r.rev| == 5
      && r.fwd[0] == SrcQueue(s) && r.fwd[5] == Sink(s) && r.rev[4] == Src(s)
      && r.fwd[1] == LeafQueue(s.leaf, s.srv % N_CORE)
      && r.fwd[3] == CoreQueue(s.srv % N_CORE, s.leaf)
      && IsPath(r.fwd) && !IsPath(r.rev)
  {
    ForwardPathConnected(SrcQueue(s), s.leaf, s.srv % N_CORE, s.leaf, Sink(s));
    ReversePathBroken(s.leaf, s.srv % N_CORE, s);
  }

  /**
   * The static routes choose a core by `srv % N_CORE`, the route generator by
   * `src_id % N_CORE`; for a flow from a server to itself they agree exactly
   * on the leaves whose index is a multiple of 3 (N_SERVER % N_CORE == 8).
   * Hop 0, the end-host queue, is a new object in each case, so only the
   * fabric hops after it and the reverse routes are compared.
   */
  lemma StaticAndFlowCoresAgree(s: Server)
    requires ValidServer(s)
    ensures CoreOf(ServerIndex(s)) == s.srv % N_CORE <==> s.leaf % 3 == 0
    ensures var st, fl := StaticRoute(s), FlowRoute(ServerIndex(s), ServerIndex(s));
      st.fwd[1..] == fl.fwd[1..] && st.rev == fl.rev <==> s.leaf % 3 == 0
  {
    var id := ServerIndex(s);
    ServerIndexRoundTrip(s);
    var q := s.leaf / 3;
    assert s.leaf == 3 * q + s.leaf % 3;
    assert id == 12 * (8 * q) + s.leaf % 3 * 32 + s.srv;
    assert id % N_CORE == (s.leaf % 3 * 32 + s.srv) % N_CORE;
    if s.leaf % 3 == 0 {
      assert CoreOf(id) == s.srv % N_CORE;
    } else {
      assert CoreOf(id) != s.srv % N_CORE;
      assert StaticRoute(s).fwd[1..][0] != FlowRoute(id, id).fwd[1..][0];
    }
  }
}
