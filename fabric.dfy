// The leaf/core fabric of the CONGA testbed: its fixed dimensions, the
// identities of the objects the testbed allocates (queues, pipes, TCP
// endpoints), and the index arithmetic the route generator performs on
// server ids.

module Fabric {

  const N_CORE: nat := 12
  const N_LEAF: nat := 24
  /** Servers attached to each leaf switch. */
  const N_SERVER: nat := 32
  /** Number of servers in the whole testbed, and so the number of endpoint ids. */
  const N_SERVERS: nat := N_LEAF * N_SERVER

  datatype Option<T> = None | Some(value: T)

  /** Server `srv` attached to leaf switch `leaf`. */
  datatype Server = Server(leaf: nat, srv: nat)

  predicate ValidServer(s: Server) {
    s.leaf < N_LEAF && s.srv < N_SERVER
  }

  /**
   * One hop object of a route. Each constructor stands for a heap object the
   * testbed creates; the arguments say which switch pair or which server it
   * was created for. The fabric's queues and pipes and the servers' sources
   * and sinks are one object per value; the end-host queue SrcQueue(s) stands
   * for every queue created in front of server s, which the testbed allocates
   * anew for the static routes and for each generated route.
   */
  datatype Hop =
    | LeafQueue(leaf: nat, core: nat)  // FairQueue on the link leaf -> core
    | LeafPipe(leaf: nat, core: nat)   // Pipe on the link leaf -> core
    | CoreQueue(core: nat, leaf: nat)  // FairQueue on the link core -> leaf
    | CorePipe(core: nat, leaf: nat)   // Pipe on the link core -> leaf
    | SrcQueue(server: Server)         // end-host queue in front of a source
    | Src(server: Server)              // TcpSrc of a server
    | Sink(server: Server)             // TcpSink of a server

  /**
   * Position of a server in the `srcs` and `sinks` vectors, which are filled
   * leaf by leaf, server by server.
   */
  function ServerIndex(s: Server): (id: nat)
    requires ValidServer(s)
    ensures id < N_SERVERS
    ensures id / N_SERVER == s.leaf && id % N_SERVER == s.srv
  {
    s.leaf * N_SERVER + s.srv
  }

  /** Leaf switch of endpoint `id`, as the route generator computes it (`id / N_SERVER`). */
  function LeafOf(id: nat): (leaf: nat)
    requires id < N_SERVERS
    ensures leaf < N_LEAF
    ensures leaf * N_SERVER <= id < leaf * N_SERVER + N_SERVER
  {
    id / N_SERVER
  }

  /** The server that endpoint `id` names: the inverse of ServerIndex. */
  function ServerOf(id: nat): (s: Server)
    requires id < N_SERVERS
    ensures ValidServer(s) && ServerIndex(s) == id
  {
    Server(LeafOf(id), id % N_SERVER)
  }

  lemma ServerIndexRoundTrip(s: Server)
    requires ValidServer(s)
    ensures ServerOf(ServerIndex(s)) == s
  {
  }

  /** Core switch a flow from source `srcId` goes through (`src_id % N_CORE`). */
  function CoreOf(srcId: nat): (core: nat)
    ensures core < N_CORE
    ensures (srcId - core) % N_CORE == 0
  {
    srcId % N_CORE
  }

  /** Number of source ids among `base`, ..., `base + n - 1` that CoreOf sends to `core`. */
  function CoreHits(base: nat, n: nat, core: nat): nat
  {
    if n == 0 then 0
    else CoreHits(base, n - 1, core) + (if CoreOf(base + n - 1) == core then 1 else 0)
  }

  lemma {:induction false} CoreHitsSplit(base: nat, n1: nat, n2: nat, core: nat)
    ensures CoreHits(base, n1 + n2, core) == CoreHits(base, n1, core) + CoreHits(base + n1, n2, core)
  {
    if n2 > 0 {
      CoreHitsSplit(base, n1, n2 - 1, core);
    }
  }

  /** Within at most N_CORE consecutive ids a core is hit at most once, at offset (core - base) mod N_CORE. */
  lemma {:induction false} CoreHitsWindow(base: nat, n: nat, core: nat)
    requires n <= N_CORE && core < N_CORE
    ensures CoreHits(base, n, core) == if (core - base) % N_CORE < n then 1 else 0
  {
    if n > 0 {
      CoreHitsWindow(base, n - 1, core);
      var k := n - 1;
      var d := (core - base) % N_CORE;
      assert (base + k) % N_CORE == core <==> d == k by {
        var q := (base + k) / N_CORE;
        assert base + k == q * N_CORE + (base + k) % N_CORE;
        var p := (core - base) / N_CORE;
        assert core - base == p * N_CORE + d;
        if (base + k) % N_CORE == core {
          assert k - d == (p + q) * N_CORE;
        }
        if d == k {
          assert base + k == core - p * N_CORE;
        }
      }
    }
  }

  /**
   * Round-robin balance: over any `n` consecutive source ids every core is
   * chosen `n / N_CORE` times, plus once more for the first `n % N_CORE`
   * cores counted from CoreOf(base).
   */
  lemma {:induction false} CoreHitsBalanced(base: nat, n: nat, core: nat)
    requires core < N_CORE
    ensures CoreHits(base, n, core) == n / N_CORE + (if (core - base) % N_CORE < n % N_CORE then 1 else 0)
    decreases n
  {
    if n < N_CORE {
      CoreHitsWindow(base, n, core);
    } else {
      var m := n - N_CORE;
      CoreHitsSplit(base, N_CORE, m, core);
      CoreHitsWindow(base, N_CORE, core);
      CoreHitsBalanced(base + N_CORE, m, core);
      ShiftByCoreCount(m);
      ShiftByCoreCount(core - base);
    }
  }

  lemma ShiftByCoreCount(x: int)
    ensures (x + N_CORE) / N_CORE == x / N_CORE + 1
    ensures (x + N_CORE) % N_CORE == x % N_CORE
    ensures (x - N_CORE) % N_CORE == x % N_CORE
  {
    assert x == (x / N_CORE) * N_CORE + x % N_CORE;
    assert x + N_CORE == (x / N_CORE + 1) * N_CORE + x % N_CORE;
    assert x - N_CORE == (x / N_CORE - 1) * N_CORE + x % N_CORE;
  }

  /** Any N_CORE consecutive source ids select each core exactly once. */
  lemma EachCoreOncePerWindow(base: nat, core: nat)
    requires core < N_CORE
    ensures CoreHits(base, N_CORE, core) == 1
  {
    CoreHitsBalanced(base, N_CORE, core);
  }

  /** Over any window of source ids no core is chosen more than once more often than another. */
  lemma CoreSelectionFair(base: nat, n: nat, c1: nat, c2: nat)
    requires c1 < N_CORE && c2 < N_CORE
    ensures CoreHits(base, n, c1) <= CoreHits(base, n, c2) + 1
    ensures n % N_CORE == 0 ==> CoreHits(base, n, c1) == CoreHits(base, n, c2) == n / N_CORE
  {
    CoreHitsBalanced(base, n, c1);
    CoreHitsBalanced(base, n, c2);
  }
}
