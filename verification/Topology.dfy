/**
  Clusters of runtime processes and the routing decisions each process takes.

  Every runtime process has a global rank.  Ranks are contiguous over the clusters: cluster c
  owns Offset(c) .. Offset(c + 1), and its first process, the head, talks to the proxy.  The
  console process has rank -1 and belongs to cluster 0.
*/
module Topology {

  datatype Clusters = Clusters(sizes: seq<nat>, console: bool)

  predicate Valid(t: Clusters) {
    && |t.sizes| > 0
    && forall c :: 0 <= c < |t.sizes| ==> t.sizes[c] > 0
  }

  /** Rank of the first process of cluster c (`cluster_offset`). */
  function Offset(sizes: seq<nat>, c: nat): nat
    requires c <= |sizes|
  {
    if c == 0 then 0 else Offset(sizes, c - 1) + sizes[c - 1]
  }

  function Processes(t: Clusters): nat {
    Offset(t.sizes, |t.sizes|)
  }

  /** `totaldcmpiranks`: the processes plus the console when it runs a filter. */
  function TotalRanks(t: Clusters): nat {
    Processes(t) + if t.console then 1 else 0
  }

  predicate IsProcess(t: Clusters, r: int) {
    0 <= r < Processes(t)
  }

  predicate IsRank(t: Clusters, r: int) {
    IsProcess(t, r) || (r == -1 && t.console)
  }

  function ClusterBelow(sizes: seq<nat>, r: nat, c: nat): (k: nat)
    requires c <= |sizes| && r < Offset(sizes, c)
    ensures k < c && Offset(sizes, k) <= r < Offset(sizes, k + 1)
  {
    if Offset(sizes, c - 1) <= r then c - 1 else ClusterBelow(sizes, r, c - 1)
  }

  /** `dcmpi_cluster_rank` of a rank. */
  function ClusterOf(t: Clusters, r: int): (c: nat)
    requires Valid(t) && IsRank(t, r)
    ensures c < |t.sizes|
    ensures r == -1 ==> c == 0
    ensures r >= 0 ==> Offset(t.sizes, c) <= r < Offset(t.sizes, c + 1)
  {
    if r == -1 then 0 else ClusterBelow(t.sizes, r, |t.sizes|)
  }

  function Head(t: Clusters, c: nat): int
    requires Valid(t) && c < |t.sizes|
  {
    Offset(t.sizes, c)
  }

  predicate IsHead(t: Clusters, r: int)
    requires Valid(t) && IsRank(t, r)
  {
    r >= 0 && r == Head(t, ClusterOf(t, r))
  }

  lemma {:induction false} OffsetMonotone(sizes: seq<nat>, c: nat, k: nat)
    requires c <= k <= |sizes|
    ensures Offset(sizes, c) <= Offset(sizes, k)
    decreases k
  {
    if c < k {
      OffsetMonotone(sizes, c, k - 1);
    }
  }

  /** A process belongs to exactly one cluster. */
  lemma {:induction false} ClusterUnique(t: Clusters, r: int, c: nat)
    requires Valid(t) && IsProcess(t, r) && c < |t.sizes|
    requires Offset(t.sizes, c) <= r < Offset(t.sizes, c + 1)
    ensures ClusterOf(t, r) == c
  {
    var k := ClusterOf(t, r);
    if k < c {
      OffsetMonotone(t.sizes, k + 1, c);
    } else if c < k {
      OffsetMonotone(t.sizes, c + 1, k);
    }
  }

  lemma {:induction false} HeadIsProcess(t: Clusters, c: nat)
    requires Valid(t) && c < |t.sizes|
    ensures IsProcess(t, Head(t, c)) && ClusterOf(t, Head(t, c)) == c && IsHead(t, Head(t, c))
    ensures c == 0 <==> Head(t, c) == 0
  {
    OffsetMonotone(t.sizes, c + 1, |t.sizes|);
    ClusterUnique(t, Head(t, c), c);
    if c > 0 {
      OffsetMonotone(t.sizes, 1, c);
      assert Offset(t.sizes, 0) == 0;
    }
  }

  // ---------------------------------------------------------------------------
  // Places where a packet can wait
  // ---------------------------------------------------------------------------

  datatype Place =
    | OutQ(rank: int)            // single_mpi_outqueue of a process
    | Link(from: int, to: int)   // socket between two processes of one cluster
    | ProxyQ(cluster: nat)       // mpi_to_proxy_queue of the head of a cluster
    | Wire(cluster: nat)         // the head's socket into the proxy server
    | ProxyIn(cluster: nat)      // the proxy server's queue towards a cluster
    | ConsoleQ                   // mpi_to_console_queue of process 0
    | ToConsole                  // socket from process 0 to the console
    | ConsoleOut                 // console_to_mpi_queue of the console
    | FromSock                   // socket from the console to process 0
    | FromConsoleQ               // mpi_from_console_queue of process 0

  datatype Target = Forward(place: Place) | Deliver

  /**
    Where process `me` puts a packet for rank `d` that is not its own
    (`dcmpisock_deliver_elsewhere`).
  */
  function Elsewhere(t: Clusters, me: int, d: int): Place
    requires Valid(t) && IsProcess(t, me) && IsRank(t, d)
  {
    if d == -1 && me == 0 then
      ConsoleQ
    else if IsHead(t, me) && |t.sizes| > 1 && ClusterOf(t, d) != ClusterOf(t, me) then
      ProxyQ(ClusterOf(t, me))
    else if d == -1 || ClusterOf(t, d) != ClusterOf(t, me) then
      Link(me, Head(t, ClusterOf(t, me)))
    else
      Link(me, d)
  }

  /** The queue a filter on rank s writes to when its target is on another rank d. */
  function Origin(t: Clusters, s: int, d: int): Place
    requires Valid(t) && IsRank(t, s) && IsRank(t, d)
  {
    if s == -1 then
      ConsoleOut
    else if d == -1 && s == 0 then
      ConsoleQ
    else if IsHead(t, s) && ClusterOf(t, d) != ClusterOf(t, s) then
      ProxyQ(ClusterOf(t, s))
    else
      OutQ(s)
  }

  /** A place holds only packets for which its onward step makes sense. */
  predicate Fits(t: Clusters, pl: Place, d: int)
    requires Valid(t) && IsRank(t, d)
  {
    match pl
    case OutQ(r) => IsProcess(t, r) && r != d && Origin(t, r, d) == OutQ(r)
    case Link(a, b) =>
      && IsProcess(t, a) && IsProcess(t, b) && a != b && ClusterOf(t, a) == ClusterOf(t, b)
      && (d == b || (IsHead(t, b) && (d == -1 || ClusterOf(t, d) != ClusterOf(t, b))))
    case ProxyQ(c) => c < |t.sizes| && ClusterOf(t, d) != c
    case Wire(c) => c < |t.sizes| && ClusterOf(t, d) != c
    case ProxyIn(c) => c == ClusterOf(t, d)
    case ConsoleQ => d == -1
    case ToConsole => d == -1
    case ConsoleOut => d != -1
    case FromSock => d != -1
    case FromConsoleQ => d != -1
  }

  /** What happens to a packet for d when it leaves `pl`. */
  function Next(t: Clusters, pl: Place, d: int): Target
    requires Valid(t) && IsRank(t, d) && Fits(t, pl, d)
  {
    match pl
    case OutQ(r) => Forward(Elsewhere(t, r, d))
    case Link(a, b) => if d == b then Deliver else Forward(Elsewhere(t, b, d))
    case ProxyQ(c) => Forward(Wire(c))
    case Wire(c) => Forward(ProxyIn(ClusterOf(t, d)))
    case ProxyIn(c) =>
      HeadIsProcess(t, c);
      if d == Head(t, c) then Deliver else Forward(Elsewhere(t, Head(t, c), d))
    case ConsoleQ => Forward(ToConsole)
    case ToConsole => Deliver
    case ConsoleOut => Forward(FromSock)
    case FromSock => Forward(FromConsoleQ)
    case FromConsoleQ =>
      HeadIsProcess(t, 0);
      if d == 0 then Deliver else Forward(Elsewhere(t, 0, d))
  }

  /** The rank whose main loop (or console thread) takes packets out of `pl`, if any. */
  datatype Handler = Thread | Main(rank: int)

  function HandlerOf(t: Clusters, pl: Place): Handler
    requires Valid(t)
  {
    match pl
    case Link(a, b) => Main(b)
    case ProxyIn(c) => if c < |t.sizes| then Main(Head(t, c)) else Thread
    case ToConsole => Main(-1)
    case FromConsoleQ => Main(0)
    case _ => Thread
  }

  /** Position of a place on every route through it. */
  function Stage(pl: Place, d: int): (k: nat)
    ensures k <= 8
  {
    match pl
    case ConsoleOut => 0
    case FromSock => 1
    case FromConsoleQ => 2
    case OutQ(r) => 2
    case Link(a, b) => if d == b then 7 else 3
    case ProxyQ(c) => 4
    case Wire(c) => 5
    case ProxyIn(c) => 6
    case ConsoleQ => 7
    case ToConsole => 8
  }

  lemma {:induction false} ElsewhereFits(t: Clusters, me: int, d: int)
    requires Valid(t) && IsProcess(t, me) && IsRank(t, d) && me != d
    ensures Fits(t, Elsewhere(t, me, d), d)
  {
    HeadIsProcess(t, ClusterOf(t, me));
    HeadIsProcess(t, 0);
  }

  /** Every step stays well placed and moves strictly forward, so routes have no cycles. */
  lemma {:induction false} NextFits(t: Clusters, pl: Place, d: int)
    requires Valid(t) && IsRank(t, d) && Fits(t, pl, d)
    ensures var n := Next(t, pl, d);
            && (n.Forward? ==> Fits(t, n.place, d) && Stage(pl, d) < Stage(n.place, d))
            && (n.Deliver? <==> HandlerOf(t, pl) == Main(d))
  {
    HeadIsProcess(t, 0);
    HeadIsProcess(t, ClusterOf(t, d));
    match pl
    case OutQ(r) => HeadIsProcess(t, ClusterOf(t, r)); ElsewhereFits(t, r, d);
    case Link(a, b) => if d != b { ElsewhereFits(t, b, d); }
    case ProxyIn(c) => if d != Head(t, c) { ElsewhereFits(t, Head(t, c), d); }
    case FromConsoleQ => if d != 0 { ElsewhereFits(t, 0, d); }
    case _ =>
  }

  lemma {:induction false} OriginFits(t: Clusters, s: int, d: int)
    requires Valid(t) && IsRank(t, s) && IsRank(t, d) && s != d
    ensures Fits(t, Origin(t, s, d), d)
    ensures s >= 0 ==>
      var e := Elsewhere(t, s, d);
      && Fits(t, e, d)
      && (Origin(t, s, d) == e || (Origin(t, s, d) == OutQ(s) && Next(t, OutQ(s), d) == Forward(e)))
  {
    if s >= 0 {
      ElsewhereFits(t, s, d);
      HeadIsProcess(t, ClusterOf(t, s));
      HeadIsProcess(t, 0);
    }
  }

  // ---------------------------------------------------------------------------
  // Routes
  // ---------------------------------------------------------------------------

  /** The ranks whose main loop handles the packet along the route. */
  function Visits(t: Clusters, pl: Place, d: int): seq<int>
    requires Valid(t) && IsRank(t, d) && Fits(t, pl, d)
    decreases 8 - Stage(pl, d)
  {
    NextFits(t, pl, d);
    var n := Next(t, pl, d);
    var h := HandlerOf(t, pl);
    (if h.Main? then [h.rank] else []) + if n.Deliver? then [] else Visits(t, n.place, d)
  }

  /** `v` followed by d, unless d is already its last element. */
  function EndingIn(v: seq<int>, d: int): seq<int> {
    if |v| > 0 && v[|v| - 1] == d then v else v + [d]
  }

  /** The handlers of a packet from s to d, in closed form. */
  function Relays(t: Clusters, s: int, d: int): seq<int>
    requires Valid(t) && IsRank(t, s) && IsRank(t, d)
  {
    var cs, cd := ClusterOf(t, s), ClusterOf(t, d);
    var up := if s == -1 || (!IsHead(t, s) && (d == -1 || cd != cs)) then [Head(t, cs)] else [];
    var down := if cd != cs then [Head(t, cd)] else [];
    EndingIn(up + down, d)
  }

  /** Threads do not handle packets. */
  lemma {:induction false} VisitsThrough(t: Clusters, pl: Place, d: int, next: Place)
    requires Valid(t) && IsRank(t, d) && Fits(t, pl, d) && Next(t, pl, d) == Forward(next)
    requires HandlerOf(t, pl) == Thread
    ensures Fits(t, next, d) && Visits(t, pl, d) == Visits(t, next, d)
  {
    NextFits(t, pl, d);
    assert Visits(t, pl, d) == [] + Visits(t, next, d);
  }

  lemma {:induction false} VisitsLocal(t: Clusters, h: int, d: int)
    requires Valid(t) && IsProcess(t, h) && IsRank(t, d) && h != d
    requires ClusterOf(t, h) == ClusterOf(t, d) && (IsHead(t, h) || d != -1)
    ensures Fits(t, Elsewhere(t, h, d), d) && Visits(t, Elsewhere(t, h, d), d) == [d]
  {
    ElsewhereFits(t, h, d);
    HeadIsProcess(t, 0);
    if d == -1 {
      assert Visits(t, ToConsole, d) == [d];
      assert Visits(t, ConsoleQ, d) == [] + [d];
    }
  }

  lemma {:induction false} VisitsProxy(t: Clusters, c: nat, d: int)
    requires Valid(t) && IsRank(t, d) && c < |t.sizes| && ClusterOf(t, d) != c
    ensures Visits(t, ProxyQ(c), d) == EndingIn([Head(t, ClusterOf(t, d))], d)
  {
    var k := ClusterOf(t, d);
    var h := Head(t, k);
    HeadIsProcess(t, k);
    if d != h {
      VisitsLocal(t, h, d);
      NextFits(t, ProxyIn(k), d);
      assert Visits(t, ProxyIn(k), d) == [h] + [d];
    } else {
      assert Visits(t, ProxyIn(k), d) == [h];
    }
    VisitsThrough(t, Wire(c), d, ProxyIn(k));
    VisitsThrough(t, ProxyQ(c), d, Wire(c));
  }

  /** From a head, and from the console. */
  lemma {:induction false} VisitsFromHead(t: Clusters, h: int, d: int)
    requires Valid(t) && IsProcess(t, h) && IsHead(t, h) && IsRank(t, d) && h != d
    ensures Fits(t, Elsewhere(t, h, d), d)
    ensures Visits(t, Elsewhere(t, h, d), d)
         == EndingIn(if ClusterOf(t, d) != ClusterOf(t, h) then [Head(t, ClusterOf(t, d))] else [], d)
  {
    ElsewhereFits(t, h, d);
    HeadIsProcess(t, 0);
    if ClusterOf(t, d) == ClusterOf(t, h) {
      VisitsLocal(t, h, d);
    } else {
      VisitsProxy(t, ClusterOf(t, h), d);
    }
  }

  lemma {:induction false} VisitsFromZero(t: Clusters, d: int)
    requires Valid(t) && IsProcess(t, d) && t.console
    ensures Visits(t, FromConsoleQ, d) == Relays(t, -1, d)
  {
    HeadIsProcess(t, 0);
    NextFits(t, FromConsoleQ, d);
    if d == 0 {
      assert Visits(t, FromConsoleQ, d) == [0] + [];
    } else {
      VisitsFromHead(t, 0, d);
      var rest := Visits(t, Elsewhere(t, 0, d), d);
      assert Visits(t, FromConsoleQ, d) == [0] + rest;
      var k := ClusterOf(t, d);
      HeadIsProcess(t, k);
      assert ClusterOf(t, 0) == 0;
      if k != 0 {
        assert [0] + [Head(t, k)] == [0, Head(t, k)];
      }
    }
  }

  lemma {:induction false} VisitsFromConsole(t: Clusters, d: int)
    requires Valid(t) && IsProcess(t, d) && t.console
    ensures Visits(t, ConsoleOut, d) == Relays(t, -1, d)
  {
    VisitsFromZero(t, d);
    VisitsThrough(t, FromSock, d, FromConsoleQ);
    VisitsThrough(t, ConsoleOut, d, FromSock);
  }

  /** A process that is not the head passes everything that leaves its cluster to the head. */
  lemma {:induction false} UpToHead(t: Clusters, s: int, d: int)
    requires Valid(t) && IsProcess(t, s) && !IsHead(t, s) && IsRank(t, d) && s != d
    requires d == -1 || ClusterOf(t, d) != ClusterOf(t, s)
    ensures var h := Head(t, ClusterOf(t, s));
            && IsProcess(t, h) && IsHead(t, h) && h != d && ClusterOf(t, h) == ClusterOf(t, s)
            && Fits(t, Elsewhere(t, h, d), d)
            && Fits(t, Elsewhere(t, s, d), d)
            && Visits(t, Elsewhere(t, s, d), d) == [h] + Visits(t, Elsewhere(t, h, d), d)
  {
    var h := Head(t, ClusterOf(t, s));
    HeadIsProcess(t, ClusterOf(t, s));
    ElsewhereFits(t, s, d);
    ElsewhereFits(t, h, d);
    assert Elsewhere(t, s, d) == Link(s, h);
  }

  lemma {:induction false} VisitsThroughHead(t: Clusters, s: int, d: int)
    requires Valid(t) && IsProcess(t, s) && !IsHead(t, s) && IsRank(t, d) && s != d
    requires d == -1 || ClusterOf(t, d) != ClusterOf(t, s)
    ensures Fits(t, Elsewhere(t, s, d), d) && Visits(t, Elsewhere(t, s, d), d) == Relays(t, s, d)
  {
    UpToHead(t, s, d);
    var h := Head(t, ClusterOf(t, s));
    VisitsFromHead(t, h, d);
    if ClusterOf(t, d) != ClusterOf(t, s) {
      HeadIsProcess(t, ClusterOf(t, d));
      var k := Head(t, ClusterOf(t, d));
      assert [h] + [k] == [h, k] && [h, k] + [d] == [h] + ([k] + [d]);
    }
  }

  lemma {:induction false} VisitsFromProcess(t: Clusters, s: int, d: int)
    requires Valid(t) && IsProcess(t, s) && IsRank(t, d) && s != d
    ensures Fits(t, Elsewhere(t, s, d), d) && Visits(t, Elsewhere(t, s, d), d) == Relays(t, s, d)
  {
    HeadIsProcess(t, ClusterOf(t, s));
    if IsHead(t, s) {
      VisitsFromHead(t, s, d);
    } else if d != -1 && ClusterOf(t, d) == ClusterOf(t, s) {
      VisitsLocal(t, s, d);
    } else {
      VisitsThroughHead(t, s, d);
    }
  }

  lemma {:induction false} VisitsAreRelays(t: Clusters, s: int, d: int)
    requires Valid(t) && IsRank(t, s) && IsRank(t, d) && s != d
    ensures Fits(t, Origin(t, s, d), d)
    ensures Visits(t, Origin(t, s, d), d) == Relays(t, s, d)
  {
    OriginFits(t, s, d);
    if s == -1 {
      VisitsFromConsole(t, d);
    } else {
      VisitsFromProcess(t, s, d);
      if Origin(t, s, d) != Elsewhere(t, s, d) {
        VisitsThrough(t, OutQ(s), d, Elsewhere(t, s, d));
      }
    }
  }

  lemma {:induction false} RelaysShape(t: Clusters, s: int, d: int)
    requires Valid(t) && IsRank(t, s) && IsRank(t, d) && s != d
    ensures var v := Relays(t, s, d);
            && 1 <= |v| <= 3
            && v[|v| - 1] == d
            && s !in v
            && forall i, j :: 0 <= i < j < |v| ==> v[i] != v[j]
  {
    var cs, cd := ClusterOf(t, s), ClusterOf(t, d);
    HeadIsProcess(t, cs);
    HeadIsProcess(t, cd);
    var hs, hd, v := Head(t, cs), Head(t, cd), Relays(t, s, d);
    var goesUp := s == -1 || (!IsHead(t, s) && (d == -1 || cd != cs));
    if goesUp && cd != cs {
      assert v == EndingIn([hs, hd], d) && hs != hd && hs != d;
    } else if goesUp {
      assert v == EndingIn([hs], d);
    } else if cd != cs {
      assert v == EndingIn([hd], d);
    } else {
      assert v == [d];
    }
  }

  /**
    Routing reaches every destination: the handlers between s and d are at most three, pairwise
    different, none is the sender, the last is d and only the last is d.
  */
  lemma {:induction false} RoutingTotality(t: Clusters, s: int, d: int)
    requires Valid(t) && IsRank(t, s) && IsRank(t, d) && s != d
    ensures Fits(t, Origin(t, s, d), d)
    ensures var v := Visits(t, Origin(t, s, d), d);
            && 1 <= |v| <= 3
            && v[|v| - 1] == d
            && s !in v
            && forall i, j :: 0 <= i < j < |v| ==> v[i] != v[j]
  {
    VisitsAreRelays(t, s, d);
    RelaysShape(t, s, d);
  }

  /** Every socket a process writes to exists: it leads to another process of its own cluster. */
  lemma {:induction false} OutrankValid(t: Clusters, me: int, d: int)
    requires Valid(t) && IsProcess(t, me) && IsRank(t, d) && me != d
    ensures var e := Elsewhere(t, me, d);
            e.Link? ==>
              var c := ClusterOf(t, me);
              && e.from == me
              && e.to != me
              && 0 <= e.to - Offset(t.sizes, c) < t.sizes[c]
  {
    ElsewhereFits(t, me, d);
  }
}
