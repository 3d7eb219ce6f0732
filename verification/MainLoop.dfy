/**
  The main loop of one process, over the numbers the process really has: its rank inside its
  cluster, the cluster's offset and size, and sockets indexed by rank.  Each action is shown to do
  to this process exactly what the corresponding step of the whole runtime does.
*/
module MainLoop {
  import opened Common
  import opened Topology
  import opened RouteCount
  import opened Network
  import opened Runtime

  /** What a socket carries: a header, and for a buffer its body as a second piece. */
  datatype Chunk = Head(p: Packet, bodyLength: nat) | Body(bytes: Bytes)

  function Header(p: Packet): Packet {
    if p.kind.Buffer? then p.(kind := Buffer([])) else p
  }

  function Frame(p: Packet): seq<Chunk> {
    [Head(Header(p), Size(p))] + if p.kind.Buffer? then [Body(p.kind.body)] else []
  }

  function Frames(q: seq<Packet>): seq<Chunk> {
    if q == [] then [] else Frame(q[0]) + Frames(q[1..])
  }

  /** The done message of `me` for rank d, if it goes out at `pl`. */
  function DoneMessage(c: Config, me: int, d: int, pl: Place): seq<Packet>
    requires ValidConfig(c) && IsProcess(c.clusters, me) && IsRank(c.clusters, d)
  {
    if d != me && Elsewhere(c.clusters, me, d) == pl then [DonePacket(c, me, d)] else []
  }

  /** The done messages of `me` for ranks lo .. hi that go out at `pl`, in order. */
  function DoneMessages(c: Config, me: int, lo: int, hi: int, pl: Place): seq<Packet>
    requires ValidConfig(c) && IsProcess(c.clusters, me)
    requires -1 <= lo <= hi <= Processes(c.clusters) && (lo == -1 ==> c.clusters.console)
    decreases hi - lo
  {
    if lo == hi then [] else DoneMessages(c, me, lo, hi - 1, pl) + DoneMessage(c, me, hi - 1, pl)
  }

  class Process {
    ghost const c: Config
    const dcmpiRank: int
    const rank: nat
    const size: nat
    const clusterRank: nat
    const clusterOffset: nat
    const totalRanks: nat
    const useProxy: bool
    const handlesConsole: bool
    const consolePresent: bool
    const clusterRankOf: map<int, int>
    const limit: nat

    var toSocket: seq<seq<Packet>>       // written to the socket of every rank of the cluster
    var toConsole: seq<Packet>           // mpi_to_console_queue
    var toProxy: seq<Packet>             // mpi_to_proxy_queue
    var fromSocket: seq<seq<Chunk>>      // not yet read from the socket of every rank
    var heads: seq<Option<Chunk>>        // heads_without_bodies
    var usage: map<Account, int>         // MUID_MemUsage
    var store: Store                     // in-ports of the filters of the process
    var routed: int                      // all_filter_done_messages_routed
    var doneReceived: int                // num_all_filters_done_received
    ghost var incoming: seq<seq<Packet>> // the packets that fromSocket and heads stand for

    /** The numbers of the process agree with the layout of the clusters. */
    ghost predicate Configured()
      reads this
    {
      && ValidConfig(c) && IsProcess(c.clusters, dcmpiRank)
      && var t := c.clusters;
      && clusterRank == ClusterOf(t, dcmpiRank)
      && clusterOffset == Offset(t.sizes, clusterRank)
      && size == t.sizes[clusterRank]
      && rank == dcmpiRank - clusterOffset
      && totalRanks == TotalRanks(t)
      && useProxy == (|t.sizes| > 1)
      && handlesConsole == (dcmpiRank == 0)
      && consolePresent == t.console
      && (forall r :: IsRank(t, r) ==> ClusterOf(t, r) == Get(clusterRankOf, r, 0))
      && c.limit(RuntimeUse(dcmpiRank)) == limit
      && |toSocket| == |fromSocket| == |heads| == |incoming| == size
    }

    /** The waiting packets of one socket, allowing for a head whose body has not been read. */
    ghost predicate Carries(i: nat)
      requires i < |fromSocket| && i < |heads| && i < |incoming|
      reads this`fromSocket, this`heads, this`incoming
    {
      match heads[i]
      case None => fromSocket[i] == Frames(incoming[i])
      case Some(h) =>
        && incoming[i] != [] && incoming[i][0].kind.Buffer?
        && [h] + fromSocket[i] == Frames(incoming[i])
    }

    ghost predicate Valid()
      reads this
    {
      Configured() && forall i :: 0 <= i < size ==> Carries(i)
    }

    /** The queue behind an onward place, as far as this process writes to it. */
    ghost function Out(pl: Place): seq<Packet>
      reads this
    {
      match pl
      case ConsoleQ => toConsole
      case ProxyQ(k) => if k == clusterRank then toProxy else []
      case Link(a, b) =>
        if a == dcmpiRank && 0 <= b - clusterOffset < |toSocket| then toSocket[b - clusterOffset] else []
      case _ => []
    }

    /** The out-rank of the code is a socket of this process, to where the routing table points. */
    lemma {:induction false} OutrankIsElsewhere(d: int)
      requires Configured() && IsRank(c.clusters, d) && d != dcmpiRank
      ensures var away := d == -1 || ClusterOf(c.clusters, d) != clusterRank;
              var outrank := if away then 0 else d - clusterOffset;
              Elsewhere(c.clusters, dcmpiRank, d)
              == if d == -1 && handlesConsole then ConsoleQ
                 else if rank == 0 && useProxy && ClusterOf(c.clusters, d) != clusterRank then ProxyQ(clusterRank)
                 else Link(dcmpiRank, clusterOffset + outrank)
      ensures var e := Elsewhere(c.clusters, dcmpiRank, d); e.Link? ==> 0 <= e.to - clusterOffset < size
    {
      HeadIsProcess(c.clusters, clusterRank);
      OutrankValid(c.clusters, dcmpiRank, d);
    }

    method WriteSocket(outrank: nat, p: Packet)
      requires outrank < |toSocket|
      modifies this`toSocket
      ensures |toSocket| == old(|toSocket|)
      ensures forall pl :: Out(pl) == if pl == Link(dcmpiRank, clusterOffset + outrank) then old(Out(pl)) + [p] else old(Out(pl))
    {
      toSocket := toSocket[outrank := toSocket[outrank] + [p]];
    }

    /** The ledger choice at the end of `dcmpisock_deliver_elsewhere`. */
    method ReleaseBody(p: Packet, bytes: nat, ghost to: Place)
      requires Configured() && to.Link? && to.from == dcmpiRank
      modifies this`usage
      ensures usage == ChargeTo(old(usage), Release(c, to, p), 0 - bytes)
    {
      if handlesConsole && p.src == -1 {
        usage := Charge(usage, RuntimeUse(dcmpiRank), 0 - bytes);
      } else if p.srcCluster != clusterRank {
        usage := Charge(usage, RuntimeUse(dcmpiRank), 0 - bytes);
      } else {
        usage := Charge(usage, FilterUse(dcmpiRank, p.fromFilter), 0 - bytes);
      }
    }

    /** The packet goes to the place the routing table names, and nowhere else. */
    method DeliverElsewhere(p: Packet)
      requires Configured() && Addressed(c.clusters, p) && p.dst != dcmpiRank
      modifies this`toSocket, this`toConsole, this`toProxy, this`usage, this`routed
      ensures Configured()
      ensures forall pl :: Out(pl) == if pl == Elsewhere(c.clusters, dcmpiRank, p.dst) then old(Out(pl)) + [p]
                                      else old(Out(pl))
      ensures usage == if p.kind.Buffer?
                       then ChargeTo(old(usage), Release(c, Elsewhere(c.clusters, dcmpiRank, p.dst), p), 0 - Size(p))
                       else old(usage)
      ensures routed == old(routed) + if p.kind.FiltersDone? && p.src != dcmpiRank then 1 else 0
    {
      if p.kind.FiltersDone? && p.src != dcmpiRank {
        routed := routed + 1;
      }
      OutrankIsElsewhere(p.dst);
      if p.dst == -1 && handlesConsole {
        toConsole := toConsole + [p];
      } else if rank == 0 && useProxy && p.dstCluster != clusterRank {
        toProxy := toProxy + [p];
      } else {
        DeliverBySocket(p);
      }
    }

    method DeliverBySocket(p: Packet)
      requires Configured() && Addressed(c.clusters, p) && p.dst != dcmpiRank
      requires Elsewhere(c.clusters, dcmpiRank, p.dst).Link?
      modifies this`toSocket, this`usage
      ensures Configured()
      ensures forall pl :: Out(pl) == if pl == Elsewhere(c.clusters, dcmpiRank, p.dst) then old(Out(pl)) + [p]
                                      else old(Out(pl))
      ensures usage == if p.kind.Buffer?
                       then ChargeTo(old(usage), Release(c, Elsewhere(c.clusters, dcmpiRank, p.dst), p), 0 - Size(p))
                       else old(usage)
    {
      OutrankIsElsewhere(p.dst);
      var outrank;
      if p.dst == -1 {
        outrank := 0;
      } else if p.dstCluster != clusterRank {
        outrank := 0;
      } else {
        outrank := p.dst - clusterOffset;
      }
      WriteSocket(outrank, p);
      if p.kind.Buffer? {
        ReleaseBody(p, |p.kind.body|, Link(dcmpiRank, clusterOffset + outrank));
      }
    }

    method DeliverInPlace(p: Packet)
      requires p.dst == dcmpiRank
      modifies this`store, this`doneReceived
      ensures store == Runtime.DeliverIn(old(store), p)
      ensures doneReceived == old(doneReceived) + if p.kind.FiltersDone? then 1 else 0
    {
      var ip := InPort(p.toFilter, p.toPort);
      match p.kind {
        case Buffer(body) =>
          var bm := Arrival(p.fromFilter, body, if dcmpiRank == -1 then Unmetered else RuntimeUse(dcmpiRank));
          store := store.(inbox := Enqueue(store.inbox, ip, bm), arrived := Enqueue(store.arrived, ip, bm));
        case RemovePutter =>
          store := store.(putters := store.putters[ip := Putters(store, ip) - {p.fromFilter}]);
        case FiltersDone =>
          doneReceived := doneReceived + 1;
      }
    }

    /** A packet the main loop has just taken out of `pl`: keep it or pass it on. */
    method Handle(p: Packet, ghost pl: Place)
      requires Valid() && Addressed(c.clusters, p) && Fits(c.clusters, pl, p.dst)
      requires HandlerOf(c.clusters, pl) == Main(dcmpiRank) && p.src != dcmpiRank
      modifies this`toSocket, this`toConsole, this`toProxy, this`usage, this`routed, this`store, this`doneReceived
      ensures Valid()
      ensures Handled(old(store), store, old(routed), routed, old(doneReceived), doneReceived, pl, p)
      ensures var next := Next(c.clusters, pl, p.dst);
              && (forall x :: Out(x) == if next == Forward(x) then old(Out(x)) + [p] else old(Out(x)))
              && usage == if p.kind.Buffer? && next.Forward?
                          then ChargeTo(old(usage), Release(c, next.place, p), 0 - Size(p)) else old(usage)
    {
      NextFits(c.clusters, pl, p.dst);
      NextOfHandler(pl, p);
      if p.dst == dcmpiRank {
        DeliverInPlace(p);
      } else {
        DeliverElsewhere(p);
      }
      assert forall i :: 0 <= i < size && old(Carries(i)) ==> Carries(i);
    }

    /** For a process, passing on always means the routing decision. */
    lemma {:induction false} NextOfHandler(pl: Place, p: Packet)
      requires Configured() && IsRank(c.clusters, p.dst) && Fits(c.clusters, pl, p.dst)
      requires HandlerOf(c.clusters, pl) == Main(dcmpiRank)
      ensures Next(c.clusters, pl, p.dst)
           == if p.dst == dcmpiRank then Deliver else Forward(Elsewhere(c.clusters, dcmpiRank, p.dst))
    {
      NextFits(c.clusters, pl, p.dst);
    }

    /** The in-ports and counters change as in a hop of the whole runtime. */
    ghost predicate Handled(s: Store, s': Store, r: int, r': int, d: int, d': int, pl: Place, p: Packet)
      requires Configured() && IsRank(c.clusters, p.dst) && Fits(c.clusters, pl, p.dst)
      reads this
    {
      var kept := Next(c.clusters, pl, p.dst).Deliver?;
      && s' == (if kept then Runtime.DeliverIn(s, p) else s)
      && d' == d + (if kept && p.kind.FiltersDone? then 1 else 0)
      && r' == r + (if !kept && p.kind.FiltersDone? then 1 else 0)
    }

    ghost predicate CanTake(i: nat, p: Packet)
      requires i < size
      reads this
    {
      && Configured() && i != rank && Addressed(c.clusters, p) && p.src != dcmpiRank
      && Fits(c.clusters, Link(clusterOffset + i, dcmpiRank), p.dst)
    }

    /**
      Read the head and, if the ledger has room, the body of the first packet of a socket.  A head
      whose body does not fit stays behind.
    */
    method ReadPacket(i: nat) returns (read: Option<Packet>)
      requires Valid() && i < size && incoming[i] != []
      modifies this`fromSocket, this`heads, this`usage, this`incoming
      ensures Valid()
      ensures var p := old(incoming[i][0]);
              var fits := p.kind.Buffer? ==> Usage(old(usage), RuntimeUse(dcmpiRank)) + Size(p) <= limit;
              if fits then
                && read == Some(p)
                && incoming == old(incoming[i := incoming[i][1..]])
                && usage == if p.kind.Buffer? then Charge(old(usage), RuntimeUse(dcmpiRank), Size(p)) else old(usage)
              else
                read.None? && incoming == old(incoming) && usage == old(usage)
    {
      assert Carries(i);
      FramesHead(incoming[i]);
      var head: Chunk;
      if heads[i].None? {
        head := fromSocket[i][0];
        fromSocket, heads := fromSocket[i := fromSocket[i][1..]], heads[i := Some(head)];
      } else {
        head := heads[i].value;
      }
      assert [head] + fromSocket[i] == Frames(incoming[i]);
      var p := head.p;
      if p.kind.Buffer? {
        if Usage(usage, RuntimeUse(dcmpiRank)) + head.bodyLength > limit {
          forall k | 0 <= k < size
            ensures Carries(k)
          {
            assert old(Carries(k));
          }
          return None;
        }
        usage := Charge(usage, RuntimeUse(dcmpiRank), head.bodyLength);
        p := p.(kind := Buffer(fromSocket[i][0].bytes));
        fromSocket := fromSocket[i := fromSocket[i][1..]];
      }
      heads, incoming := heads[i := None], incoming[i := incoming[i][1..]];
      forall k | 0 <= k < size
        ensures Carries(k)
      {
        assert old(Carries(k));
      }
      return Some(p);
    }

    /**
      One turn of the socket loop: if the ledger has room, it has the effect of a hop out of the
      socket; otherwise nothing changes.
    */
    method ReadSocket(i: nat) returns (taken: bool)
      requires Valid() && i < size && incoming[i] != [] && CanTake(i, incoming[i][0])
      modifies this
      ensures Valid()
      ensures taken <==> var p := old(incoming[i][0]);
                         p.kind.Buffer? ==> Usage(old(usage), RuntimeUse(dcmpiRank)) + Size(p) <= limit
      ensures !taken ==> unchanged(`toSocket, `toConsole, `toProxy, `usage, `store, `routed, `doneReceived, `incoming)
      ensures taken ==>
        var p, pl := old(incoming[i][0]), Link(clusterOffset + i, dcmpiRank);
        && incoming == old(incoming[i := incoming[i][1..]])
        && Fits(c.clusters, pl, p.dst)
        && (forall x :: Out(x) == if Next(c.clusters, pl, p.dst) == Forward(x) then old(Out(x)) + [p] else old(Out(x)))
        && usage == HopUsage(c, old(usage), pl, p)
        && Handled(old(store), store, old(routed), routed, old(doneReceived), doneReceived, pl, p)
    {
      var read := ReadPacket(i);
      taken := read.Some?;
      if taken {
        Handle(read.value, Link(clusterOffset + i, dcmpiRank));
      }
    }

    lemma {:induction false} FramesHead(q: seq<Packet>)
      requires q != []
      ensures Frames(q) == Frame(q[0]) + Frames(q[1..])
      ensures Frames(q)[0] == Head(Header(q[0]), Size(q[0]))
      ensures q[0].kind.Buffer? ==> Frames(q)[1] == Body(q[0].kind.body) && Frames(q)[2..] == Frames(q[1..])
      ensures !q[0].kind.Buffer? ==> Frames(q)[1..] == Frames(q[1..])
    {
    }

    /** The number of done messages to route, as the main loop computes it at its start. */
    method CountMessagesToRoute() returns (n: int)
      requires Configured()
      ensures n == |RelayedPairs(c.clusters, dcmpiRank)|
    {
      n := 0;
      if rank == 0 {
        var others := size - 1;
        if clusterRank == 0 {
          if consolePresent {
            n := 2 * (size - 1);
            others := others + 1;
          }
        }
        n := n + others * (totalRanks - (others + 1)) * 2;
      }
      MessagesToRouteExact(c.clusters, dcmpiRank);
    }

    method AnnounceTo(rnk: int)
      requires Configured() && IsRank(c.clusters, rnk)
      modifies this`toSocket, this`toConsole, this`toProxy, this`usage, this`routed
      ensures Configured()
      ensures forall pl :: Out(pl) == old(Out(pl)) + DoneMessage(c, dcmpiRank, rnk, pl)
      ensures usage == old(usage) && routed == old(routed)
    {
      if rnk != dcmpiRank {
        DeliverElsewhere(Packet(FiltersDone, rnk, Get(clusterRankOf, rnk, 0), -1, "", dcmpiRank, clusterRank, -1));
      }
    }

    /** The announcement loop: one done message for every other rank, console included. */
    method AnnounceDone()
      requires Configured()
      modifies this`toSocket, this`toConsole, this`toProxy, this`usage, this`routed
      ensures Configured()
      ensures forall pl ::
                Out(pl) == old(Out(pl)) + DoneMessages(c, dcmpiRank, if consolePresent then -1 else 0,
                                                       Processes(c.clusters), pl)
      ensures usage == old(usage) && routed == old(routed)
    {
      var first := 0;
      if consolePresent {
        first := -1;
      }
      var rnk, i := first, 0;
      while i < totalRanks
        invariant 0 <= i <= totalRanks && rnk == first + i && Configured()
        invariant first == if consolePresent then -1 else 0
        invariant forall pl :: Out(pl) == old(Out(pl)) + DoneMessages(c, dcmpiRank, first, rnk, pl)
        invariant usage == old(usage) && routed == old(routed)
      {
        label Before:
        AnnounceTo(rnk);
        forall pl
          ensures Out(pl) == old(Out(pl)) + DoneMessages(c, dcmpiRank, first, rnk + 1, pl)
        {
          assert Out(pl) == old@Before(Out(pl)) + DoneMessage(c, dcmpiRank, rnk, pl);
          Assoc(old(Out(pl)), DoneMessages(c, dcmpiRank, first, rnk, pl), DoneMessage(c, dcmpiRank, rnk, pl));
        }
        rnk, i := rnk + 1, i + 1;
      }
      assert rnk == Processes(c.clusters);
    }
  }
}
