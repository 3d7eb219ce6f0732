/**
  One process of the runtime against the runtime as a whole.  What the process holds mirrors its part
  of the global state, and every turn of its main loop and of its outgoing-queue thread keeps it so:
  the turn is a step of the whole, taken exactly when that step is possible.
*/
module Simulation {
  import opened Common
  import opened Topology
  import opened RouteCount
  import opened Network
  import opened Runtime
  import opened MainLoop
  import Ledger
  import Surroundings

  /** The packets a process has not handled yet: from the sockets, its filters, the console and the proxy. */
  datatype Waits = Waits(sockets: seq<seq<Packet>>, outQueue: seq<Packet>, fromConsole: seq<Packet>, fromProxy: seq<Packet>)

  /** The state with the first packet of a place taken out, and its body charged to the reader. */
  function TakeOut(c: Config, st: State, pl: Place): State
    requires Valid(c.clusters) && Lookup(st.net.at, pl) != []
  {
    var p := Lookup(st.net.at, pl)[0];
    st.(net := Rest(st.net, pl),
        usage := if p.kind.Buffer? then ChargeTo(st.usage, Intake(c, pl), Size(p)) else st.usage)
  }

  /** An in-port holds the same in both stores. */
  ghost predicate SamePort(s: Store, s': Store, ip: InPort) {
    && Lookup(s.inbox, ip) == Lookup(s'.inbox, ip)
    && Lookup(s.arrived, ip) == Lookup(s'.arrived, ip)
    && Putters(s, ip) == Putters(s', ip)
  }

  lemma {:induction false} SamePortDelivered(s: Store, s': Store, p: Packet, ip: InPort)
    requires SamePort(s, s', ip)
    ensures SamePort(DeliverIn(s, p), DeliverIn(s', p), ip)
  {
    DeliveredAt(s, p, ip);
    DeliveredAt(s', p, ip);
  }

  /** n turns of the announcement loop. */
  function Turns(r: int, n: nat): (t: seq<Step>)
    ensures n > 0 ==> t != [] && t[0] == DoAnnounce(r) && t[1..] == Turns(r, n - 1)
  {
    if n == 0 then [] else [DoAnnounce(r)] + Turns(r, n - 1)
  }

  function FirstRank(c: Config): int {
    if c.clusters.console then -1 else 0
  }

  /** The network after process r has told all ranks below d. */
  function Told(c: Config, n: Net, r: int, d: int): Net
    requires ValidConfig(c) && IsRank(c.clusters, r) && FirstRank(c) <= d <= Processes(c.clusters)
    decreases d - FirstRank(c)
  {
    if d == FirstRank(c) then n
    else
      var m := Told(c, n, r, d - 1);
      if d - 1 == r then m else Put(m, DoneEntry(c, r, d - 1), DonePacket(c, r, d - 1))
  }

  /** The state when r is about to tell d. */
  function Telling(c: Config, st: State, r: int, d: int): State
    requires ValidConfig(c) && IsRank(c.clusters, r) && FirstRank(c) <= d <= Processes(c.clusters)
  {
    st.(net := Told(c, st.net, r, d), loop := st.loop[r := Announcing(d)])
  }

  function Announcement(c: Config, st: State, r: int): State
    requires ValidConfig(c) && IsRank(c.clusters, r)
  {
    st.(net := Told(c, st.net, r, Processes(c.clusters)), loop := st.loop[r := Announced])
  }

  lemma {:induction false} Overwrite<K, V>(m: map<K, V>, k: K, a: V, b: V)
    ensures m[k := a][k := b] == m[k := b]
  {
  }

  lemma {:induction false} TellingTurn(c: Config, st: State, r: int, d: int)
    requires ValidConfig(c) && IsRank(c.clusters, r) && FirstRank(c) <= d < Processes(c.clusters)
    ensures CanAnnounce(c, Telling(c, st, r, d), r)
    ensures Announce(c, Telling(c, st, r, d), r) == Telling(c, st, r, d + 1)
  {
    assert LoopOf(Telling(c, st, r, d), r) == Announcing(d);
    Overwrite(st.loop, r, Announcing(d), Announcing(d + 1));
  }

  /** The last turn finds no rank left. */
  lemma {:induction false} LastTurn(c: Config, st: State, r: int)
    requires ValidConfig(c) && IsRank(c.clusters, r)
    ensures Enabled(c, Telling(c, st, r, Processes(c.clusters)), DoAnnounce(r))
    ensures Apply(c, Telling(c, st, r, Processes(c.clusters)), DoAnnounce(r)) == Announcement(c, st, r)
  {
    var n := Processes(c.clusters);
    assert LoopOf(Telling(c, st, r, n), r) == Announcing(n);
    Overwrite(st.loop, r, Announcing(n), Announced);
  }

  lemma {:induction false} AnnounceStep(c: Config, st: State, r: int)
    requires ValidConfig(c) && CanAnnounce(c, st, r)
    ensures Enabled(c, st, DoAnnounce(r)) && Apply(c, st, DoAnnounce(r)) == Announce(c, st, r)
  {
  }

  lemma {:induction false} TurnsRun(c: Config, st: State, r: int, d: int)
    requires ValidConfig(c) && IsRank(c.clusters, r) && FirstRank(c) <= d <= Processes(c.clusters)
    ensures Run(c, Telling(c, st, r, d), Turns(r, Processes(c.clusters) - d + 1), Announcement(c, st, r))
    decreases Processes(c.clusters) - d
  {
    if d == Processes(c.clusters) {
      LastTurn(c, st, r);
    } else {
      TellingTurn(c, st, r, d);
      AnnounceStep(c, Telling(c, st, r, d), r);
      TurnsRun(c, st, r, d + 1);
    }
  }

  /** The whole announcement, once it has begun. */
  lemma {:induction false} AnnouncingRun(c: Config, st: State, r: int)
    requires ValidConfig(c) && IsRank(c.clusters, r)
    ensures Run(c, Begin(c, st, r), Turns(r, TotalRanks(c.clusters) + 1), Announcement(c, st, r))
  {
    assert Processes(c.clusters) - FirstRank(c) == TotalRanks(c.clusters);
    assert Begin(c, st, r) == Telling(c, st, r, FirstRank(c));
    TurnsRun(c, st, r, FirstRank(c));
  }

  lemma {:induction false} ToldTurn(c: Config, n: Net, r: int, d: int, x: Place)
    requires ValidConfig(c) && IsProcess(c.clusters, r) && FirstRank(c) <= d < Processes(c.clusters)
    ensures Lookup(Told(c, n, r, d + 1).at, x) == Lookup(Told(c, n, r, d).at, x) + DoneMessage(c, r, d, x)
  {
    EnqueueAt(Told(c, n, r, d).at, DoneEntry(c, r, d), DonePacket(c, r, d), x);
  }

  lemma {:induction false} Extend<T>(base: seq<T>, more: seq<T>, last: seq<T>, s: seq<T>, s': seq<T>)
    requires s == base + more && s' == s + last
    ensures s' == base + (more + last)
  {
  }

  /** Every queue has grown by the done messages that belong there, in order. */
  lemma {:induction false} ToldAt(c: Config, n: Net, r: int, d: int, x: Place)
    requires ValidConfig(c) && IsProcess(c.clusters, r) && FirstRank(c) <= d <= Processes(c.clusters)
    ensures Lookup(Told(c, n, r, d).at, x) == Lookup(n.at, x) + DoneMessages(c, r, FirstRank(c), d, x)
    decreases d - FirstRank(c)
  {
    if d > FirstRank(c) {
      ToldAt(c, n, r, d - 1, x);
      ToldTurn(c, n, r, d - 1, x);
      Extend(Lookup(n.at, x), DoneMessages(c, r, FirstRank(c), d - 1, x), DoneMessage(c, r, d - 1, x),
             Lookup(Told(c, n, r, d - 1).at, x), Lookup(Told(c, n, r, d).at, x));
    }
  }

  class Rank {
    const p: Process
    var outQueue: seq<Packet>        // single_mpi_outqueue
    var fromConsole: seq<Packet>     // mpi_from_console_queue
    var consoleOpen: bool            // it has its putter
    var fromProxy: seq<Chunk>        // not yet read from proxy_in_socket
    var proxyHead: Option<Chunk>     // proxy_in_packet, while proxy_in_state asks for its body
    ghost var proxyIn: seq<Packet>   // the packets that fromProxy and proxyHead stand for
    var unfinished: set<int>         // unfinished_local_gftids
    var sentDone: bool               // sent_all_filters_done_message
    var toRoute: int                 // all_filter_done_messages_to_route

    /** Before the filter threads start. */
    constructor (process: Process, filters: set<int>)
      requires process.Configured() && process.store == Init(process.c).store
      requires forall g :: g in filters <==> g in process.c.rankOf && process.c.rankOf[g] == process.dcmpiRank
      requires forall i :: 0 <= i < process.size ==>
                 process.fromSocket[i] == [] && process.heads[i].None? && process.incoming[i] == [] && process.toSocket[i] == []
      requires process.toConsole == [] && process.toProxy == [] && process.usage == map[]
      requires process.routed == 0 && process.doneReceived == 0
      ensures p == process && Shows(Init(p.c))
    {
      p := process;
      outQueue, fromConsole, consoleOpen := [], [], true;
      fromProxy, proxyHead, proxyIn := [], None, [];
      unfinished := filters;
      sentDone, toRoute := false, 0;
      new;
      toRoute := p.CountMessagesToRoute();
      MessagesToRouteExact(p.c.clusters, p.dcmpiRank);
    }

    /** A counter of this process. */
    predicate Mine(a: Account) {
      match a
      case FilterUse(r, g) => r == p.dcmpiRank
      case RuntimeUse(r) => r == p.dcmpiRank
      case _ => false
    }

    /** A place this process writes to. */
    predicate Outgoing(pl: Place)
      reads p
    {
      match pl
      case ConsoleQ => p.dcmpiRank == 0
      case ProxyQ(k) => k == p.clusterRank && p.rank == 0
      case Link(a, b) => a == p.dcmpiRank && b != p.dcmpiRank && 0 <= b - p.clusterOffset < |p.toSocket|
      case _ => false
    }

    /** A place this process reads from. */
    predicate Incoming(pl: Place) {
      match pl
      case OutQ(r) => r == p.dcmpiRank
      case FromConsoleQ => p.dcmpiRank == 0
      case ProxyIn(k) => k == p.clusterRank && p.rank == 0
      case Link(a, b) => b == p.dcmpiRank && a != b && 0 <= a - p.clusterOffset < p.size
      case _ => false
    }

    /** What the process has not handled yet. */
    ghost function Ins(): Waits
      reads this, p
    {
      Waits(p.incoming, outQueue, fromConsole, proxyIn)
    }

    ghost function In(w: Waits, pl: Place): seq<Packet> {
      match pl
      case OutQ(r) => w.outQueue
      case FromConsoleQ => w.fromConsole
      case ProxyIn(k) => w.fromProxy
      case Link(a, b) => if 0 <= a - p.clusterOffset < |w.sockets| then w.sockets[a - p.clusterOffset] else []
      case _ => []
    }

    /** The first packet at `pl` is gone. */
    ghost function Without(w: Waits, pl: Place): Waits
      requires In(w, pl) != []
    {
      match pl
      case OutQ(r) => w.(outQueue := w.outQueue[1..])
      case FromConsoleQ => w.(fromConsole := w.fromConsole[1..])
      case ProxyIn(k) => w.(fromProxy := w.fromProxy[1..])
      case Link(a, b) =>
        var i := a - p.clusterOffset;
        w.(sockets := w.sockets[i := w.sockets[i][1..]])
    }

    ghost predicate OutsShow(n: Net)
      reads this, p
    {
      forall pl :: Outgoing(pl) ==> p.Out(pl) == Lookup(n.at, pl)
    }

    ghost predicate InsShow(w: Waits, n: Net) {
      forall pl :: Incoming(pl) ==> In(w, pl) == Lookup(n.at, pl)
    }

    ghost predicate UsageShows(u: map<Account, int>, st: State) {
      forall a :: Mine(a) ==> Usage(u, a) == Usage(st.usage, a)
    }

    ghost predicate StoreShows(s: Store, st: State) {
      forall ip: InPort :: ip.filter in p.c.rankOf && p.c.rankOf[ip.filter] == p.dcmpiRank ==> SamePort(s, st.store, ip)
    }

    ghost predicate CountsShow(routed: int, received: int, st: State) {
      routed == Routed(st.tally, p.dcmpiRank) && received == DoneReceived(st.tally, p.dcmpiRank)
    }

    ghost predicate LifeShows(st: State)
      requires p.Configured()
      reads this, p
    {
      && (p.dcmpiRank == 0 ==> consoleOpen == st.consoleOpen)
      && (forall g :: g in unfinished <==> g in p.c.rankOf && p.c.rankOf[g] == p.dcmpiRank && LifeOf(st, g) != Finished)
      && (sentDone <==> LoopOf(st, p.dcmpiRank) != Looping)
      && toRoute == MessagesToRoute(p.c.clusters, p.dcmpiRank)
    }

    /** As for the sockets of the cluster, a head may have been read ahead of its body. */
    ghost predicate ProxyCarries()
      reads this
    {
      match proxyHead
      case None => fromProxy == Frames(proxyIn)
      case Some(h) => proxyIn != [] && proxyIn[0].kind.Buffer? && [h] + fromProxy == Frames(proxyIn)
    }

    /** The process mirrors its part of the state of the whole runtime. */
    ghost predicate Shows(st: State)
      reads this, p
    {
      && p.Valid() && ProxyCarries() && OutsShow(st.net) && InsShow(Ins(), st.net) && LifeShows(st)
      && UsageShows(p.usage, st) && StoreShows(p.store, st) && CountsShow(p.routed, p.doneReceived, st)
    }

    lemma {:induction false} OutAfter(out: seq<Packet>, x: Place, pl: Place, n: Net)
      requires Valid(p.c.clusters) && Movable(p.c.clusters, n, pl)
      requires out == Lookup(Rest(n, pl).at, x)
      ensures var q := Lookup(n.at, pl);
              Lookup(Move(p.c.clusters, n, pl).at, x) == if Next(p.c.clusters, pl, q[0].dst) == Forward(x) then out + [q[0]] else out
    {
      MoveAt(p.c.clusters, n, pl, x);
    }

    /** What the process passes on goes to a place it writes to and does not read itself. */
    lemma {:induction false} OnwardIsOutgoing(pl: Place, pkt: Packet)
      requires p.Configured() && IsRank(p.c.clusters, pkt.dst) && Fits(p.c.clusters, pl, pkt.dst)
      requires pl == OutQ(p.dcmpiRank) || HandlerOf(p.c.clusters, pl) == Main(p.dcmpiRank)
      ensures var next := Next(p.c.clusters, pl, pkt.dst); next.Forward? ==> Outgoing(next.place) && !Incoming(next.place)
    {
      NextFits(p.c.clusters, pl, pkt.dst);
      if !pl.OutQ? {
        p.NextOfHandler(pl, pkt);
      }
      if pkt.dst != p.dcmpiRank {
        p.OutrankIsElsewhere(pkt.dst);
      }
    }

    lemma {:induction false} InsAfter(w: Waits, pl: Place, n: Net)
      requires p.Configured() && Movable(p.c.clusters, n, pl) && InsShow(w, Rest(n, pl))
      requires Fits(p.c.clusters, pl, Lookup(n.at, pl)[0].dst)
      requires pl == OutQ(p.dcmpiRank) || HandlerOf(p.c.clusters, pl) == Main(p.dcmpiRank)
      ensures InsShow(w, Move(p.c.clusters, n, pl))
    {
      var pkt := Lookup(n.at, pl)[0];
      OnwardIsOutgoing(pl, pkt);
      forall x | Incoming(x)
        ensures In(w, x) == Lookup(Move(p.c.clusters, n, pl).at, x)
      {
        OutAfter(In(w, x), x, pl, n);
      }
    }

    lemma {:induction false} UsageAfter(u: map<Account, int>, pkt: Packet, pl: Place, st: State)
      requires Valid(p.c.clusters) && CanHop(p.c, st, pl) && pkt == Lookup(st.net.at, pl)[0]
      requires UsageShows(u, TakeOut(p.c, st, pl))
      ensures var next := Next(p.c.clusters, pl, pkt.dst);
              UsageShows(if pkt.kind.Buffer? && next.Forward? then ChargeTo(u, Release(p.c, next.place, pkt), 0 - Size(pkt))
                         else u, Hop(p.c, st, pl))
    {
    }

    lemma {:induction false} StoreAfter(s: Store, pkt: Packet, pl: Place, st: State)
      requires Valid(p.c.clusters) && CanHop(p.c, st, pl) && pkt == Lookup(st.net.at, pl)[0]
      requires StoreShows(s, TakeOut(p.c, st, pl))
      ensures StoreShows(if Next(p.c.clusters, pl, pkt.dst).Deliver? then DeliverIn(s, pkt) else s, Hop(p.c, st, pl))
    {
      forall ip: InPort | ip.filter in p.c.rankOf && p.c.rankOf[ip.filter] == p.dcmpiRank
        ensures SamePort(DeliverIn(s, pkt), DeliverIn(st.store, pkt), ip)
      {
        SamePortDelivered(s, st.store, pkt, ip);
      }
    }

    lemma {:induction false} CountsAfter(routed: int, received: int, pkt: Packet, pl: Place, st: State)
      requires p.Configured() && CanHop(p.c, st, pl) && pkt == Lookup(st.net.at, pl)[0] && pkt.src != p.dcmpiRank
      requires HandlerOf(p.c.clusters, pl) == Main(p.dcmpiRank) && CountsShow(routed, received, st)
      ensures var kept := Next(p.c.clusters, pl, pkt.dst).Deliver?;
              CountsShow(routed + if !kept && pkt.kind.FiltersDone? then 1 else 0,
                         received + if kept && pkt.kind.FiltersDone? then 1 else 0, Hop(p.c, st, pl))
    {
      NextFits(p.c.clusters, pl, pkt.dst);
    }

    /** The counters and in-ports, once the packet has been handled. */
    lemma {:induction false} BooksAfter(u: map<Account, int>, u': map<Account, int>, s: Store, s': Store,
                                        r: int, r': int, d: int, d': int, pkt: Packet, pl: Place, st: State)
      requires p.Configured() && CanHop(p.c, st, pl) && pkt == Lookup(st.net.at, pl)[0] && pkt.src != p.dcmpiRank
      requires HandlerOf(p.c.clusters, pl) == Main(p.dcmpiRank)
      requires UsageShows(u, TakeOut(p.c, st, pl)) && StoreShows(s, TakeOut(p.c, st, pl)) && CountsShow(r, d, TakeOut(p.c, st, pl))
      requires p.Handled(s, s', r, r', d, d', pl, pkt)
      requires var next := Next(p.c.clusters, pl, pkt.dst);
               u' == if pkt.kind.Buffer? && next.Forward? then ChargeTo(u, Release(p.c, next.place, pkt), 0 - Size(pkt)) else u
      ensures var after := Hop(p.c, st, pl); UsageShows(u', after) && StoreShows(s', after) && CountsShow(r', d', after)
    {
      UsageAfter(u, pkt, pl, st);
      StoreAfter(s, pkt, pl, st);
      CountsAfter(r, d, pkt, pl, st);
    }

    /** The queues of the process change as those of the whole. */
    method PassOn(pkt: Packet, ghost pl: Place, ghost n: Net)
      requires p.Valid() && Movable(p.c.clusters, n, pl) && HandlerOf(p.c.clusters, pl) == Main(p.dcmpiRank)
      requires var q := Lookup(n.at, pl);
               && pkt == q[0] && pkt.src != p.dcmpiRank
               && OutsShow(Rest(n, pl)) && InsShow(Ins(), Rest(n, pl))
      modifies p
      ensures p.Valid() && OutsShow(Move(p.c.clusters, n, pl)) && InsShow(Ins(), Move(p.c.clusters, n, pl))
      ensures p.Handled(old(p.store), p.store, old(p.routed), p.routed, old(p.doneReceived), p.doneReceived, pl, pkt)
      ensures var next := Next(p.c.clusters, pl, pkt.dst);
              p.usage == if pkt.kind.Buffer? && next.Forward? then ChargeTo(old(p.usage), Release(p.c, next.place, pkt), 0 - Size(pkt))
                         else old(p.usage)
    {
      p.Handle(pkt, pl);
      forall x | Outgoing(x)
        ensures p.Out(x) == Lookup(Move(p.c.clusters, n, pl).at, x)
      {
        OutAfter(old(p.Out(x)), x, pl, n);
      }
      InsAfter(Ins(), pl, n);
    }

    /** Keep the packet or pass it on, once it has been taken out of `pl`. */
    method Dispatch(pkt: Packet, ghost pl: Place, ghost st: State)
      requires Valid(p.c.clusters) && CanHop(p.c, st, pl) && HandlerOf(p.c.clusters, pl) == Main(p.dcmpiRank)
      requires Shows(TakeOut(p.c, st, pl)) && pkt == Lookup(st.net.at, pl)[0] && pkt.src != p.dcmpiRank
      modifies p
      ensures Shows(Hop(p.c, st, pl))
    {
      PassOn(pkt, pl, st.net);
      BooksAfter(old(p.usage), p.usage, old(p.store), p.store, old(p.routed), p.routed,
                 old(p.doneReceived), p.doneReceived, pkt, pl, st);
    }

    /** In a reachable state a waiting packet of this process can be handled if there is room for it. */
    lemma {:induction false} CanTake(pl: Place, st: State)
      requires p.Configured() && Placed(p.c.clusters, st.net) && LoopOf(st, p.dcmpiRank) in {Looping, Announced}
      requires Lookup(st.net.at, pl) != [] && HandlerOf(p.c.clusters, pl) == Main(p.dcmpiRank)
      ensures CanHop(p.c, st, pl) <==> HasRoom(p.c, st, pl)
      ensures Movable(p.c.clusters, st.net, pl) && Lookup(st.net.at, pl)[0].src != p.dcmpiRank
    {
      var pkt := Lookup(st.net.at, pl)[0];
      HeadIsProcess(p.c.clusters, p.clusterRank);
      if pl.ProxyIn? {
        HeadIsProcess(p.c.clusters, pl.cluster);
      }
      Ledger.PlacedConsistent(p.c.clusters, pl, pkt);
    }

    lemma {:induction false} InsTaken(w: Waits, pl: Place, n: Net)
      requires InsShow(w, n) && Incoming(pl) && In(w, pl) != []
      ensures Lookup(n.at, pl) == In(w, pl) && InsShow(Without(w, pl), Rest(n, pl))
    {
      forall x | Incoming(x)
        ensures In(Without(w, pl), x) == Lookup(Rest(n, pl).at, x)
      {
        assert In(w, x) == Lookup(n.at, x);
      }
    }

    /** The counter of the process decides whether there is room, and is charged as that of the whole. */
    lemma {:induction false} IntakeShows(u: map<Account, int>, pl: Place, st: State)
      requires p.Configured() && Lookup(st.net.at, pl) != [] && UsageShows(u, st)
      requires Intake(p.c, pl) == Some(RuntimeUse(p.dcmpiRank))
      ensures var pkt, a := Lookup(st.net.at, pl)[0], RuntimeUse(p.dcmpiRank);
              && (HasRoom(p.c, st, pl) <==> (pkt.kind.Buffer? ==> Usage(u, a) + Size(pkt) <= p.limit))
              && UsageShows(if pkt.kind.Buffer? then Charge(u, a, Size(pkt)) else u, TakeOut(p.c, st, pl))
    {
      assert Usage(u, RuntimeUse(p.dcmpiRank)) == Usage(st.usage, RuntimeUse(p.dcmpiRank));
    }

    lemma {:induction false} ShowsTaken(pl: Place, st: State)
      requires p.Valid() && ProxyCarries() && Lookup(st.net.at, pl) != [] && !Outgoing(pl)
      requires OutsShow(st.net) && LifeShows(st) && StoreShows(p.store, st) && CountsShow(p.routed, p.doneReceived, st)
      requires InsShow(Ins(), TakeOut(p.c, st, pl).net) && UsageShows(p.usage, TakeOut(p.c, st, pl))
      ensures Shows(TakeOut(p.c, st, pl))
    {
    }

    /** Take the first packet out of a socket, charging its body, unless there is no room for it. */
    method ReceiveSocket(i: nat, ghost st: State) returns (read: Option<Packet>)
      requires Shows(st) && i < p.size && i != p.rank && p.incoming[i] != []
      modifies p
      ensures var pl := Link(p.clusterOffset + i, p.dcmpiRank);
              && Lookup(st.net.at, pl) != []
              && (read.Some? <==> HasRoom(p.c, st, pl))
              && (read.Some? ==> read.value == Lookup(st.net.at, pl)[0] && Shows(TakeOut(p.c, st, pl)))
              && (read.None? ==> Shows(st))
    {
      ghost var pl := Link(p.clusterOffset + i, p.dcmpiRank);
      InsTaken(Ins(), pl, st.net);
      IntakeShows(p.usage, pl, st);
      read := p.ReadPacket(i);
      assert OutsShow(st.net);
      if read.Some? {
        ShowsTaken(pl, st);
      } else {
        assert UsageShows(p.usage, st) && LifeShows(st);
      }
    }

    /** A step of others changes what the process mirrors only by what waits in its queues. */
    lemma {:induction false} OnlyQueuesChange(st: State, su: State)
      requires Shows(st) && Surroundings.RestFramed(p.c, st, su, p.dcmpiRank)
      ensures Shows(su) <==> OutsShow(su.net) && InsShow(Ins(), su.net)
    {
      assert UsageShows(p.usage, su) by {
        forall a | Mine(a)
          ensures Usage(p.usage, a) == Usage(su.usage, a)
        {
          assert Surroundings.Own(a, p.dcmpiRank);
        }
      }
      assert StoreShows(p.store, su) by {
        forall ip: InPort | ip.filter in p.c.rankOf && p.c.rankOf[ip.filter] == p.dcmpiRank
          ensures SamePort(p.store, su.store, ip)
        {
          assert Surroundings.OnProcess(p.c, ip.filter, p.dcmpiRank) && SamePort(p.store, st.store, ip);
        }
      }
      assert LifeShows(su) by {
        assert forall g :: g in p.c.rankOf && p.c.rankOf[g] == p.dcmpiRank ==> Surroundings.OnProcess(p.c, g, p.dcmpiRank);
      }
    }

    /** One turn of the socket loop. */
    method TakeSocket(i: nat, ghost st: State) returns (taken: bool)
      requires Shows(st) && Placed(p.c.clusters, st.net) && LoopOf(st, p.dcmpiRank) in {Looping, Announced}
      requires i < p.size && i != p.rank && p.incoming[i] != []
      modifies p
      ensures var pl := Link(p.clusterOffset + i, p.dcmpiRank);
              && (taken <==> CanHop(p.c, st, pl))
              && Shows(if taken then Hop(p.c, st, pl) else st)
    {
      ghost var pl := Link(p.clusterOffset + i, p.dcmpiRank);
      var read := ReceiveSocket(i, st);
      taken := read.Some?;
      CanTake(pl, st);
      if taken {
        Dispatch(read.value, pl, st);
      }
    }

    /** The queue from the console is emptied packet by packet. */
    method TakeFromConsole(ghost st: State)
      requires Shows(st) && Placed(p.c.clusters, st.net) && LoopOf(st, p.dcmpiRank) in {Looping, Announced}
      requires p.handlesConsole && fromConsole != []
      modifies this`fromConsole, p
      ensures CanHop(p.c, st, FromConsoleQ) && Shows(Hop(p.c, st, FromConsoleQ))
    {
      InsTaken(Ins(), FromConsoleQ, st.net);
      CanTake(FromConsoleQ, st);
      var pkt := fromConsole[0];
      fromConsole := fromConsole[1..];
      assert OutsShow(st.net);
      ShowsTaken(FromConsoleQ, st);
      Dispatch(pkt, FromConsoleQ, st);
    }

    /** The head of the next packet from the proxy, and its body once the ledger has room for it. */
    method ReadProxy() returns (read: Option<Packet>)
      requires p.Valid() && ProxyCarries() && proxyIn != []
      modifies this`fromProxy, this`proxyHead, this`proxyIn, p`usage
      ensures p.Valid() && ProxyCarries() && forall pl :: p.Out(pl) == old(p.Out(pl))
      ensures var pkt := old(proxyIn[0]);
              var fits := pkt.kind.Buffer? ==> Usage(old(p.usage), RuntimeUse(p.dcmpiRank)) + Size(pkt) <= p.limit;
              if fits then
                && read == Some(pkt) && proxyIn == old(proxyIn[1..])
                && p.usage == if pkt.kind.Buffer? then Charge(old(p.usage), RuntimeUse(p.dcmpiRank), Size(pkt)) else old(p.usage)
              else
                read.None? && proxyIn == old(proxyIn) && p.usage == old(p.usage)
    {
      p.FramesHead(proxyIn);
      var head: Chunk;
      if proxyHead.None? {
        head := fromProxy[0];
        fromProxy, proxyHead := fromProxy[1..], Some(head);
      } else {
        head := proxyHead.value;
      }
      assert [head] + fromProxy == Frames(proxyIn);
      var pkt := head.p;
      if pkt.kind.Buffer? {
        if Usage(p.usage, RuntimeUse(p.dcmpiRank)) + head.bodyLength > p.limit {
          return None;
        }
        p.usage := Charge(p.usage, RuntimeUse(p.dcmpiRank), head.bodyLength);
        pkt := pkt.(kind := Buffer(fromProxy[0].bytes));
        fromProxy := fromProxy[1..];
      }
      proxyHead, proxyIn := None, proxyIn[1..];
      return Some(pkt);
    }

    method ReceiveProxy(ghost st: State) returns (read: Option<Packet>)
      requires Shows(st) && p.rank == 0 && proxyIn != []
      modifies this`fromProxy, this`proxyHead, this`proxyIn, p`usage
      ensures var pl := ProxyIn(p.clusterRank);
              && Lookup(st.net.at, pl) != []
              && (read.Some? <==> HasRoom(p.c, st, pl))
              && (read.Some? ==> read.value == Lookup(st.net.at, pl)[0] && Shows(TakeOut(p.c, st, pl)))
              && (read.None? ==> Shows(st))
    {
      ghost var pl := ProxyIn(p.clusterRank);
      HeadIsProcess(p.c.clusters, p.clusterRank);
      InsTaken(Ins(), pl, st.net);
      IntakeShows(p.usage, pl, st);
      read := ReadProxy();
      if read.Some? {
        ShowsTaken(pl, st);
      } else {
        assert Shows(st);
      }
    }

    /** The first packet from the proxy, if there is room for it. */
    method TakeFromProxy(ghost st: State) returns (taken: bool)
      requires Shows(st) && Placed(p.c.clusters, st.net) && LoopOf(st, p.dcmpiRank) in {Looping, Announced}
      requires p.rank == 0 && proxyIn != []
      modifies this`fromProxy, this`proxyHead, this`proxyIn, p
      ensures var pl := ProxyIn(p.clusterRank);
              && (taken <==> CanHop(p.c, st, pl))
              && Shows(if taken then Hop(p.c, st, pl) else st)
    {
      ghost var pl := ProxyIn(p.clusterRank);
      HeadIsProcess(p.c.clusters, p.clusterRank);
      var read := ReceiveProxy(st);
      taken := read.Some?;
      CanTake(pl, st);
      if taken {
        Dispatch(read.value, pl, st);
      }
    }

    ghost function SentUsage(u: map<Account, int>, pkt: Packet): map<Account, int>
      requires p.Configured() && IsRank(p.c.clusters, pkt.dst)
      reads p
    {
      if pkt.kind.Buffer? then ChargeTo(u, Release(p.c, Elsewhere(p.c.clusters, p.dcmpiRank, pkt.dst), pkt), 0 - Size(pkt)) else u
    }

    /** The queues of the process, when its outgoing-queue thread passes on a packet. */
    method SendOn(pkt: Packet, ghost n: Net)
      requires p.Valid() && Movable(p.c.clusters, n, OutQ(p.dcmpiRank)) && pkt == Lookup(n.at, OutQ(p.dcmpiRank))[0]
      requires pkt.src == p.dcmpiRank && OutsShow(n) && InsShow(Ins(), Rest(n, OutQ(p.dcmpiRank)))
      modifies p
      ensures var after := Move(p.c.clusters, n, OutQ(p.dcmpiRank)); p.Valid() && OutsShow(after) && InsShow(Ins(), after)
      ensures p.store == old(p.store) && p.routed == old(p.routed) && p.doneReceived == old(p.doneReceived)
      ensures p.usage == SentUsage(old(p.usage), pkt)
    {
      p.DeliverElsewhere(pkt);
      assert forall i :: 0 <= i < p.size && old(p.Carries(i)) ==> p.Carries(i);
      forall x | Outgoing(x)
        ensures p.Out(x) == Lookup(Move(p.c.clusters, n, OutQ(p.dcmpiRank)).at, x)
      {
        OutAfter(old(p.Out(x)), x, OutQ(p.dcmpiRank), n);
      }
      InsAfter(Ins(), OutQ(p.dcmpiRank), n);
    }

    lemma {:induction false} SentBooks(u: map<Account, int>, st: State)
      requires p.Configured() && Placed(p.c.clusters, st.net) && Lookup(st.net.at, OutQ(p.dcmpiRank)) != []
      ensures CanHop(p.c, st, OutQ(p.dcmpiRank)) && Lookup(st.net.at, OutQ(p.dcmpiRank))[0].src == p.dcmpiRank
      ensures var pkt, after := Lookup(st.net.at, OutQ(p.dcmpiRank))[0], Hop(p.c, st, OutQ(p.dcmpiRank));
              && after == st.(net := Move(p.c.clusters, st.net, OutQ(p.dcmpiRank)), usage := after.usage)
              && (UsageShows(u, st) ==> UsageShows(SentUsage(u, pkt), after))
    {
      Ledger.PlacedConsistent(p.c.clusters, OutQ(p.dcmpiRank), Lookup(st.net.at, OutQ(p.dcmpiRank))[0]);
    }

    lemma {:induction false} ShowsSent(st: State, after: State)
      requires p.Valid() && ProxyCarries() && OutsShow(after.net) && InsShow(Ins(), after.net) && UsageShows(p.usage, after)
      requires LifeShows(st) && StoreShows(p.store, st) && CountsShow(p.routed, p.doneReceived, st)
      requires after == st.(net := after.net, usage := after.usage)
      ensures Shows(after)
    {
    }

    /** One turn of the outgoing-queue thread. */
    method DrainOutQueue(ghost st: State)
      requires Shows(st) && Placed(p.c.clusters, st.net) && outQueue != []
      modifies this`outQueue, p
      ensures CanHop(p.c, st, OutQ(p.dcmpiRank)) && Shows(Hop(p.c, st, OutQ(p.dcmpiRank)))
    {
      InsTaken(Ins(), OutQ(p.dcmpiRank), st.net);
      SentBooks(p.usage, st);
      var pkt := outQueue[0];
      outQueue := outQueue[1..];
      ghost var after := Hop(p.c, st, OutQ(p.dcmpiRank));
      SendOn(pkt, st.net);
      ShowsSent(st, after);
    }

    /** The guard of the announcement. */
    method MayBegin(ghost st: State) returns (b: bool)
      requires Shows(st) && LoopOf(st, p.dcmpiRank) in {Looping, Announced}
      ensures b <==> CanBegin(p.c, st, p.dcmpiRank)
    {
      assert In(Ins(), OutQ(p.dcmpiRank)) == Lookup(st.net.at, OutQ(p.dcmpiRank));
      assert p.rank == 0 ==> p.Out(ProxyQ(p.clusterRank)) == Lookup(st.net.at, ProxyQ(p.clusterRank));
      assert unfinished == {} <==> FiltersFinished(p.c, st, p.dcmpiRank) by {
        if FiltersFinished(p.c, st, p.dcmpiRank) {
          assert forall g :: g !in unfinished;
        }
      }
      b := !sentDone && unfinished == {} && outQueue == [] && (!(p.useProxy && p.rank == 0) || p.toProxy == []);
    }

    /** The test for breaking out of the main loop. */
    method MayLeave(ghost st: State) returns (b: bool)
      requires Shows(st) && LoopOf(st, p.dcmpiRank) in {Looping, Announced}
      ensures b <==> CanLeave(p.c, st, p.dcmpiRank)
      ensures b ==> Shows(Leave(st, p.dcmpiRank))
    {
      assert In(Ins(), OutQ(p.dcmpiRank)) == Lookup(st.net.at, OutQ(p.dcmpiRank));
      assert p.dcmpiRank == 0 ==> fromConsole == Lookup(st.net.at, FromConsoleQ) by {
        assert p.dcmpiRank == 0 ==> In(Ins(), FromConsoleQ) == Lookup(st.net.at, FromConsoleQ);
      }
      b := sentDone && p.doneReceived == p.totalRanks - 1 && outQueue == [] && p.routed == toRoute
        && (!p.handlesConsole || (!consoleOpen && fromConsole == []));
    }

    /** Nothing announced goes to a queue that the process reads itself. */
    lemma {:induction false} TellsNoInput(d: int, x: Place)
      requires p.Configured() && Incoming(x) && FirstRank(p.c) <= d <= Processes(p.c.clusters)
      ensures DoneMessages(p.c, p.dcmpiRank, FirstRank(p.c), d, x) == []
      decreases d - FirstRank(p.c)
    {
      if d > FirstRank(p.c) {
        TellsNoInput(d - 1, x);
        NoDoneMessage(d - 1, x);
      }
    }

    lemma {:induction false} NoDoneMessage(d: int, x: Place)
      requires p.Configured() && Incoming(x) && IsRank(p.c.clusters, d)
      ensures DoneMessage(p.c, p.dcmpiRank, d, x) == []
    {
      if d != p.dcmpiRank {
        p.OutrankIsElsewhere(d);
      }
    }

    /** The queues of the process after the announcement. */
    method TellAll(ghost n: Net)
      requires p.Valid() && OutsShow(n) && InsShow(Ins(), n)
      modifies p
      ensures p.Valid() && p.usage == old(p.usage) && p.store == old(p.store)
      ensures p.routed == old(p.routed) && p.doneReceived == old(p.doneReceived)
      ensures var after := Told(p.c, n, p.dcmpiRank, Processes(p.c.clusters)); OutsShow(after) && InsShow(Ins(), after)
    {
      p.AnnounceDone();
      assert forall i :: 0 <= i < p.size && old(p.Carries(i)) ==> p.Carries(i);
      forall x | Outgoing(x)
        ensures p.Out(x) == Lookup(Told(p.c, n, p.dcmpiRank, Processes(p.c.clusters)).at, x)
      {
        ToldAt(p.c, n, p.dcmpiRank, Processes(p.c.clusters), x);
      }
      forall x | Incoming(x)
        ensures In(Ins(), x) == Lookup(Told(p.c, n, p.dcmpiRank, Processes(p.c.clusters)).at, x)
      {
        ToldAt(p.c, n, p.dcmpiRank, Processes(p.c.clusters), x);
        TellsNoInput(Processes(p.c.clusters), x);
      }
    }

    /** The announcement as a whole: by `AnnouncingRun`, a run of the announcing steps of this process. */
    method AnnounceAll(ghost st: State)
      requires Shows(st) && CanBegin(p.c, st, p.dcmpiRank)
      modifies this`sentDone, p
      ensures Shows(Announcement(p.c, st, p.dcmpiRank)) && LoopOf(Announcement(p.c, st, p.dcmpiRank), p.dcmpiRank) == Announced
    {
      sentDone := true;
      TellAll(st.net);
    }
  }
}
