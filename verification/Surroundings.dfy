/**
  What the rest of the runtime does to one process.  A step that is neither one of its main loop, nor of
  its threads, nor of its filters appends to the queues it reads, takes from the queues it writes, and
  leaves everything else of the process alone.
*/
module Surroundings {
  import opened Common
  import opened Topology
  import opened Network
  import opened Runtime
  import L = Ledger
  import U = Putters

  predicate OnProcess(c: Config, g: int, me: int) {
    g in c.rankOf && c.rankOf[g] == me
  }

  /** A queue whose reader is the main loop or a thread of process me. */
  predicate ReadBy(c: Config, pl: Place, me: int)
    requires Valid(c.clusters) && IsProcess(c.clusters, me)
  {
    match pl
    case OutQ(r) => r == me
    case Link(a, b) => b == me
    case ProxyQ(k) => IsHead(c.clusters, me) && k == ClusterOf(c.clusters, me)
    case ProxyIn(k) => IsHead(c.clusters, me) && k == ClusterOf(c.clusters, me)
    case ConsoleQ => me == 0
    case FromSock => me == 0
    case FromConsoleQ => me == 0
    case _ => false
  }

  /** A queue that only process me writes to. */
  predicate WrittenBy(pl: Place, me: int) {
    pl == OutQ(me) || (pl.Link? && pl.from == me)
  }

  /** The step is taken by another process, by the console, or by the proxy. */
  predicate Foreign(c: Config, a: Step, me: int)
    requires Valid(c.clusters) && IsProcess(c.clusters, me)
  {
    match a
    case DoWrite(g, k, body) => !OnProcess(c, g, me)
    case DoStop(g) => !OnProcess(c, g, me)
    case DoRetire(g) => !OnProcess(c, g, me)
    case DoFinish(g) => !OnProcess(c, g, me)
    case DoRead(ip) => !OnProcess(c, ip.filter, me)
    case DoBegin(r) => r != me
    case DoAnnounce(r) => r != me
    case DoLeave(r) => r != me
    case DoClose => me != 0
    case DoHop(pl) => !ReadBy(c, pl, me)
  }

  /** r is what is left of q after some have been taken from its front. */
  ghost predicate Left(q: seq<Packet>, r: seq<Packet>) {
    exists k :: 0 <= k <= |q| && r == q[k..]
  }

  /** The queues of process me: what it reads only grows at the end, what it writes only loses its first. */
  ghost predicate QueuesFramed(c: Config, n: Net, m: Net, me: int)
    requires Valid(c.clusters) && IsProcess(c.clusters, me)
  {
    && (forall x :: ReadBy(c, x, me) ==> Lookup(n.at, x) <= Lookup(m.at, x))
    && (forall x :: WrittenBy(x, me) ==> Left(Lookup(n.at, x), Lookup(m.at, x)))
  }

  predicate Own(a: Account, me: int) {
    match a
    case FilterUse(r, g) => r == me
    case RuntimeUse(r) => r == me
    case _ => false
  }

  /** Everything else of the process. */
  ghost predicate RestFramed(c: Config, st: State, su: State, me: int) {
    && (forall a :: Own(a, me) ==> Usage(su.usage, a) == Usage(st.usage, a))
    && (forall ip: InPort :: OnProcess(c, ip.filter, me) ==>
          && Lookup(su.store.inbox, ip) == Lookup(st.store.inbox, ip)
          && Lookup(su.store.arrived, ip) == Lookup(st.store.arrived, ip)
          && Putters(su.store, ip) == Putters(st.store, ip))
    && (forall g :: OnProcess(c, g, me) ==> LifeOf(su, g) == LifeOf(st, g))
    && LoopOf(su, me) == LoopOf(st, me)
    && Routed(su.tally, me) == Routed(st.tally, me) && DoneReceived(su.tally, me) == DoneReceived(st.tally, me)
    && (me == 0 ==> su.consoleOpen == st.consoleOpen)
  }

  // ---------------------------------------------------------------------------
  // Queues
  // ---------------------------------------------------------------------------

  lemma {:induction false} PutFramed(c: Config, n: Net, pl: Place, p: Packet, me: int)
    requires Valid(c.clusters) && IsProcess(c.clusters, me) && !WrittenBy(pl, me)
    ensures QueuesFramed(c, n, Put(n, pl, p), me)
  {
    forall x
      ensures Lookup(n.at, x) <= Lookup(Put(n, pl, p).at, x)
      ensures WrittenBy(x, me) ==> Left(Lookup(n.at, x), Lookup(Put(n, pl, p).at, x))
    {
      EnqueueAt(n.at, pl, p, x);
      NoneTaken(Lookup(n.at, x));
    }
  }

  lemma {:induction false} NoneTaken(q: seq<Packet>)
    ensures Left(q, q)
  {
    assert q == q[0..];
  }

  lemma {:induction false} FirstTaken(q: seq<Packet>)
    requires q != []
    ensures Left(q, q[1..])
  {
  }

  lemma {:induction false} SameFramed(c: Config, n: Net, me: int)
    requires Valid(c.clusters) && IsProcess(c.clusters, me)
    ensures QueuesFramed(c, n, n, me)
  {
    forall x
      ensures Left(Lookup(n.at, x), Lookup(n.at, x))
    {
      NoneTaken(Lookup(n.at, x));
    }
  }

  /** Where a packet goes from a queue that process me does not read is no queue that only me writes. */
  lemma {:induction false} OnwardNotOwn(c: Config, pl: Place, d: int, me: int)
    requires Valid(c.clusters) && IsProcess(c.clusters, me) && IsRank(c.clusters, d) && Fits(c.clusters, pl, d)
    requires !ReadBy(c, pl, me)
    ensures var next := Next(c.clusters, pl, d); next.Forward? ==> !WrittenBy(next.place, me)
  {
    HeadIsProcess(c.clusters, ClusterOf(c.clusters, d));
    HeadIsProcess(c.clusters, 0);
    match pl
    case OutQ(r) => HeadIsProcess(c.clusters, ClusterOf(c.clusters, r));
    case ProxyIn(k) => HeadIsProcess(c.clusters, k);
    case _ =>
  }

  lemma {:induction false} MoveFramed(c: Config, n: Net, pl: Place, me: int)
    requires Valid(c.clusters) && IsProcess(c.clusters, me) && Movable(c.clusters, n, pl) && !ReadBy(c, pl, me)
    ensures QueuesFramed(c, n, Move(c.clusters, n, pl), me)
  {
    var m := Move(c.clusters, n, pl);
    OnwardNotOwn(c, pl, Lookup(n.at, pl)[0].dst, me);
    forall x | ReadBy(c, x, me)
      ensures Lookup(n.at, x) <= Lookup(m.at, x)
    {
      MoveAt(c.clusters, n, pl, x);
    }
    forall x | WrittenBy(x, me)
      ensures Left(Lookup(n.at, x), Lookup(m.at, x))
    {
      MoveAt(c.clusters, n, pl, x);
      if x == pl {
        FirstTaken(Lookup(n.at, x));
      } else {
        NoneTaken(Lookup(n.at, x));
      }
    }
  }

  lemma {:induction false} OriginNotOwn(c: Config, s: int, d: int, me: int)
    requires Valid(c.clusters) && IsProcess(c.clusters, me) && IsRank(c.clusters, s) && IsRank(c.clusters, d) && s != me
    ensures !WrittenBy(Origin(c.clusters, s, d), me)
    ensures s >= 0 ==> !WrittenBy(Elsewhere(c.clusters, s, d), me)
  {
  }

  // ---------------------------------------------------------------------------
  // Steps
  // ---------------------------------------------------------------------------

  lemma {:induction false} WriteFramed(c: Config, st: State, g: int, k: nat, body: Bytes, me: int)
    requires ValidConfig(c) && IsProcess(c.clusters, me) && CanWrite(c, st, g, k, body) && !OnProcess(c, g, me)
    ensures QueuesFramed(c, st.net, Write(c, st, g, k, body).net, me) && RestFramed(c, st, Write(c, st, g, k, body), me)
  {
    var ip, su := c.outs[g][k], Write(c, st, g, k, body);
    if IsLocal(c, g, ip) {
      SameFramed(c, st.net, me);
      forall x: InPort | OnProcess(c, x.filter, me)
        ensures Lookup(su.store.inbox, x) == Lookup(st.store.inbox, x) && Lookup(su.store.arrived, x) == Lookup(st.store.arrived, x)
      {
        EnqueueAt(st.store.inbox, ip, Arrival(g, body, WriterAccount(c, g)), x);
        EnqueueAt(st.store.arrived, ip, Arrival(g, body, WriterAccount(c, g)), x);
      }
    } else {
      OriginNotOwn(c, c.rankOf[g], c.rankOf[ip.filter], me);
      PutFramed(c, st.net, Origin(c.clusters, c.rankOf[g], c.rankOf[ip.filter]), PacketTo(c, g, ip, Buffer(body)), me);
    }
  }

  lemma {:induction false} RetireFramed(c: Config, st: State, g: int, me: int)
    requires ValidConfig(c) && IsProcess(c.clusters, me) && CanRetire(c, st, g) && !OnProcess(c, g, me)
    ensures QueuesFramed(c, st.net, Retire(c, st, g).net, me) && RestFramed(c, st, Retire(c, st, g), me)
  {
    var ip := c.outs[g][LifeOf(st, g).told];
    if IsLocal(c, g, ip) {
      SameFramed(c, st.net, me);
    } else {
      OriginNotOwn(c, c.rankOf[g], c.rankOf[ip.filter], me);
      PutFramed(c, st.net, Origin(c.clusters, c.rankOf[g], c.rankOf[ip.filter]), PacketTo(c, g, ip, RemovePutter), me);
    }
  }

  lemma {:induction false} AnnounceFramed(c: Config, st: State, r: int, me: int)
    requires ValidConfig(c) && IsProcess(c.clusters, me) && CanAnnounce(c, st, r) && r != me
    ensures QueuesFramed(c, st.net, Announce(c, st, r).net, me) && RestFramed(c, st, Announce(c, st, r), me)
  {
    var d, su := LoopOf(st, r).next, Announce(c, st, r);
    assert LoopOf(su, me) == LoopOf(st, me);
    LoopFramed(c, st, su, me);
    if IsRank(c.clusters, d) && d != r {
      OriginNotOwn(c, r, d, me);
      PutFramed(c, st.net, DoneEntry(c, r, d), DonePacket(c, r, d), me);
    } else {
      SameFramed(c, st.net, me);
    }
  }

  lemma {:induction false} LoopFramed(c: Config, st: State, su: State, me: int)
    requires su == st.(net := su.net, loop := su.loop) && LoopOf(su, me) == LoopOf(st, me)
    ensures RestFramed(c, st, su, me)
  {
  }

  /** Steps that touch neither queues nor counters. */
  lemma {:induction false} SilentFramed(c: Config, st: State, a: Step, me: int)
    requires ValidConfig(c) && Enabled(c, st, a) && IsProcess(c.clusters, me) && Foreign(c, a, me)
    requires a.DoStop? || a.DoFinish? || a.DoBegin? || a.DoLeave? || a.DoClose?
    ensures QueuesFramed(c, st.net, Apply(c, st, a).net, me) && RestFramed(c, st, Apply(c, st, a), me)
  {
    SameFramed(c, st.net, me);
  }

  lemma {:induction false} ReadFramed(c: Config, st: State, ip: InPort, me: int)
    requires ValidConfig(c) && IsProcess(c.clusters, me) && CanRead(c, st, ip) && !OnProcess(c, ip.filter, me)
    requires !Own(Lookup(st.store.inbox, ip)[0].account, me)
    ensures QueuesFramed(c, st.net, Read(c, st, ip).net, me) && RestFramed(c, st, Read(c, st, ip), me)
  {
    SameFramed(c, st.net, me);
  }

  /** What a foreign reader charges and releases is not of process me. */
  lemma {:induction false} HopUsageForeign(c: Config, u: map<Account, int>, pl: Place, p: Packet, me: int, a: Account)
    requires ValidConfig(c) && IsProcess(c.clusters, me) && Addressed(c.clusters, p) && Fits(c.clusters, pl, p.dst)
    requires !ReadBy(c, pl, me) && Own(a, me)
    ensures Usage(HopUsage(c, u, pl, p), a) == Usage(u, a)
  {
    HeadIsProcess(c.clusters, ClusterOf(c.clusters, p.dst));
    HeadIsProcess(c.clusters, ClusterOf(c.clusters, me));
    HeadIsProcess(c.clusters, 0);
    IntakeForeign(c, pl, p.dst, me, a);
    ReleaseForeign(c, pl, p, me, a);
  }

  lemma {:induction false} IntakeForeign(c: Config, pl: Place, d: int, me: int, a: Account)
    requires ValidConfig(c) && IsProcess(c.clusters, me) && IsRank(c.clusters, d) && Fits(c.clusters, pl, d)
    requires !ReadBy(c, pl, me) && Own(a, me)
    ensures Intake(c, pl) != Some(a)
  {
    HeadIsProcess(c.clusters, ClusterOf(c.clusters, d));
  }

  lemma {:induction false} ReleaseForeign(c: Config, pl: Place, p: Packet, me: int, a: Account)
    requires ValidConfig(c) && IsProcess(c.clusters, me) && Addressed(c.clusters, p) && Fits(c.clusters, pl, p.dst)
    requires !ReadBy(c, pl, me) && Own(a, me)
    ensures var next := Next(c.clusters, pl, p.dst); next.Forward? ==> Release(c, next.place, p) != Some(a)
  {
    OnwardNotOwn(c, pl, p.dst, me);
    if pl.ProxyQ? {
      ProxyReleaseForeign(c, pl.cluster, p, me, a);
    }
  }

  lemma {:induction false} ProxyReleaseForeign(c: Config, k: nat, p: Packet, me: int, a: Account)
    requires ValidConfig(c) && IsProcess(c.clusters, me) && k < |c.clusters.sizes| && !ReadBy(c, ProxyQ(k), me) && Own(a, me)
    ensures Release(c, Wire(k), p) != Some(a)
  {
    HeadIsProcess(c.clusters, k);
  }

  lemma {:induction false} HopFramed(c: Config, st: State, pl: Place, me: int)
    requires ValidConfig(c) && IsProcess(c.clusters, me) && CanHop(c, st, pl) && !ReadBy(c, pl, me)
    requires U.Genuine(c, Lookup(st.net.at, pl)[0])
    ensures QueuesFramed(c, st.net, Hop(c, st, pl).net, me) && RestFramed(c, st, Hop(c, st, pl), me)
  {
    var p, su := Lookup(st.net.at, pl)[0], Hop(c, st, pl);
    MoveFramed(c, st.net, pl, me);
    forall a | Own(a, me)
      ensures Usage(su.usage, a) == Usage(st.usage, a)
    {
      HopUsageForeign(c, st.usage, pl, p, me, a);
    }
    ReaderIsOther(c, pl, p.dst, me);
    forall ip: InPort | OnProcess(c, ip.filter, me)
      ensures Lookup(su.store.inbox, ip) == Lookup(st.store.inbox, ip) && Lookup(su.store.arrived, ip) == Lookup(st.store.arrived, ip)
      ensures Putters(su.store, ip) == Putters(st.store, ip)
    {
      DeliveredAt(st.store, p, ip);
    }
  }

  lemma {:induction false} ReaderIsOther(c: Config, pl: Place, d: int, me: int)
    requires ValidConfig(c) && IsProcess(c.clusters, me) && IsRank(c.clusters, d) && Fits(c.clusters, pl, d)
    requires !ReadBy(c, pl, me)
    ensures HandlerOf(c.clusters, pl) != Main(me)
    ensures Next(c.clusters, pl, d).Deliver? ==> d != me
  {
    NextFits(c.clusters, pl, d);
    HeadIsProcess(c.clusters, ClusterOf(c.clusters, d));
    HeadIsProcess(c.clusters, 0);
  }

  // ---------------------------------------------------------------------------
  // Whole runs
  // ---------------------------------------------------------------------------

  /** A buffer at an in-port is charged to a counter of the process of its filter, if to any process. */
  ghost predicate IsCharged(c: Config, ip: InPort, x: Arrival) {
    ip.filter in c.rankOf && forall me :: Own(x.account, me) ==> c.rankOf[ip.filter] == me
  }

  ghost predicate ChargedHere(c: Config, inbox: map<InPort, seq<Arrival>>) {
    forall ip: InPort, x :: x in Lookup(inbox, ip) ==> IsCharged(c, ip, x)
  }

  lemma {:induction false} ArrivalChargedHere(c: Config, inbox: map<InPort, seq<Arrival>>, ip: InPort, x: Arrival)
    requires ChargedHere(c, inbox) && IsCharged(c, ip, x)
    ensures ChargedHere(c, Enqueue(inbox, ip, x))
  {
    forall z: InPort, y | y in Lookup(Enqueue(inbox, ip, x), z)
      ensures IsCharged(c, z, y)
    {
      EnqueueAt(inbox, ip, x, z);
      assert y in Lookup(inbox, z) || (z == ip && y == x);
    }
  }

  lemma {:induction false} ReadChargedHere(c: Config, inbox: map<InPort, seq<Arrival>>, ip: InPort)
    requires ChargedHere(c, inbox) && Lookup(inbox, ip) != []
    ensures ChargedHere(c, inbox[ip := Lookup(inbox, ip)[1..]])
  {
    forall z: InPort, y | y in Lookup(inbox[ip := Lookup(inbox, ip)[1..]], z)
      ensures IsCharged(c, z, y)
    {
      assert y in Lookup(inbox, z);
    }
  }

  lemma {:induction false} HopChargedHere(c: Config, st: State, pl: Place)
    requires ValidConfig(c) && ChargedHere(c, st.store.inbox) && CanHop(c, st, pl) && U.Genuine(c, Lookup(st.net.at, pl)[0])
    ensures ChargedHere(c, Hop(c, st, pl).store.inbox)
  {
    var p := Lookup(st.net.at, pl)[0];
    if Next(c.clusters, pl, p.dst).Deliver? && p.kind.Buffer? {
      ArrivalChargedHere(c, st.store.inbox, InPort(p.toFilter, p.toPort),
                         Arrival(p.fromFilter, p.kind.body, if p.dst == -1 then Unmetered else RuntimeUse(p.dst)));
    }
  }

  lemma {:induction false} StepChargedHere(c: Config, st: State, a: Step)
    requires ValidConfig(c) && ChargedHere(c, st.store.inbox) && U.AllGenuine(c, st.net) && Enabled(c, st, a)
    ensures ChargedHere(c, Apply(c, st, a).store.inbox)
  {
    match a
    case DoWrite(g, k, body) =>
      var ip := c.outs[g][k];
      if IsLocal(c, g, ip) {
        ArrivalChargedHere(c, st.store.inbox, ip, Arrival(g, body, WriterAccount(c, g)));
      }
    case DoRead(ip) => ReadChargedHere(c, st.store.inbox, ip);
    case DoHop(pl) => assert Lookup(st.net.at, pl)[0] in Lookup(st.net.at, pl); HopChargedHere(c, st, pl);
    case _ =>
  }

  lemma {:induction false} RunChargedHere(c: Config, from: State, steps: seq<Step>, to: State)
    requires ValidConfig(c) && ChargedHere(c, from.store.inbox) && U.AllGenuine(c, from.net) && Run(c, from, steps, to)
    ensures ChargedHere(c, to.store.inbox) && U.AllGenuine(c, to.net)
    decreases |steps|
  {
    if steps != [] {
      StepChargedHere(c, from, steps[0]);
      U.StepKeepsGenuine(c, from, steps[0]);
      RunChargedHere(c, Apply(c, from, steps[0]), steps[1..], to);
    }
  }

  lemma {:induction false} FirstCharged(c: Config, st: State, ip: InPort)
    requires ChargedHere(c, st.store.inbox) && Lookup(st.store.inbox, ip) != []
    ensures IsCharged(c, ip, Lookup(st.store.inbox, ip)[0])
  {
    assert Lookup(st.store.inbox, ip)[0] in Lookup(st.store.inbox, ip);
  }

  /** Whatever another process, its filters and threads, the console or the proxy do, process me keeps its part. */
  lemma {:induction false} ForeignStepsFrame(c: Config, steps: seq<Step>, st: State, a: Step, me: int)
    requires ValidConfig(c) && Run(c, Init(c), steps, st) && Enabled(c, st, a)
    requires IsProcess(c.clusters, me) && Foreign(c, a, me)
    ensures QueuesFramed(c, st.net, Apply(c, st, a).net, me) && RestFramed(c, st, Apply(c, st, a), me)
  {
    U.InitFeedInv(c);
    RunChargedHere(c, Init(c), steps, st);
    match a
    case DoWrite(g, k, body) => WriteFramed(c, st, g, k, body, me);
    case DoRetire(g) => RetireFramed(c, st, g, me);
    case DoAnnounce(r) => AnnounceFramed(c, st, r, me);
    case DoRead(ip) =>
      FirstCharged(c, st, ip);
      ReadFramed(c, st, ip, me);
    case DoHop(pl) =>
      assert Lookup(st.net.at, pl)[0] in Lookup(st.net.at, pl);
      HopFramed(c, st, pl, me);
    case _ => SilentFramed(c, st, a, me);
  }
}
