/**
  How long a run can be.  Every step but a write uses up work that is known at the start or was
  brought in by a write, so a run with finitely many writes is finite, and with room for every
  buffer it can always be brought to its end: all processes gone, every packet delivered.
*/
module Bounded {
  import opened Topology
  import opened RouteCount
  import opened Sums
  import opened Network
  import opened Runtime
  import T = Termination
  import P = Progress

  // ---------------------------------------------------------------------------
  // Work
  // ---------------------------------------------------------------------------

  /** The hops a packet has still to make, and one step for taking its buffer out of an in-port. */
  function PacketWork(pl: Place, p: Packet): int {
    10 - Stage(pl, p.dst)
  }

  function QueueWork(pl: Place, q: seq<Packet>): int {
    if q == [] then 0 else PacketWork(pl, q[0]) + QueueWork(pl, q[1..])
  }

  ghost function PlaceWork(n: Net): Place -> int {
    pl => QueueWork(pl, Lookup(n.at, pl))
  }

  ghost function NetWork(n: Net): int {
    Total(n.at.Keys, PlaceWork(n))
  }

  ghost function PortWork(s: Store): InPort -> int {
    ip => |Lookup(s.inbox, ip)|
  }

  ghost function StoreWork(s: Store): int {
    Total(s.inbox.Keys, PortWork(s))
  }

  function Targets(c: Config, g: int): nat {
    if g in c.outs then |c.outs[g]| else 0
  }

  /** Stopping, telling every target, and finishing. */
  function LifeCost(targets: nat, l: Life): int {
    match l
    case Working => 2 + 11 * targets
    case Retiring(k) => 1 + 11 * (targets - k)
    case Finished => 0
  }

  ghost function LifeWeights(c: Config, st: State): int -> int {
    g => LifeCost(Targets(c, g), LifeOf(st, g))
  }

  /** Beginning the announcement, telling every rank, ending it, and leaving. */
  function LoopCost(processes: nat, l: Loop): int {
    match l
    case Looping => 3 + 11 * (processes + 1)
    case Announcing(next) => 2 + 11 * (processes - next)
    case Announced => 1
    case Left => 0
  }

  ghost function LoopWeights(c: Config, st: State): int -> int {
    r => LoopCost(Processes(c.clusters), LoopOf(st, r))
  }

  ghost function Work(c: Config, st: State): int {
    NetWork(st.net) + StoreWork(st.store)
    + Total(c.rankOf.Keys, LifeWeights(c, st)) + Total(Ranks(c.clusters), LoopWeights(c, st))
    + if st.consoleOpen then 1 else 0
  }

  /** Counters are within what they count. */
  ghost predicate InRange(c: Config, st: State)
    requires ValidConfig(c)
  {
    && P.LivesInRange(c, st)
    && forall r :: LoopOf(st, r).Announcing? ==> LoopOf(st, r).next <= Processes(c.clusters)
  }

  function IsWrite(a: Step): int { if a.DoWrite? then 1 else 0 }

  function CountWrites(steps: seq<Step>): nat {
    if steps == [] then 0 else IsWrite(steps[0]) + CountWrites(steps[1..])
  }

  // ---------------------------------------------------------------------------
  // How work changes
  // ---------------------------------------------------------------------------

  lemma {:induction false} QueueWorkAppend(pl: Place, q: seq<Packet>, p: Packet)
    ensures QueueWork(pl, q + [p]) == QueueWork(pl, q) + PacketWork(pl, p)
  {
    if q != [] {
      assert (q + [p])[1..] == q[1..] + [p];
      QueueWorkAppend(pl, q[1..], p);
    }
  }

  lemma {:induction false} EnqueueWork(n: Net, m: Net, pl: Place, p: Packet)
    requires m.at == Enqueue(n.at, pl, p)
    ensures NetWork(m) == NetWork(n) + PacketWork(pl, p)
  {
    QueueWorkAppend(pl, Lookup(n.at, pl), p);
    assert m.at.Keys == n.at.Keys + {pl};
    TotalPoint(n.at.Keys, PlaceWork(n), pl, PlaceWork(m));
  }

  lemma {:induction false} DequeueWork(n: Net, m: Net, pl: Place)
    requires Lookup(n.at, pl) != [] && m.at == n.at[pl := Lookup(n.at, pl)[1..]]
    ensures NetWork(m) == NetWork(n) - PacketWork(pl, Lookup(n.at, pl)[0])
  {
    assert m.at.Keys == n.at.Keys + {pl};
    TotalPoint(n.at.Keys, PlaceWork(n), pl, PlaceWork(m));
  }

  lemma {:induction false} SameNetWork(n: Net, m: Net)
    requires m.at == n.at
    ensures NetWork(m) == NetWork(n)
  {
    TotalSame(n.at.Keys, PlaceWork(n), PlaceWork(m));
  }

  /** A packet on its way does one hop less; delivered, it is gone. */
  lemma {:induction false} MoveWork(t: Clusters, n: Net, pl: Place)
    requires Valid(t) && Movable(t, n, pl)
    ensures var p := Lookup(n.at, pl)[0];
            && NetWork(Move(t, n, pl)) <= NetWork(n) - 1
            && (Next(t, pl, p.dst).Deliver? ==> NetWork(Move(t, n, pl)) <= NetWork(n) - 2)
  {
    var q := Lookup(n.at, pl);
    var p, mid := q[0], n.(at := n.at[pl := q[1..]]);
    DequeueWork(n, mid, pl);
    NextFits(t, pl, p.dst);
    match Next(t, pl, p.dst)
    case Forward(to) => EnqueueWork(mid, Move(t, n, pl), to, p);
    case Deliver => SameNetWork(mid, Move(t, n, pl));
  }

  lemma {:induction false} ArriveWork(s: Store, s': Store, ip: InPort, x: Arrival)
    requires s'.inbox == Enqueue(s.inbox, ip, x)
    ensures StoreWork(s') == StoreWork(s) + 1
  {
    assert s'.inbox.Keys == s.inbox.Keys + {ip};
    TotalPoint(s.inbox.Keys, PortWork(s), ip, PortWork(s'));
  }

  lemma {:induction false} TakeWork(s: Store, s': Store, ip: InPort)
    requires Lookup(s.inbox, ip) != [] && s'.inbox == s.inbox[ip := Lookup(s.inbox, ip)[1..]]
    ensures StoreWork(s') == StoreWork(s) - 1
  {
    assert s'.inbox.Keys == s.inbox.Keys + {ip};
    TotalPoint(s.inbox.Keys, PortWork(s), ip, PortWork(s'));
  }

  lemma {:induction false} SameStoreWork(s: Store, s': Store)
    requires s'.inbox == s.inbox
    ensures StoreWork(s') == StoreWork(s)
  {
    TotalSame(s.inbox.Keys, PortWork(s), PortWork(s'));
  }

  lemma {:induction false} SameLives(c: Config, st: State, su: State)
    requires su.life == st.life
    ensures Total(c.rankOf.Keys, LifeWeights(c, su)) == Total(c.rankOf.Keys, LifeWeights(c, st))
  {
    TotalSame(c.rankOf.Keys, LifeWeights(c, st), LifeWeights(c, su));
  }

  lemma {:induction false} SameLoops(c: Config, st: State, su: State)
    requires su.loop == st.loop
    ensures Total(Ranks(c.clusters), LoopWeights(c, su)) == Total(Ranks(c.clusters), LoopWeights(c, st))
  {
    TotalSame(Ranks(c.clusters), LoopWeights(c, st), LoopWeights(c, su));
  }

  lemma {:induction false} OneLife(c: Config, st: State, su: State, g: int, l: Life)
    requires g in c.rankOf && su.life == st.life[g := l]
    ensures Total(c.rankOf.Keys, LifeWeights(c, su))
         == Total(c.rankOf.Keys, LifeWeights(c, st)) - LifeCost(Targets(c, g), LifeOf(st, g)) + LifeCost(Targets(c, g), l)
  {
    assert c.rankOf.Keys + {g} == c.rankOf.Keys;
    TotalPoint(c.rankOf.Keys, LifeWeights(c, st), g, LifeWeights(c, su));
  }

  lemma {:induction false} OneLoop(c: Config, st: State, su: State, r: int, l: Loop)
    requires IsRank(c.clusters, r) && su.loop == st.loop[r := l]
    ensures Total(Ranks(c.clusters), LoopWeights(c, su))
         == Total(Ranks(c.clusters), LoopWeights(c, st))
          - LoopCost(Processes(c.clusters), LoopOf(st, r)) + LoopCost(Processes(c.clusters), l)
  {
    assert r in Ranks(c.clusters) && Ranks(c.clusters) + {r} == Ranks(c.clusters);
    TotalPoint(Ranks(c.clusters), LoopWeights(c, st), r, LoopWeights(c, su));
  }

  // ---------------------------------------------------------------------------
  // Every step
  // ---------------------------------------------------------------------------

  lemma {:induction false} WriteWorks(c: Config, st: State, g: int, k: nat, body: Bytes)
    requires ValidConfig(c) && CanWrite(c, st, g, k, body)
    ensures Work(c, Write(c, st, g, k, body)) <= Work(c, st) + 10
  {
    var su, ip := Write(c, st, g, k, body), c.outs[g][k];
    SameLives(c, st, su);
    SameLoops(c, st, su);
    if IsLocal(c, g, ip) {
      ArriveWork(st.store, su.store, ip, Arrival(g, body, WriterAccount(c, g)));
    } else {
      SameStoreWork(st.store, su.store);
      EnqueueWork(st.net, su.net, Origin(c.clusters, c.rankOf[g], c.rankOf[ip.filter]), PacketTo(c, g, ip, Buffer(body)));
    }
  }

  lemma {:induction false} RetireWorks(c: Config, st: State, g: int)
    requires ValidConfig(c) && CanRetire(c, st, g)
    ensures Work(c, Retire(c, st, g)) < Work(c, st)
  {
    var su, k := Retire(c, st, g), LifeOf(st, g).told;
    var ip := c.outs[g][k];
    OneLife(c, st, su, g, Retiring(k + 1));
    SameLoops(c, st, su);
    SameStoreWork(st.store, su.store);
    if !IsLocal(c, g, ip) {
      EnqueueWork(st.net, su.net, Origin(c.clusters, c.rankOf[g], c.rankOf[ip.filter]), PacketTo(c, g, ip, RemovePutter));
    }
  }

  lemma {:induction false} LifeWorks(c: Config, st: State, a: Step)
    requires ValidConfig(c) && Enabled(c, st, a) && (a.DoStop? || a.DoFinish?)
    ensures Work(c, Apply(c, st, a)) < Work(c, st)
  {
    var su := Apply(c, st, a);
    OneLife(c, st, su, a.g, if a.DoStop? then Retiring(0) else Finished);
    SameLoops(c, st, su);
  }

  lemma {:induction false} ReadWorks(c: Config, st: State, ip: InPort)
    requires ValidConfig(c) && CanRead(c, st, ip)
    ensures Work(c, Read(c, st, ip)) < Work(c, st)
  {
    var su := Read(c, st, ip);
    TakeWork(st.store, su.store, ip);
    SameLives(c, st, su);
    SameLoops(c, st, su);
  }

  lemma {:induction false} LoopWorks(c: Config, st: State, a: Step)
    requires ValidConfig(c) && Enabled(c, st, a) && (a.DoBegin? || a.DoLeave?)
    ensures Work(c, Apply(c, st, a)) < Work(c, st)
  {
    var su := Apply(c, st, a);
    SameLives(c, st, su);
    OneLoop(c, st, su, a.r, su.loop[a.r]);
  }

  lemma {:induction false} AnnounceWorks(c: Config, st: State, r: int)
    requires ValidConfig(c) && InRange(c, st) && CanAnnounce(c, st, r)
    ensures Work(c, Announce(c, st, r)) < Work(c, st)
  {
    var su, d := Announce(c, st, r), LoopOf(st, r).next;
    SameLives(c, st, su);
    OneLoop(c, st, su, r, su.loop[r]);
    if IsRank(c.clusters, d) && d != r {
      EnqueueWork(st.net, su.net, DoneEntry(c, r, d), DonePacket(c, r, d));
    }
  }

  lemma {:induction false} HopWorks(c: Config, st: State, pl: Place)
    requires ValidConfig(c) && CanHop(c, st, pl)
    ensures Work(c, Hop(c, st, pl)) < Work(c, st)
  {
    var su, p := Hop(c, st, pl), Lookup(st.net.at, pl)[0];
    SameLives(c, st, su);
    SameLoops(c, st, su);
    MoveWork(c.clusters, st.net, pl);
    if Next(c.clusters, pl, p.dst).Deliver? && p.kind.Buffer? {
      ArriveWork(st.store, su.store, InPort(p.toFilter, p.toPort), Arrival(p.fromFilter, p.kind.body, if p.dst == -1 then Unmetered else RuntimeUse(p.dst)));
    } else {
      SameStoreWork(st.store, su.store);
    }
  }

  /** Every step but a write has less to do after it; a write brings in at most ten further steps. */
  lemma {:induction false} StepWorks(c: Config, st: State, a: Step)
    requires ValidConfig(c) && InRange(c, st) && Enabled(c, st, a)
    ensures Work(c, Apply(c, st, a)) <= Work(c, st) - 1 + 11 * IsWrite(a)
  {
    match a
    case DoWrite(g, k, body) => WriteWorks(c, st, g, k, body);
    case DoStop(g) => LifeWorks(c, st, a);
    case DoRetire(g) => RetireWorks(c, st, g);
    case DoFinish(g) => LifeWorks(c, st, a);
    case DoRead(ip) => ReadWorks(c, st, ip);
    case DoBegin(r) => LoopWorks(c, st, a);
    case DoAnnounce(r) => AnnounceWorks(c, st, r);
    case DoLeave(r) => LoopWorks(c, st, a);
    case DoClose =>
      SameLives(c, st, Close(st));
      SameLoops(c, st, Close(st));
    case DoHop(pl) => HopWorks(c, st, pl);
  }

  lemma {:induction false} StepInRange(c: Config, st: State, a: Step)
    requires ValidConfig(c) && InRange(c, st) && Enabled(c, st, a)
    ensures InRange(c, Apply(c, st, a))
  {
    var su := Apply(c, st, a);
    forall r | LoopOf(su, r).Announcing?
      ensures LoopOf(su, r).next <= Processes(c.clusters)
    {
      if su.loop == st.loop || r != a.r {
        assert LoopOf(su, r) == LoopOf(st, r);
      }
    }
    forall g | g in c.rankOf && LifeOf(su, g).Retiring?
      ensures LifeOf(su, g).told <= |c.outs[g]|
    {
      if su.life == st.life || g != a.g {
        assert LifeOf(su, g) == LifeOf(st, g);
      }
    }
  }

  // ---------------------------------------------------------------------------
  // Whole runs
  // ---------------------------------------------------------------------------

  lemma {:induction false} QueueWorkNonNegative(pl: Place, q: seq<Packet>)
    ensures QueueWork(pl, q) >= 0
  {
    if q != [] {
      QueueWorkNonNegative(pl, q[1..]);
    }
  }

  lemma {:induction false} WorkNonNegative(c: Config, st: State)
    requires ValidConfig(c) && InRange(c, st)
    ensures Work(c, st) >= 0
  {
    forall pl
      ensures PlaceWork(st.net)(pl) >= 0
    {
      QueueWorkNonNegative(pl, Lookup(st.net.at, pl));
    }
    TotalNonNegative(st.net.at.Keys, PlaceWork(st.net));
    TotalNonNegative(st.store.inbox.Keys, PortWork(st.store));
    forall g | g in c.rankOf
      ensures LifeWeights(c, st)(g) >= 0
    {
      assert g in c.outs;
    }
    TotalNonNegative(c.rankOf.Keys, LifeWeights(c, st));
    TotalNonNegative(Ranks(c.clusters), LoopWeights(c, st));
  }

  lemma {:induction false} RunWorks(c: Config, from: State, steps: seq<Step>, to: State)
    requires ValidConfig(c) && InRange(c, from) && Run(c, from, steps, to)
    ensures InRange(c, to) && Work(c, to) <= Work(c, from) - |steps| + 11 * CountWrites(steps)
    decreases |steps|
  {
    if steps != [] {
      StepWorks(c, from, steps[0]);
      StepInRange(c, from, steps[0]);
      RunWorks(c, Apply(c, from, steps[0]), steps[1..], to);
    }
  }

  /** A run is no longer than the work there is at the start, and eleven steps for every write. */
  lemma {:induction false} RunsAreFinite(c: Config, steps: seq<Step>, st: State)
    requires ValidConfig(c) && Run(c, Init(c), steps, st)
    ensures |steps| <= Work(c, Init(c)) + 11 * CountWrites(steps)
  {
    RunWorks(c, Init(c), steps, st);
    WorkNonNegative(c, st);
  }

  lemma {:induction false} CountsJoin(steps: seq<Step>, more: seq<Step>)
    ensures CountWrites(steps + more) == CountWrites(steps) + CountWrites(more)
  {
    if steps == [] {
      assert [] + more == more;
    } else {
      assert (steps + more)[1..] == steps[1..] + more;
      CountsJoin(steps[1..], more);
    }
  }

  /** As long as the filters write nothing more, every buffer finds room where it goes next. */
  ghost predicate RoomAhead(c: Config, st: State)
    requires ValidConfig(c)
  {
    forall more, to :: Run(c, st, more, to) && CountWrites(more) == 0 ==> P.RoomEverywhere(c, to)
  }

  /**
    Every reachable state with room ahead can be brought to the end: all processes have left, and
    everything that was sent has been received in order.
  */
  lemma {:induction false} RunsCanEnd(c: Config, steps: seq<Step>, st: State) returns (more: seq<Step>, end: State)
    requires ValidConfig(c) && Run(c, Init(c), steps, st) && RoomAhead(c, st)
    ensures Run(c, st, more, end) && CountWrites(more) == 0 && P.Over(c, end)
    decreases Work(c, st)
  {
    RunWorks(c, Init(c), steps, st);
    assert Run(c, st, [], st);
    P.NoDeadlock(c, steps, st);
    if P.Over(c, st) {
      more, end := [], st;
    } else {
      var a := Onward(c, st);
      var su := Apply(c, st, a);
      OneMore(c, st, a);
      RunThen(c, Init(c), steps, st, a);
      StepWorks(c, st, a);
      StepInRange(c, st, a);
      WorkNonNegative(c, su);
      RoomStays(c, st, a);
      var rest;
      rest, end := RunsCanEnd(c, steps + [a], su);
      StepFirst(c, st, a, rest, end);
      CountsJoin([a], rest);
      more := [a] + rest;
    }
  }

  /** If the runtime only waits for filters, one of them can return. */
  lemma {:induction false} Onward(c: Config, st: State) returns (a: Step)
    requires ValidConfig(c) && (P.CanProgress(c, st) || P.SomeWork(c, st))
    ensures Enabled(c, st, a) && !a.DoWrite?
  {
    if P.CanProgress(c, st) {
      a :| P.IsRuntimeStep(a) && Enabled(c, st, a);
    } else {
      var g :| g in c.rankOf && LifeOf(st, g) == Working;
      a := DoStop(g);
    }
  }

  lemma {:induction false} OneMore(c: Config, st: State, a: Step)
    requires ValidConfig(c) && Enabled(c, st, a)
    ensures Run(c, st, [a], Apply(c, st, a)) && CountWrites([a]) == IsWrite(a)
  {
    assert [a][1..] == [];
  }

  lemma {:induction false} RoomStays(c: Config, st: State, a: Step)
    requires ValidConfig(c) && RoomAhead(c, st) && Enabled(c, st, a) && !a.DoWrite?
    ensures RoomAhead(c, Apply(c, st, a))
  {
    var su := Apply(c, st, a);
    forall more, to | Run(c, su, more, to) && CountWrites(more) == 0
      ensures P.RoomEverywhere(c, to)
    {
      OneMore(c, st, a);
      StepFirst(c, st, a, more, to);
      CountsJoin([a], more);
    }
  }
}
