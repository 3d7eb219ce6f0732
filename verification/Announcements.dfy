/**
  What the announcement test guarantees while a process tells the others that its filters are done,
  and what the closing of the console guarantees afterwards.
*/
module Announcements {
  import opened Topology
  import opened Network
  import opened Runtime
  import opened Termination

  predicate IsDoneOf(p: Packet, r: int) {
    p.kind.FiltersDone? && p.src == r
  }

  predicate OnlyDoneOf(q: seq<Packet>, r: int) {
    forall p :: p in q ==> IsDoneOf(p, r)
  }

  /** While the head of cluster k announces, nothing but its own done messages waits for the proxy. */
  predicate ProxyQuiet(c: Config, st: State, k: nat)
    requires Valid(c.clusters)
  {
    k < |c.clusters.sizes| && LoopOf(st, Head(c.clusters, k)).Announcing? ==>
      OnlyDoneOf(Lookup(st.net.at, ProxyQ(k)), Head(c.clusters, k))
  }

  /** Only the head of a cluster and its main loop put packets into the proxy queue. */
  lemma {:induction false} IntoProxy(t: Clusters, pl: Place, d: int, k: nat)
    requires Valid(t) && IsRank(t, d) && Fits(t, pl, d) && Next(t, pl, d) == Forward(ProxyQ(k))
    ensures k < |t.sizes| && HandlerOf(t, pl) == Main(Head(t, k))
  {
    NextFits(t, pl, d);
    HeadIsProcess(t, 0);
  }

  lemma {:induction false} NoProxyAlone(c: Config, st: State)
    requires ValidConfig(c) && Inv(c, st) && |c.clusters.sizes| == 1
    ensures Lookup(st.net.at, ProxyQ(0)) == []
  {
    var q := Lookup(st.net.at, ProxyQ(0));
    if q != [] {
      var p := q[0];
      assert PlacedAt(c.clusters, ProxyQ(0), p);
      ReachesForward(c.clusters, Origin(c.clusters, p.src, p.dst), ProxyQ(0), p.dst);
      assert false;
    }
  }

  /** A live filter's packets go to the proxy queue only while its process does not announce. */
  lemma {:induction false} FilterKeepsProxy(c: Config, st: State, a: Step, k: nat)
    requires ValidConfig(c) && Inv(c, st) && ProxyQuiet(c, st, k) && Enabled(c, st, a)
    requires a.DoWrite? || a.DoRetire?
    ensures ProxyQuiet(c, Apply(c, st, a), k)
  {
    LiveMeansLooping(c, st, a.g);
  }

  lemma {:induction false} AnnounceKeepsProxy(c: Config, st: State, r: int, k: nat)
    requires ValidConfig(c) && ProxyQuiet(c, st, k) && CanAnnounce(c, st, r)
    ensures ProxyQuiet(c, Announce(c, st, r), k)
  {
    var d := LoopOf(st, r).next;
    if IsRank(c.clusters, d) && d != r {
      EnqueueAt(st.net.at, DoneEntry(c, r, d), DonePacket(c, r, d), ProxyQ(k));
    }
  }

  lemma {:induction false} HopKeepsProxy(c: Config, st: State, pl: Place, k: nat)
    requires ValidConfig(c) && ProxyQuiet(c, st, k) && CanHop(c, st, pl)
    ensures ProxyQuiet(c, Hop(c, st, pl), k)
  {
    var d := Lookup(st.net.at, pl)[0].dst;
    MoveAt(c.clusters, st.net, pl, ProxyQ(k));
    if Next(c.clusters, pl, d) == Forward(ProxyQ(k)) {
      IntoProxy(c.clusters, pl, d, k);
    }
  }

  lemma {:induction false} BeginKeepsProxy(c: Config, st: State, r: int, k: nat)
    requires ValidConfig(c) && Inv(c, st) && ProxyQuiet(c, st, k) && CanBegin(c, st, r)
    ensures ProxyQuiet(c, Begin(c, st, r), k)
  {
    if k < |c.clusters.sizes| && r == Head(c.clusters, k) {
      HeadIsProcess(c.clusters, k);
      if |c.clusters.sizes| == 1 {
        NoProxyAlone(c, st);
      }
    }
  }

  lemma {:induction false} StepKeepsProxy(c: Config, st: State, a: Step, k: nat)
    requires ValidConfig(c) && Inv(c, st) && ProxyQuiet(c, st, k) && Enabled(c, st, a)
    ensures ProxyQuiet(c, Apply(c, st, a), k)
  {
    match a
    case DoWrite(g, i, body) => FilterKeepsProxy(c, st, a, k);
    case DoRetire(g) => FilterKeepsProxy(c, st, a, k);
    case DoBegin(r) => BeginKeepsProxy(c, st, r, k);
    case DoAnnounce(r) => AnnounceKeepsProxy(c, st, r, k);
    case DoHop(pl) => HopKeepsProxy(c, st, pl, k);
    case _ =>
  }

  lemma {:induction false} RunKeepsProxy(c: Config, from: State, steps: seq<Step>, to: State, k: nat)
    requires ValidConfig(c) && Inv(c, from) && ProxyQuiet(c, from, k) && Run(c, from, steps, to)
    ensures ProxyQuiet(c, to, k)
    decreases |steps|
  {
    if steps != [] {
      StepKeepsInv(c, from, steps[0]);
      StepKeepsProxy(c, from, steps[0], k);
      RunKeepsProxy(c, Apply(c, from, steps[0]), steps[1..], to, k);
    }
  }

  /**
    In every run, while rank r announces, all filters placed on it have returned, its outgoing queue
    is empty, and, when it is the head of cluster k, everything in the proxy queue is one of its own
    done messages: no packet of a filter and no relayed packet is still waiting in front of them.
  */
  lemma {:induction false} AnnouncementComesLast(c: Config, steps: seq<Step>, st: State, r: int, k: nat)
    requires ValidConfig(c) && Run(c, Init(c), steps, st) && LoopOf(st, r).Announcing?
    ensures forall g :: g in c.rankOf && c.rankOf[g] == r ==> LifeOf(st, g) == Finished
    ensures r >= 0 ==> Lookup(st.net.at, OutQ(r)) == []
    ensures k < |c.clusters.sizes| && r == Head(c.clusters, k) ==>
              forall p :: p in Lookup(st.net.at, ProxyQ(k)) ==> p.kind.FiltersDone? && p.src == r
  {
    InitInv(c);
    RunKeepsInv(c, Init(c), steps, st);
    RunKeepsProxy(c, Init(c), steps, st, k);
    InvAt(c, st, r);
    if k < |c.clusters.sizes| && r == Head(c.clusters, k) {
      forall p | p in Lookup(st.net.at, ProxyQ(k))
        ensures p.kind.FiltersDone? && p.src == r
      {
        assert IsDoneOf(p, r);
      }
    }
  }

  // ---------------------------------------------------------------------------
  // The console
  // ---------------------------------------------------------------------------

  /**
    The closed console has announced, and nothing of it is before the queue of process 0.  When
    process 0 has left, the console has closed and that queue is empty, too.
  */
  predicate ConsoleSilent(c: Config, st: State) {
    && (!st.consoleOpen ==>
          && (c.clusters.console ==> LoopOf(st, -1) == Announced)
          && Lookup(st.net.at, ConsoleOut) == [] && Lookup(st.net.at, FromSock) == [])
    && (LoopOf(st, 0) == Left ==> !st.consoleOpen && Lookup(st.net.at, FromConsoleQ) == [])
  }

  lemma {:induction false} HopKeepsConsole(c: Config, st: State, pl: Place)
    requires ValidConfig(c) && ConsoleSilent(c, st) && CanHop(c, st, pl)
    ensures ConsoleSilent(c, Hop(c, st, pl))
  {
    NextFits(c.clusters, pl, Lookup(st.net.at, pl)[0].dst);
    MoveAt(c.clusters, st.net, pl, ConsoleOut);
    MoveAt(c.clusters, st.net, pl, FromSock);
    MoveAt(c.clusters, st.net, pl, FromConsoleQ);
  }

  lemma {:induction false} AnnounceKeepsConsole(c: Config, st: State, r: int)
    requires ValidConfig(c) && ConsoleSilent(c, st) && CanAnnounce(c, st, r)
    ensures ConsoleSilent(c, Announce(c, st, r))
  {
    var d := LoopOf(st, r).next;
    if IsRank(c.clusters, d) && d != r {
      EnqueueAt(st.net.at, DoneEntry(c, r, d), DonePacket(c, r, d), ConsoleOut);
      EnqueueAt(st.net.at, DoneEntry(c, r, d), DonePacket(c, r, d), FromSock);
      EnqueueAt(st.net.at, DoneEntry(c, r, d), DonePacket(c, r, d), FromConsoleQ);
    }
  }

  /** The steps of a live filter. */
  lemma {:induction false} FilterKeepsConsole(c: Config, st: State, a: Step)
    requires ValidConfig(c) && Inv(c, st) && ConsoleSilent(c, st) && Enabled(c, st, a)
    requires a.DoWrite? || a.DoRetire?
    ensures ConsoleSilent(c, Apply(c, st, a))
  {
    LiveMeansLooping(c, st, a.g);
  }

  lemma {:induction false} ConsoleFrame(c: Config, st: State, su: State)
    requires ConsoleSilent(c, st) && su.net == st.net && su.consoleOpen == st.consoleOpen
    requires LoopOf(su, -1) == LoopOf(st, -1) || st.consoleOpen || LoopOf(st, -1) != Announced
    requires LoopOf(su, 0) == Left ==> LoopOf(st, 0) == Left
    ensures ConsoleSilent(c, su)
  {
  }

  lemma {:induction false} StepKeepsConsole(c: Config, st: State, a: Step)
    requires ValidConfig(c) && Inv(c, st) && ConsoleSilent(c, st) && Enabled(c, st, a)
    ensures ConsoleSilent(c, Apply(c, st, a))
  {
    match a
    case DoWrite(g, i, body) => FilterKeepsConsole(c, st, a);
    case DoRetire(g) => FilterKeepsConsole(c, st, a);
    case DoStop(g) => ConsoleFrame(c, st, Stop(st, g));
    case DoFinish(g) => ConsoleFrame(c, st, Finish(st, g));
    case DoRead(ip) => ConsoleFrame(c, st, Read(c, st, ip));
    case DoBegin(r) => ConsoleFrame(c, st, Begin(c, st, r));
    case DoAnnounce(r) => AnnounceKeepsConsole(c, st, r);
    case DoHop(pl) => HopKeepsConsole(c, st, pl);
    case _ =>
  }

  lemma {:induction false} RunKeepsConsole(c: Config, from: State, steps: seq<Step>, to: State)
    requires ValidConfig(c) && Inv(c, from) && ConsoleSilent(c, from) && Run(c, from, steps, to)
    ensures ConsoleSilent(c, to)
    decreases |steps|
  {
    if steps != [] {
      StepKeepsInv(c, from, steps[0]);
      StepKeepsConsole(c, from, steps[0]);
      RunKeepsConsole(c, Apply(c, from, steps[0]), steps[1..], to);
    }
  }

  /**
    In every run, once the console has closed, all it ever wrote is at process 0 or beyond, it has
    announced, and what it has sent to any rank is final in every continuation.
  */
  lemma {:induction false} ClosedConsoleIsSilent(c: Config, steps: seq<Step>, st: State, more: seq<Step>, su: State, d: int)
    requires ValidConfig(c) && Run(c, Init(c), steps, st) && Run(c, st, more, su) && !st.consoleOpen
    requires c.clusters.console && IsProcess(c.clusters, d)
    ensures Lookup(su.net.at, ConsoleOut) == [] && Lookup(su.net.at, FromSock) == []
    ensures AnnouncedTo(su, -1, d) && Sent(su.net, -1, d) == Sent(st.net, -1, d)
  {
    InitInv(c);
    RunKeepsInv(c, Init(c), steps, st);
    RunKeepsConsole(c, Init(c), steps, st);
    ClosedForGood(c, st, more, su);
    RunKeepsConsole(c, st, more, su);
    assert Pair(c.clusters, -1, d);
    AnnouncedStays(c, st, more, su, -1, d);
  }

  lemma {:induction false} ClosedForGood(c: Config, from: State, steps: seq<Step>, to: State)
    requires ValidConfig(c) && Run(c, from, steps, to) && !from.consoleOpen
    ensures !to.consoleOpen
    decreases |steps|
  {
    if steps != [] {
      ClosedForGood(c, Apply(c, from, steps[0]), steps[1..], to);
    }
  }

  /** In every run, process 0 leaves only after the console has closed and its queue is empty, for good. */
  lemma {:induction false} ZeroLeavesLast(c: Config, steps: seq<Step>, st: State)
    requires ValidConfig(c) && Run(c, Init(c), steps, st) && LoopOf(st, 0) == Left
    ensures !st.consoleOpen && (c.clusters.console ==> LoopOf(st, -1) == Announced)
    ensures Lookup(st.net.at, ConsoleOut) == [] && Lookup(st.net.at, FromSock) == [] && Lookup(st.net.at, FromConsoleQ) == []
  {
    InitInv(c);
    RunKeepsConsole(c, Init(c), steps, st);
  }
}
