/**
  Absence of deadlock.  The counting rule not only never lets a process leave too early, it also
  never keeps one waiting: as long as waiting buffers find room, some step is possible until every
  process has left and every packet has been delivered.
*/
module Progress {
  import opened Common
  import opened Topology
  import opened RouteCount
  import opened Network
  import opened Upstream
  import opened Runtime
  import opened Termination

  /** Steps of the runtime itself: a filter chooses when to write, to read, and to return. */
  predicate IsRuntimeStep(a: Step) {
    !a.DoWrite? && !a.DoRead? && !a.DoStop?
  }

  ghost predicate CanProgress(c: Config, st: State)
    requires ValidConfig(c)
  {
    exists a :: IsRuntimeStep(a) && Enabled(c, st, a)
  }

  ghost predicate RoomEverywhere(c: Config, st: State)
    requires ValidConfig(c)
  {
    forall pl :: Lookup(st.net.at, pl) != [] ==> HasRoom(c, st, pl)
  }

  ghost predicate AllLeft(c: Config, st: State) {
    forall r :: IsProcess(c.clusters, r) ==> LoopOf(st, r) == Left
  }

  ghost predicate NothingWaits(n: Net) {
    forall pl :: Lookup(n.at, pl) == []
  }

  /** All processes are gone, and all that was sent has been received, in order. */
  ghost predicate Over(c: Config, st: State)
    requires ValidConfig(c)
  {
    && AllLeft(c, st) && NothingWaits(st.net)
    && forall s, d :: Pair(c.clusters, s, d) ==> Got(st.net, s, d) == Sent(st.net, s, d)
  }

  ghost predicate SomeWork(c: Config, st: State) {
    exists g :: g in c.rankOf && LifeOf(st, g) == Working
  }

  // ---------------------------------------------------------------------------
  // A waiting packet can move
  // ---------------------------------------------------------------------------

  /** A packet at a place h reads from is still to be handled by h. */
  lemma {:induction false} WaitingIsToHandle(t: Clusters, n: Net, o: Place, pl: Place, h: int, s: int, d: int)
    requires Valid(t) && IsRank(t, d) && Fits(t, o, d) && Reaches(t, o, pl, d)
    requires HandlerOf(t, pl) == Main(h) && Distinct(Visits(t, o, d))
    requires Waiting(n, pl, s, d) != []
    ensures Upto(t, n, o, h, s, d) != []
    decreases 8 - Stage(o, d)
  {
    UptoStep(t, n, o, h, s, d);
    if o != pl {
      NextFits(t, o, d);
      VisitedOnce(t, o, pl, d);
      WaitingIsToHandle(t, n, Next(t, o, d).place, pl, h, s, d);
    }
  }

  lemma {:induction false} NotLeftBehind(c: Config, st: State, pl: Place)
    requires ValidConfig(c) && Inv(c, st) && Lookup(st.net.at, pl) != []
    requires HandlerOf(c.clusters, pl).Main?
    ensures LoopOf(st, HandlerOf(c.clusters, pl).rank) != Left
  {
    var t, p, h := c.clusters, Lookup(st.net.at, pl)[0], HandlerOf(c.clusters, pl).rank;
    assert PlacedAt(t, pl, p) && Pair(t, p.src, p.dst);
    RoutingTotality(t, p.src, p.dst);
    HandlerVisited(t, Origin(t, p.src, p.dst), pl, p.dst);
    WaitingIsToHandle(t, st.net, Origin(t, p.src, p.dst), pl, h, p.src, p.dst);
    InvAt(c, st, h);
    assert Handles(t, h, p.src, p.dst);
  }

  /** Its handler takes it, or first tells the next rank that its filters are done. */
  lemma {:induction false} WaitingMoves(c: Config, st: State, pl: Place) returns (a: Step)
    requires ValidConfig(c) && Inv(c, st) && Lookup(st.net.at, pl) != [] && HasRoom(c, st, pl)
    ensures Enabled(c, st, a) && (a == DoHop(pl) || a.DoAnnounce?)
  {
    var t, p, h := c.clusters, Lookup(st.net.at, pl)[0], HandlerOf(c.clusters, pl);
    assert PlacedAt(t, pl, p);
    ReachesForward(t, Origin(t, p.src, p.dst), pl, p.dst);
    if h.Main? && h.rank >= 0 && LoopOf(st, h.rank).Announcing? {
      InvAt(c, st, h.rank);
      a := DoAnnounce(h.rank);
    } else {
      if h.Main? {
        NotLeftBehind(c, st, pl);
      }
      a := DoHop(pl);
    }
  }

  // ---------------------------------------------------------------------------
  // Nothing waits
  // ---------------------------------------------------------------------------

  /** A filter that has returned goes on by itself. */
  lemma {:induction false} RetiringMoves(c: Config, st: State, g: int)
    requires ValidConfig(c) && g in c.rankOf && LifeOf(st, g).Retiring?
    requires LifeOf(st, g).told <= |c.outs[g]|
    ensures CanProgress(c, st)
  {
    var a := if LifeOf(st, g) == Retiring(|c.outs[g]|) then DoFinish(g) else DoRetire(g);
    assert Enabled(c, st, a) && IsRuntimeStep(a);
  }

  lemma {:induction false} RankMoves(c: Config, st: State, r: int)
    requires ValidConfig(c) && NothingWaits(st.net) && IsRank(c.clusters, r) && FiltersFinished(c, st, r)
    requires LoopOf(st, r) == Looping || LoopOf(st, r).Announcing?
    ensures CanProgress(c, st)
  {
    var a := if LoopOf(st, r) == Looping then DoBegin(r) else DoAnnounce(r);
    assert Enabled(c, st, a) && IsRuntimeStep(a);
  }

  lemma {:induction false} EmptyUpto(t: Clusters, n: Net, o: Place, h: int, s: int, d: int)
    requires Valid(t) && NothingWaits(n) && IsRank(t, d) && Fits(t, o, d)
    ensures Upto(t, n, o, h, s, d) == []
    decreases 8 - Stage(o, d)
  {
    NextFits(t, o, d);
    UptoStep(t, n, o, h, s, d);
    assert Lookup(n.at, o) == [];
    if Next(t, o, d).Forward? {
      EmptyUpto(t, n, Next(t, o, d).place, h, s, d);
    }
  }

  ghost predicate AllAnnounced(c: Config, st: State) {
    forall s :: IsRank(c.clusters, s) ==> LoopOf(st, s) == Announced || LoopOf(st, s) == Left
  }

  /** Once everyone has announced and nothing waits, both counters of every process are full. */
  lemma {:induction false} CountersFill(c: Config, st: State, r: int)
    requires ValidConfig(c) && Inv(c, st) && NothingWaits(st.net) && AllAnnounced(c, st)
    requires IsProcess(c.clusters, r)
    ensures DoneReceived(st.tally, r) == TotalRanks(c.clusters) - 1
    ensures Routed(st.tally, r) == MessagesToRoute(c.clusters, r)
  {
    var t := c.clusters;
    InvAt(c, st, r);
    DoneInside(c, st, r);
    RoutedInside(c, st, r);
    forall x | x in Senders(t, r)
      ensures x in DoneFrom(st.tally, r)
    {
      AllHandled(c, st, r, x.0, x.1);
    }
    forall x | x in RelayedPairs(t, r)
      ensures x in RoutedFor(st.tally, r)
    {
      AllHandled(c, st, r, x.0, x.1);
    }
    SendersSize(t, r);
    MessagesToRouteExact(t, r);
    assert DoneFrom(st.tally, r) == Senders(t, r);
    assert RoutedFor(st.tally, r) == RelayedPairs(t, r);
  }

  lemma {:induction false} AllHandled(c: Config, st: State, h: int, s: int, d: int)
    requires ValidConfig(c) && NothingWaits(st.net) && AllAnnounced(c, st)
    requires IsRank(c.clusters, s) && IsRank(c.clusters, d) && s != d
    requires h == d || h in Relays(c.clusters, s, d)
    ensures IsHandled(c, st, h, s, d)
  {
    HandlesRelayed(c.clusters, h, s, d);
    EmptyUpto(c.clusters, st.net, Origin(c.clusters, s, d), h, s, d);
  }

  lemma {:induction false} HandlesRelayed(t: Clusters, h: int, s: int, d: int)
    requires Valid(t) && IsRank(t, s) && IsRank(t, d) && s != d
    requires h == d || h in Relays(t, s, d)
    ensures Handles(t, h, s, d) && Fits(t, Origin(t, s, d), d)
  {
    VisitsAreRelays(t, s, d);
    RelaysShape(t, s, d);
  }

  lemma {:induction false} LastStep(c: Config, st: State, r: int)
    requires ValidConfig(c) && Inv(c, st) && NothingWaits(st.net) && AllAnnounced(c, st)
    requires IsProcess(c.clusters, r) && LoopOf(st, r) != Left
    ensures CanProgress(c, st)
  {
    CountersFill(c, st, r);
    assert Lookup(st.net.at, OutQ(r)) == [] && Lookup(st.net.at, FromConsoleQ) == [];
    if st.consoleOpen {
      InvAt(c, st, -1);
      assert Lookup(st.net.at, ConsoleOut) == [] && Lookup(st.net.at, FromSock) == [];
      assert Enabled(c, st, DoClose) && IsRuntimeStep(DoClose);
    } else {
      assert Enabled(c, st, DoLeave(r)) && IsRuntimeStep(DoLeave(r));
    }
  }

  // ---------------------------------------------------------------------------
  // Runs
  // ---------------------------------------------------------------------------

  ghost predicate LivesInRange(c: Config, st: State)
    requires ValidConfig(c)
  {
    forall g :: g in c.rankOf && LifeOf(st, g).Retiring? ==> LifeOf(st, g).told <= |c.outs[g]|
  }

  lemma {:induction false} RunKeepsLives(c: Config, from: State, steps: seq<Step>, to: State)
    requires ValidConfig(c) && Run(c, from, steps, to) && LivesInRange(c, from)
    ensures LivesInRange(c, to)
    decreases |steps|
  {
    if steps != [] {
      RunKeepsLives(c, Apply(c, from, steps[0]), steps[1..], to);
    }
  }

  /** With nothing on its way, the runtime only ever waits for filters to go on. */
  lemma {:induction false} IdleOrOver(c: Config, steps: seq<Step>, st: State)
    requires ValidConfig(c) && Run(c, Init(c), steps, st) && NothingWaits(st.net) && !CanProgress(c, st)
    ensures SomeWork(c, st) || Over(c, st)
  {
    InitInv(c);
    RunKeepsInv(c, Init(c), steps, st);
    RunKeepsLives(c, Init(c), steps, st);
    if !SomeWork(c, st) {
      NoWorkIsOver(c, st);
      EmptyIsDelivered(c, st);
    }
  }

  lemma {:induction false} NoWorkIsOver(c: Config, st: State)
    requires ValidConfig(c) && Inv(c, st) && LivesInRange(c, st) && NothingWaits(st.net)
    requires !CanProgress(c, st) && !SomeWork(c, st)
    ensures AllLeft(c, st)
  {
    if g :| g in c.rankOf && LifeOf(st, g) != Finished {
      RetiringMoves(c, st, g);
    } else if r :| IsRank(c.clusters, r) && (LoopOf(st, r) == Looping || LoopOf(st, r).Announcing?) {
      RankMoves(c, st, r);
    } else if r :| IsProcess(c.clusters, r) && LoopOf(st, r) != Left {
      LastStep(c, st, r);
    }
  }

  lemma {:induction false} EmptyIsDelivered(c: Config, st: State)
    requires ValidConfig(c) && Inv(c, st) && NothingWaits(st.net)
    ensures forall s, d :: Pair(c.clusters, s, d) ==> Got(st.net, s, d) == Sent(st.net, s, d)
  {
    forall s, d | Pair(c.clusters, s, d)
      ensures Got(st.net, s, d) == Sent(st.net, s, d)
    {
      assert PairFifo(c.clusters, st.net, s, d);
      DestinationHandlesAll(c.clusters, st.net, Origin(c.clusters, s, d), s, d);
      EmptyUpto(c.clusters, st.net, Origin(c.clusters, s, d), d, s, d);
    }
  }

  /**
    In every reachable state in which waiting buffers find room, a step that is no filter's own
    choice is possible, unless nothing waits and some filter still works, or all is over.
  */
  lemma {:induction false} NoDeadlock(c: Config, steps: seq<Step>, st: State)
    requires ValidConfig(c) && Run(c, Init(c), steps, st) && RoomEverywhere(c, st)
    ensures CanProgress(c, st) || (NothingWaits(st.net) && SomeWork(c, st)) || Over(c, st)
  {
    if !NothingWaits(st.net) {
      InitInv(c);
      RunKeepsInv(c, Init(c), steps, st);
      var pl :| Lookup(st.net.at, pl) != [];
      assert HasRoom(c, st, pl);
      var a := WaitingMoves(c, st, pl);
      assert IsRuntimeStep(a);
    } else if !CanProgress(c, st) {
      IdleOrOver(c, steps, st);
    }
  }

  // ---------------------------------------------------------------------------
  // Nothing is possible any more
  // ---------------------------------------------------------------------------

  /** Process 0 leaves after the console has closed, and the console closes after its announcement. */
  predicate ClosedInTurn(c: Config, st: State) {
    && (LoopOf(st, 0) == Left ==> !st.consoleOpen)
    && (!st.consoleOpen && c.clusters.console ==> LoopOf(st, -1) == Announced)
  }

  lemma {:induction false} StepKeepsClosed(c: Config, st: State, a: Step)
    requires ValidConfig(c) && ClosedInTurn(c, st) && Enabled(c, st, a)
    ensures ClosedInTurn(c, Apply(c, st, a))
  {
  }

  lemma {:induction false} RunKeepsClosed(c: Config, from: State, steps: seq<Step>, to: State)
    requires ValidConfig(c) && Run(c, from, steps, to) && ClosedInTurn(c, from)
    ensures ClosedInTurn(c, to)
    decreases |steps|
  {
    if steps != [] {
      StepKeepsClosed(c, from, steps[0]);
      RunKeepsClosed(c, Apply(c, from, steps[0]), steps[1..], to);
    }
  }

  /** When all is over, no step is possible at all, not even one that a filter chooses. */
  lemma {:induction false} OverIsFinal(c: Config, steps: seq<Step>, st: State, a: Step)
    requires ValidConfig(c) && Run(c, Init(c), steps, st) && Over(c, st)
    ensures !Enabled(c, st, a)
  {
    InitInv(c);
    RunKeepsInv(c, Init(c), steps, st);
    RunKeepsClosed(c, Init(c), steps, st);
    HeadIsProcess(c.clusters, 0);
    assert LoopOf(st, 0) == Left;
    forall g | g in c.rankOf
      ensures LifeOf(st, g) == Finished
    {
      if LifeOf(st, g) != Finished {
        LiveMeansLooping(c, st, g);
      }
    }
  }
}
