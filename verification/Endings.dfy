/**
  When a run can end with everything read, exactly.  A buffer that does not fit somewhere ahead, or
  whose filter has returned, spoils every continuation; without such a buffer the run can be brought to
  its end, and comes there by itself if filters return only when nothing is on its way to them.
*/
module Endings {
  import opened Common
  import opened Topology
  import opened Network
  import opened Runtime
  import opened Bounded
  import opened Draining
  import L = Ledger
  import P = Progress
  import T = Termination
  import U = Putters

  // ---------------------------------------------------------------------------
  // What is not welcome stays so
  // ---------------------------------------------------------------------------

  /** Packets stay where they are, unread ports stay unread, and filters that have returned stay so. */
  ghost predicate Persists(st: State, su: State) {
    && (forall pl, p :: p in Lookup(st.net.at, pl) ==> p in Lookup(su.net.at, pl))
    && (forall ip: InPort :: Lookup(st.store.inbox, ip) != [] && LifeOf(st, ip.filter) != Working
                             ==> Lookup(su.store.inbox, ip) != [])
    && (forall g :: LifeOf(st, g) != Working ==> LifeOf(su, g) != Working)
  }

  lemma {:induction false} PersistsUnwelcome(c: Config, st: State, su: State)
    requires ValidConfig(c) && Persists(st, su) && !Welcome(c, st)
    ensures !Welcome(c, su)
  {
    if ip: InPort :| Lookup(st.store.inbox, ip) != [] && LifeOf(st, ip.filter) != Working {
      assert Lookup(su.store.inbox, ip) != [];
    } else {
      var pl, p :| p in Lookup(st.net.at, pl) && !IsWelcome(c, st, pl, p);
      assert !IsWelcome(c, su, pl, p);
    }
  }

  lemma {:induction false} PutPersists(n: Net, pl: Place, p: Packet, x: Place, y: Packet)
    requires y in Lookup(n.at, x)
    ensures y in Lookup(Put(n, pl, p).at, x)
  {
    EnqueueAt(n.at, pl, p, x);
  }

  lemma {:induction false} WritePersists(c: Config, st: State, g: int, k: nat, body: Bytes)
    requires ValidConfig(c) && CanWrite(c, st, g, k, body)
    ensures Persists(st, Write(c, st, g, k, body))
  {
    var ip, su := c.outs[g][k], Write(c, st, g, k, body);
    forall x, y | y in Lookup(st.net.at, x)
      ensures y in Lookup(su.net.at, x)
    {
      if !IsLocal(c, g, ip) {
        PutPersists(st.net, Origin(c.clusters, c.rankOf[g], c.rankOf[ip.filter]), PacketTo(c, g, ip, Buffer(body)), x, y);
      }
    }
    forall z: InPort | Lookup(st.store.inbox, z) != []
      ensures Lookup(su.store.inbox, z) != []
    {
      EnqueueAt(st.store.inbox, ip, Arrival(g, body, WriterAccount(c, g)), z);
    }
  }

  lemma {:induction false} RetirePersists(c: Config, st: State, g: int)
    requires ValidConfig(c) && CanRetire(c, st, g)
    ensures Persists(st, Retire(c, st, g))
  {
    var ip, su := c.outs[g][LifeOf(st, g).told], Retire(c, st, g);
    forall x, y | y in Lookup(st.net.at, x)
      ensures y in Lookup(su.net.at, x)
    {
      if !IsLocal(c, g, ip) {
        PutPersists(st.net, Origin(c.clusters, c.rankOf[g], c.rankOf[ip.filter]), PacketTo(c, g, ip, RemovePutter), x, y);
      }
    }
  }

  lemma {:induction false} AnnouncePersists(c: Config, st: State, r: int)
    requires ValidConfig(c) && CanAnnounce(c, st, r)
    ensures Persists(st, Announce(c, st, r))
  {
    var d := LoopOf(st, r).next;
    forall x, y | y in Lookup(st.net.at, x)
      ensures y in Lookup(Announce(c, st, r).net.at, x)
    {
      if IsRank(c.clusters, d) && d != r {
        PutPersists(st.net, DoneEntry(c, r, d), DonePacket(c, r, d), x, y);
      }
    }
  }

  /** What is taken fits where it is taken, so what does not fit lies further ahead. */
  lemma {:induction false} TooBigFurther(c: Config, pl: Place, p: Packet)
    requires ValidConfig(c) && IsRank(c.clusters, p.dst) && Fits(c.clusters, pl, p.dst) && !FitsAhead(c, pl, p)
    requires Intake(c, pl).Some? ==> Size(p) <= c.limit(Intake(c, pl).value)
    ensures var next := Next(c.clusters, pl, p.dst); next.Forward? && !FitsAhead(c, next.place, p)
  {
    NextFits(c.clusters, pl, p.dst);
    var x :| Reaches(c.clusters, pl, x, p.dst) && Intake(c, x).Some? && Size(p) > c.limit(Intake(c, x).value);
    assert x != pl;
  }

  lemma {:induction false} RoomMeansFit(c: Config, steps: seq<Step>, st: State, pl: Place)
    requires ValidConfig(c) && Run(c, Init(c), steps, st) && Lookup(st.net.at, pl) != [] && HasRoom(c, st, pl)
    ensures var p := Lookup(st.net.at, pl)[0];
            p.kind.Buffer? && Intake(c, pl).Some? ==> Size(p) <= c.limit(Intake(c, pl).value)
  {
    if Intake(c, pl).Some? {
      L.LedgerConservation(c, steps, st, Intake(c, pl).value);
    }
  }

  /** The packet that is passed on or delivered is no more welcome afterwards. */
  lemma {:induction false} TakenUnwelcome(c: Config, steps: seq<Step>, st: State, pl: Place)
    requires ValidConfig(c) && Run(c, Init(c), steps, st) && CanHop(c, st, pl)
    requires !IsWelcome(c, st, pl, Lookup(st.net.at, pl)[0])
    ensures !Welcome(c, Hop(c, st, pl))
  {
    var p, su := Lookup(st.net.at, pl)[0], Hop(c, st, pl);
    var next := Next(c.clusters, pl, p.dst);
    RoomMeansFit(c, steps, st, pl);
    if !FitsAhead(c, pl, p) {
      TooBigFurther(c, pl, p);
    }
    if next.Forward? {
      MoveAt(c.clusters, st.net, pl, next.place);
      assert p in Lookup(su.net.at, next.place) && !IsWelcome(c, su, next.place, p);
    } else {
      DeliveredAt(st.store, p, InPort(p.toFilter, p.toPort));
      assert Lookup(su.store.inbox, InPort(p.toFilter, p.toPort)) != [];
    }
  }

  lemma {:induction false} HopUnwelcome(c: Config, steps: seq<Step>, st: State, pl: Place)
    requires ValidConfig(c) && Run(c, Init(c), steps, st) && CanHop(c, st, pl) && !Welcome(c, st)
    ensures !Welcome(c, Hop(c, st, pl))
  {
    var pkt, su := Lookup(st.net.at, pl)[0], Hop(c, st, pl);
    if ip: InPort :| Lookup(st.store.inbox, ip) != [] && LifeOf(st, ip.filter) != Working {
      DeliveredAt(st.store, pkt, ip);
    } else if !IsWelcome(c, st, pl, pkt) {
      TakenUnwelcome(c, steps, st, pl);
    } else {
      var x, p :| p in Lookup(st.net.at, x) && !IsWelcome(c, st, x, p);
      MoveAt(c.clusters, st.net, pl, x);
      assert p in Lookup(su.net.at, x) && !IsWelcome(c, su, x, p);
    }
  }

  lemma {:induction false} StepPersists(c: Config, st: State, a: Step)
    requires ValidConfig(c) && Enabled(c, st, a) && !a.DoHop?
    ensures Persists(st, Apply(c, st, a))
  {
    match a
    case DoWrite(g, k, body) => WritePersists(c, st, g, k, body);
    case DoRetire(g) => RetirePersists(c, st, g);
    case DoAnnounce(r) => AnnouncePersists(c, st, r);
    case _ =>
  }

  lemma {:induction false} StepUnwelcome(c: Config, steps: seq<Step>, st: State, a: Step)
    requires ValidConfig(c) && Run(c, Init(c), steps, st) && Enabled(c, st, a) && !Welcome(c, st)
    ensures !Welcome(c, Apply(c, st, a))
  {
    if a.DoHop? {
      HopUnwelcome(c, steps, st, a.pl);
    } else {
      StepPersists(c, st, a);
      PersistsUnwelcome(c, st, Apply(c, st, a));
    }
  }

  /** Whatever the filters do, read, write or return: not everything is ever read. */
  lemma {:induction false} UnwelcomeForEver(c: Config, steps: seq<Step>, st: State, more: seq<Step>, su: State)
    requires ValidConfig(c) && Run(c, Init(c), steps, st) && Run(c, st, more, su) && !Welcome(c, st)
    ensures !Welcome(c, su) && !Drained(su)
    decreases |more|
  {
    if more != [] {
      StepUnwelcome(c, steps, st, more[0]);
      RunThen(c, Init(c), steps, st, more[0]);
      UnwelcomeForEver(c, steps + [more[0]], Apply(c, st, more[0]), more[1..], su);
    }
  }

  // ---------------------------------------------------------------------------
  // A buffer larger than the counter that takes it in
  // ---------------------------------------------------------------------------

  /** The queue at pl begins with a buffer that the counter of its reader can never hold. */
  ghost predicate Oversized(c: Config, st: State, pl: Place, p: Packet)
    requires ValidConfig(c)
  {
    && Lookup(st.net.at, pl) != [] && Lookup(st.net.at, pl)[0] == p && p.kind.Buffer?
    && Intake(c, pl).Some? && Size(p) > c.limit(Intake(c, pl).value)
  }

  lemma {:induction false} PutKeepsFirst(n: Net, pl: Place, p: Packet, x: Place)
    requires Lookup(n.at, x) != []
    ensures Lookup(Put(n, pl, p).at, x) != [] && Lookup(Put(n, pl, p).at, x)[0] == Lookup(n.at, x)[0]
  {
    EnqueueAt(n.at, pl, p, x);
  }

  lemma {:induction false} StepKeepsOversized(c: Config, steps: seq<Step>, st: State, a: Step, pl: Place, p: Packet)
    requires ValidConfig(c) && Run(c, Init(c), steps, st) && Enabled(c, st, a) && Oversized(c, st, pl, p)
    ensures Oversized(c, Apply(c, st, a), pl, p)
  {
    match a
    case DoHop(x) =>
      RoomMeansFit(c, steps, st, x);
      MoveAt(c.clusters, st.net, x, pl);
    case DoWrite(g, k, body) =>
      var ip := c.outs[g][k];
      PutKeepsFirst(st.net, Origin(c.clusters, c.rankOf[g], c.rankOf[ip.filter]), PacketTo(c, g, ip, Buffer(body)), pl);
    case DoRetire(g) =>
      var ip := c.outs[g][LifeOf(st, g).told];
      PutKeepsFirst(st.net, Origin(c.clusters, c.rankOf[g], c.rankOf[ip.filter]), PacketTo(c, g, ip, RemovePutter), pl);
    case DoAnnounce(r) =>
      var d := LoopOf(st, r).next;
      if IsRank(c.clusters, d) && d != r {
        PutKeepsFirst(st.net, DoneEntry(c, r, d), DonePacket(c, r, d), pl);
      }
    case _ =>
  }

  /** Such a buffer waits for ever, and everything behind it. */
  lemma {:induction false} OversizedForEver(c: Config, steps: seq<Step>, st: State, more: seq<Step>, su: State, pl: Place, p: Packet)
    requires ValidConfig(c) && Run(c, Init(c), steps, st) && Run(c, st, more, su) && Oversized(c, st, pl, p)
    ensures Oversized(c, su, pl, p) && !P.NothingWaits(su.net) && !P.Over(c, su)
    decreases |more|
  {
    if more != [] {
      StepKeepsOversized(c, steps, st, more[0], pl, p);
      RunThen(c, Init(c), steps, st, more[0]);
      OversizedForEver(c, steps + [more[0]], Apply(c, st, more[0]), more[1..], su, pl, p);
    }
  }

  // ---------------------------------------------------------------------------
  // The exact condition
  // ---------------------------------------------------------------------------

  /** A continuation, with or without writes, to the end with every buffer read. */
  ghost predicate ComesToTheEnd(c: Config, st: State, more: seq<Step>, end: State)
    requires ValidConfig(c)
  {
    Run(c, st, more, end) && P.Over(c, end) && Drained(end)
  }

  /** From a reachable state all can be delivered and read exactly if all buffers are welcome. */
  lemma {:induction false} EndsExactlyIfWelcome(c: Config, steps: seq<Step>, st: State)
    requires ValidConfig(c) && Run(c, Init(c), steps, st)
    ensures (exists more, end :: ComesToTheEnd(c, st, more, end) && CountWrites(more) == 0) <==> Welcome(c, st)
    ensures (exists more, end :: ComesToTheEnd(c, st, more, end)) <==> Welcome(c, st)
  {
    if Welcome(c, st) {
      var more, end := ReadersComeToTheEnd(c, steps, st);
      assert ComesToTheEnd(c, st, more, end) && CountWrites(more) == 0;
    } else {
      forall more, end
        ensures !ComesToTheEnd(c, st, more, end)
      {
        if ComesToTheEnd(c, st, more, end) {
          UnwelcomeForEver(c, steps, st, more, end);
        }
      }
    }
  }

  // ---------------------------------------------------------------------------
  // Every maximal run
  // ---------------------------------------------------------------------------

  /** Nothing is possible but that a filter writes. */
  ghost predicate AtRest(c: Config, st: State)
    requires ValidConfig(c)
  {
    forall a :: Enabled(c, st, a) ==> a.DoWrite?
  }

  /** A run that rests is over with every buffer read exactly if all buffers are welcome there. */
  lemma {:induction false} RestIsTheEnd(c: Config, steps: seq<Step>, st: State)
    requires ValidConfig(c) && Run(c, Init(c), steps, st) && AtRest(c, st)
    ensures P.Over(c, st) && Drained(st) <==> Welcome(c, st)
  {
    if Welcome(c, st) {
      if !Drained(st) {
        var a := WelcomeMoves(c, steps, st);
      }
      DrainedHasRoom(c, st);
      assert Run(c, st, [], st);
      P.NoDeadlock(c, steps, st);
      if !P.Over(c, st) {
        var a := Onward(c, st);
      }
    }
  }

  /** If it rests anywhere else than at the end, every filter has returned and every queue is blocked. */
  lemma {:induction false} RestIsBlocked(c: Config, steps: seq<Step>, st: State)
    requires ValidConfig(c) && Run(c, Init(c), steps, st) && AtRest(c, st) && !P.Over(c, st)
    ensures !P.SomeWork(c, st) && !P.NothingWaits(st.net)
    ensures forall pl :: Lookup(st.net.at, pl) != [] ==> Blocked(c, st, pl)
  {
    if P.CanProgress(c, st) || P.SomeWork(c, st) {
      var a := Onward(c, st);
    }
    OnlyReadersBlock(c, steps, st);
  }

  /** Nothing on its way to a filter, and nothing unread: it may as well return. */
  ghost predicate MayReturn(st: State, g: int) {
    && (forall pl, p :: p in Lookup(st.net.at, pl) && p.kind.Buffer? ==> p.toFilter != g)
    && (forall ip: InPort :: ip.filter == g ==> Lookup(st.store.inbox, ip) == [])
  }

  /** A packet on the route from o is on its way from o. */
  lemma {:induction false} OnTheWay(t: Clusters, n: Net, o: Place, pl: Place, p: Packet)
    requires Valid(t) && IsRank(t, p.dst) && Fits(t, o, p.dst) && Reaches(t, o, pl, p.dst) && p in Lookup(n.at, pl)
    ensures p in Pipe(t, n, o, p.src, p.dst)
    decreases 8 - Stage(o, p.dst)
  {
    NextFits(t, o, p.dst);
    PipeStep(t, n, o, p.src, p.dst);
    if o == pl {
      SelectMember(Lookup(n.at, pl), p.src, p.dst, p);
    } else {
      OnTheWay(t, n, Next(t, o, p.dst).place, pl, p);
    }
  }

  /** A filter that has seen the end of all its in-ports may return. */
  lemma {:induction false} UpstreamExitIsPatient(c: Config, steps: seq<Step>, st: State, g: int)
    requires ValidConfig(c) && Run(c, Init(c), steps, st)
    requires forall ip: InPort :: ip.filter == g ==> Putters(st.store, ip) == {} && Lookup(st.store.inbox, ip) == []
    ensures MayReturn(st, g)
  {
    T.InitInv(c);
    T.RunKeepsInv(c, Init(c), steps, st);
    U.InitFeedInv(c);
    U.RunKeepsFeedInv(c, Init(c), steps, st);
    forall pl, p | p in Lookup(st.net.at, pl) && p.kind.Buffer?
      ensures p.toFilter != g
    {
      if p.toFilter == g {
        NoPutterNoBuffer(c, st, pl, p);
      }
    }
  }

  lemma {:induction false} NoPutterNoBuffer(c: Config, st: State, pl: Place, p: Packet)
    requires ValidConfig(c) && T.Inv(c, st) && U.FeedInv(c, st) && p in Lookup(st.net.at, pl) && p.kind.Buffer?
    ensures p.fromFilter in Putters(st.store, InPort(p.toFilter, p.toPort))
  {
    var ip := InPort(p.toFilter, p.toPort);
    assert PlacedAt(c.clusters, pl, p) && U.Genuine(c, p);
    if p.fromFilter !in Putters(st.store, ip) {
      U.NothingUnderWay(c, st, p.fromFilter, ip);
      OnTheWay(c.clusters, st.net, Origin(c.clusters, p.src, p.dst), pl, p);
      assert U.IsBufferOf(p, p.fromFilter, ip);
    }
  }

  /** Filters do not write any more, and return only then. */
  ghost predicate Patient(c: Config, st: State, more: seq<Step>)
    requires ValidConfig(c)
    decreases |more|
  {
    more == [] ||
    (Enabled(c, st, more[0]) && !more[0].DoWrite? && (more[0].DoStop? ==> MayReturn(st, more[0].g))
     && Patient(c, Apply(c, st, more[0]), more[1..]))
  }

  lemma {:induction false} LifeKeepsWelcome(c: Config, st: State, su: State, g: int)
    requires ValidConfig(c) && Welcome(c, st) && MayReturn(st, g)
    requires su == st.(life := su.life) && forall x :: x != g ==> LifeOf(su, x) == LifeOf(st, x)
    ensures Welcome(c, su)
  {
    forall pl, p | p in Lookup(su.net.at, pl)
      ensures IsWelcome(c, su, pl, p)
    {
      assert IsWelcome(c, st, pl, p);
    }
  }

  /** No buffer is welcome at a filter that has returned. */
  lemma {:induction false} ReturnedIsClear(c: Config, st: State, g: int)
    requires ValidConfig(c) && Welcome(c, st) && LifeOf(st, g) != Working
    ensures MayReturn(st, g)
  {
    forall pl, p | p in Lookup(st.net.at, pl) && p.kind.Buffer?
      ensures p.toFilter != g
    {
      assert IsWelcome(c, st, pl, p);
    }
  }

  lemma {:induction false} RetireKeepsWelcome(c: Config, st: State, g: int)
    requires ValidConfig(c) && Welcome(c, st) && CanRetire(c, st, g)
    ensures Welcome(c, Retire(c, st, g))
  {
    var ip, su := c.outs[g][LifeOf(st, g).told], Retire(c, st, g);
    ReturnedIsClear(c, st, g);
    forall x, y | y in Lookup(su.net.at, x)
      ensures IsWelcome(c, su, x, y)
    {
      if !IsLocal(c, g, ip) {
        SentIsNoBuffer(st.net, Origin(c.clusters, c.rankOf[g], c.rankOf[ip.filter]), PacketTo(c, g, ip, RemovePutter), x, y);
      }
      assert y.kind.Buffer? ==> IsWelcome(c, st, x, y) && y.toFilter != g;
    }
  }

  lemma {:induction false} SameTrafficKeepsWelcome(c: Config, st: State, su: State)
    requires ValidConfig(c) && Welcome(c, st) && su.net == st.net && su.store == st.store && su.life == st.life
    ensures Welcome(c, su)
  {
    forall pl, p | p in Lookup(su.net.at, pl)
      ensures IsWelcome(c, su, pl, p)
    {
      assert IsWelcome(c, st, pl, p);
    }
  }

  lemma {:induction false} PatientStepKeepsWelcome(c: Config, st: State, a: Step)
    requires ValidConfig(c) && Welcome(c, st) && Enabled(c, st, a) && !a.DoWrite? && (a.DoStop? ==> MayReturn(st, a.g))
    ensures Welcome(c, Apply(c, st, a))
  {
    match a
    case DoStop(g) => LifeKeepsWelcome(c, st, Stop(st, g), g);
    case DoFinish(g) => ReturnedIsClear(c, st, g); LifeKeepsWelcome(c, st, Finish(st, g), g);
    case DoRetire(g) => RetireKeepsWelcome(c, st, g);
    case DoBegin(r) => SameTrafficKeepsWelcome(c, st, Begin(c, st, r));
    case DoLeave(r) => SameTrafficKeepsWelcome(c, st, Leave(st, r));
    case DoClose => SameTrafficKeepsWelcome(c, st, Close(st));
    case _ => StepKeepsWelcome(c, st, a);
  }

  lemma {:induction false} PatientKeepsWelcome(c: Config, st: State, more: seq<Step>, su: State)
    requires ValidConfig(c) && Welcome(c, st) && Run(c, st, more, su) && Patient(c, st, more)
    ensures Welcome(c, su) && CountWrites(more) == 0
    decreases |more|
  {
    if more != [] {
      PatientStepKeepsWelcome(c, st, more[0]);
      PatientKeepsWelcome(c, Apply(c, st, more[0]), more[1..], su);
    }
  }

  /**
    Every run of patient filters from a state whose buffers are welcome is bounded, and where it cannot
    go on it is at the end: all processes gone, all delivered in order and read, all counters at zero.
  */
  lemma {:induction false} PatientRunsEnd(c: Config, steps: seq<Step>, st: State, more: seq<Step>, su: State)
    requires ValidConfig(c) && Run(c, Init(c), steps, st) && Welcome(c, st)
    requires Run(c, st, more, su) && Patient(c, st, more)
    ensures |more| <= Work(c, st) && Welcome(c, su)
    ensures AtRest(c, su) ==> P.Over(c, su) && Drained(su) && forall a :: a != Unmetered ==> Usage(su.usage, a) == 0
  {
    PatientKeepsWelcome(c, st, more, su);
    RunWorks(c, Init(c), steps, st);
    RunWorks(c, st, more, su);
    WorkNonNegative(c, su);
    RunJoin(c, Init(c), steps, st, more, su, steps + more);
    if AtRest(c, su) {
      RestIsTheEnd(c, steps + more, su);
      forall a | a != Unmetered
        ensures Usage(su.usage, a) == 0
      {
        L.NothingLeaks(c, steps + more, su, a);
      }
    }
  }
}
