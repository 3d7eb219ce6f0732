/**
  Progress under memory pressure.  A buffer that finds no room waits for filters to read, and for
  nothing else; so if the filters that buffers are meant for read them, every run that stops writing
  comes to its end with every buffer read and every counter back at zero.
*/
module Draining {
  import opened Common
  import opened Topology
  import opened Sums
  import opened Network
  import opened Runtime
  import opened Bounded
  import L = Ledger
  import P = Progress
  import T = Termination
  import U = Putters

  // ---------------------------------------------------------------------------
  // What a buffer without room waits for
  // ---------------------------------------------------------------------------

  /** Too little room even after everything but the unread buffers of this process's filters is gone. */
  ghost predicate Blocked(c: Config, st: State, pl: Place)
    requires ValidConfig(c)
  {
    var q, a := Lookup(st.net.at, pl), Intake(c, pl);
    q != [] && q[0].kind.Buffer? && a.Some? && L.Unread(st.store, a.value) + Size(q[0]) > c.limit(a.value)
  }

  /** Where buffers are charged on arrival, those still waiting are not charged yet. */
  lemma {:induction false} IntakeHoldsNothing(c: Config, pl: Place, q: seq<Packet>, a: Account)
    requires Valid(c.clusters) && Intake(c, pl).Some?
    ensures L.QueueBytes(c, pl, q, a) == 0
  {
    if q != [] {
      IntakeHoldsNothing(c, pl, q[1..], a);
    }
  }

  lemma {:induction false} OnlyUnreadCharged(c: Config, n: Net, a: Account)
    requires Valid(c.clusters)
    requires forall pl :: Lookup(n.at, pl) != [] ==> Intake(c, pl).Some?
    ensures L.Queued(c, n, a) == 0
  {
    forall pl
      ensures L.PlaceBytes(c, n, a)(pl) == 0
    {
      if Lookup(n.at, pl) != [] {
        IntakeHoldsNothing(c, pl, Lookup(n.at, pl), a);
      }
    }
    TotalNonNegative(n.at.Keys, L.PlaceBytes(c, n, a));
  }

  /** If anything waits, something moves, unless all that waits is blocked by unread buffers. */
  lemma {:induction false} MovesOrBlocked(c: Config, steps: seq<Step>, st: State, pl: Place) returns (a: Option<Step>)
    requires ValidConfig(c) && Run(c, Init(c), steps, st) && Lookup(st.net.at, pl) != []
    ensures a.Some? ==> Enabled(c, st, a.value) && (a.value.DoHop? || a.value.DoAnnounce?)
    ensures a.None? ==> Blocked(c, st, pl)
  {
    T.InitInv(c);
    T.RunKeepsInv(c, Init(c), steps, st);
    if x :| Lookup(st.net.at, x) != [] && HasRoom(c, st, x) {
      var s := P.WaitingMoves(c, st, x);
      a := Some(s);
    } else {
      a := None;
      OnlyUnreadCharged(c, st.net, Intake(c, pl).value);
      L.LedgerConservation(c, steps, st, Intake(c, pl).value);
    }
  }

  /**
    In every reachable state, whatever the thresholds, the runtime can go on by itself, or it rests for
    one of three reasons: nothing waits and it is for a filter to go on; or something waits, and every
    waiting queue begins with a buffer that does not fit beside the buffers which the filters of the
    next process have not read; or all is over, and then, by `OverIsFinal`, no step is possible at all.
  */
  lemma {:induction false} OnlyReadersBlock(c: Config, steps: seq<Step>, st: State)
    requires ValidConfig(c) && Run(c, Init(c), steps, st)
    ensures P.CanProgress(c, st)
         || (P.NothingWaits(st.net) && P.SomeWork(c, st))
         || (!P.NothingWaits(st.net) && forall pl :: Lookup(st.net.at, pl) != [] ==> Blocked(c, st, pl))
         || P.Over(c, st)
  {
    if !P.CanProgress(c, st) {
      if P.NothingWaits(st.net) {
        P.IdleOrOver(c, steps, st);
      } else {
        forall pl | Lookup(st.net.at, pl) != []
          ensures Blocked(c, st, pl)
        {
          var a := MovesOrBlocked(c, steps, st, pl);
          assert a.Some? ==> P.IsRuntimeStep(a.value);
        }
      }
    }
  }

  // ---------------------------------------------------------------------------
  // Reading until nothing is left
  // ---------------------------------------------------------------------------

  /** The packet fits into every counter that takes it in from here on. */
  ghost predicate FitsAhead(c: Config, pl: Place, p: Packet)
    requires ValidConfig(c)
  {
    IsRank(c.clusters, p.dst) && Fits(c.clusters, pl, p.dst) ==>
      forall x :: Reaches(c.clusters, pl, x, p.dst) && Intake(c, x).Some? ==> Size(p) <= c.limit(Intake(c, x).value)
  }

  /** A buffer on its way is meant for a filter that still works, and fits everywhere it has still to go. */
  ghost predicate IsWelcome(c: Config, st: State, pl: Place, p: Packet)
    requires ValidConfig(c)
  {
    p.kind.Buffer? ==> LifeOf(st, p.toFilter) == Working && FitsAhead(c, pl, p)
  }

  /** So are all buffers on their way, and unread buffers have a filter that still works. */
  ghost predicate Welcome(c: Config, st: State)
    requires ValidConfig(c)
  {
    && (forall pl, p :: p in Lookup(st.net.at, pl) ==> IsWelcome(c, st, pl, p))
    && (forall ip: InPort :: Lookup(st.store.inbox, ip) != [] ==> LifeOf(st, ip.filter) == Working)
  }

  /** No buffer anywhere. */
  ghost predicate Drained(st: State) {
    && (forall pl, p :: p in Lookup(st.net.at, pl) ==> !p.kind.Buffer?)
    && (forall ip :: Lookup(st.store.inbox, ip) == [])
  }

  predicate Draining(a: Step) {
    a.DoRead? || a.DoHop? || a.DoAnnounce?
  }

  lemma {:induction false} FitsFurther(c: Config, pl: Place, p: Packet)
    requires ValidConfig(c) && IsRank(c.clusters, p.dst) && Fits(c.clusters, pl, p.dst) && FitsAhead(c, pl, p)
    ensures var next := Next(c.clusters, pl, p.dst); next.Forward? ==> FitsAhead(c, next.place, p)
  {
    NextFits(c.clusters, pl, p.dst);
    var next := Next(c.clusters, pl, p.dst);
    if next.Forward? {
      forall x | Reaches(c.clusters, next.place, x, p.dst)
        ensures Reaches(c.clusters, pl, x, p.dst)
      {
      }
    }
  }

  lemma {:induction false} HopKeepsWelcome(c: Config, st: State, pl: Place)
    requires ValidConfig(c) && Welcome(c, st) && CanHop(c, st, pl)
    ensures Welcome(c, Hop(c, st, pl))
  {
    var su, pkt := Hop(c, st, pl), Lookup(st.net.at, pl)[0];
    assert IsWelcome(c, st, pl, pkt) by {
      assert pkt in Lookup(st.net.at, pl);
    }
    forall x, p | p in Lookup(su.net.at, x)
      ensures IsWelcome(c, su, x, p)
    {
      MoveAt(c.clusters, st.net, pl, x);
      if p in Lookup(st.net.at, x) {
        assert IsWelcome(c, st, x, p);
      } else if p.kind.Buffer? {
        FitsFurther(c, pl, pkt);
      }
    }
    forall ip: InPort | Lookup(su.store.inbox, ip) != []
      ensures LifeOf(su, ip.filter) == Working
    {
      DeliveredAt(st.store, pkt, ip);
    }
  }

  lemma {:induction false} AnnounceKeepsWelcome(c: Config, st: State, r: int)
    requires ValidConfig(c) && Welcome(c, st) && CanAnnounce(c, st, r)
    ensures Welcome(c, Announce(c, st, r))
  {
    var su := Announce(c, st, r);
    forall x, p | p in Lookup(su.net.at, x)
      ensures IsWelcome(c, su, x, p)
    {
      AnnouncedAt(c, st, r, x, p);
      assert p.kind.Buffer? ==> IsWelcome(c, st, x, p);
    }
  }

  lemma {:induction false} AnnouncedAt(c: Config, st: State, r: int, x: Place, p: Packet)
    requires ValidConfig(c) && CanAnnounce(c, st, r) && p in Lookup(Announce(c, st, r).net.at, x)
    ensures !p.kind.Buffer? || p in Lookup(st.net.at, x)
  {
    var d := LoopOf(st, r).next;
    if IsRank(c.clusters, d) && d != r {
      EnqueueAt(st.net.at, DoneEntry(c, r, d), DonePacket(c, r, d), x);
    }
  }

  lemma {:induction false} ReadKeepsWelcome(c: Config, st: State, ip: InPort)
    requires ValidConfig(c) && Welcome(c, st) && CanRead(c, st, ip)
    ensures Welcome(c, Read(c, st, ip))
  {
    var su := Read(c, st, ip);
    forall x, p | p in Lookup(su.net.at, x)
      ensures IsWelcome(c, su, x, p)
    {
      assert IsWelcome(c, st, x, p);
    }
  }

  lemma {:induction false} StepKeepsWelcome(c: Config, st: State, a: Step)
    requires ValidConfig(c) && Welcome(c, st) && Enabled(c, st, a) && Draining(a)
    ensures Welcome(c, Apply(c, st, a))
  {
    match a
    case DoHop(pl) => HopKeepsWelcome(c, st, pl);
    case DoAnnounce(r) => AnnounceKeepsWelcome(c, st, r);
    case DoRead(ip) => ReadKeepsWelcome(c, st, ip);
  }

  lemma {:induction false} NotBlocked(c: Config, st: State, pl: Place)
    requires ValidConfig(c) && T.Inv(c, st) && Welcome(c, st)
    requires forall ip :: Lookup(st.store.inbox, ip) == []
    ensures !Blocked(c, st, pl)
  {
    if Blocked(c, st, pl) {
      var p, a := Lookup(st.net.at, pl)[0], Intake(c, pl).value;
      assert PlacedAt(c.clusters, pl, p) && IsWelcome(c, st, pl, p);
      ReachesForward(c.clusters, Origin(c.clusters, p.src, p.dst), pl, p.dst);
      assert Reaches(c.clusters, pl, pl, p.dst);
      TotalNonNegative(st.store.inbox.Keys, L.PortBytes(st.store, a));
    }
  }

  /** As long as there is a buffer, one can be read or passed on. */
  lemma {:induction false} WelcomeMoves(c: Config, steps: seq<Step>, st: State) returns (a: Step)
    requires ValidConfig(c) && Run(c, Init(c), steps, st) && Welcome(c, st) && !Drained(st)
    ensures Enabled(c, st, a) && Draining(a)
  {
    T.InitInv(c);
    T.RunKeepsInv(c, Init(c), steps, st);
    if ip: InPort :| Lookup(st.store.inbox, ip) != [] {
      U.InitFeedInv(c);
      U.RunKeepsFeedInv(c, Init(c), steps, st);
      UnreadIsRead(c, st, ip);
      a := DoRead(ip);
    } else {
      var pl, p :| p in Lookup(st.net.at, pl) && p.kind.Buffer?;
      var s := MovesOrBlocked(c, steps, st, pl);
      NotBlocked(c, st, pl);
      a := s.value;
    }
  }

  lemma {:induction false} UnreadIsRead(c: Config, st: State, ip: InPort)
    requires ValidConfig(c) && U.FeedInv(c, st) && Welcome(c, st) && Lookup(st.store.inbox, ip) != []
    ensures CanRead(c, st, ip)
  {
    assert U.QueueOk(c, st, ip);
    assert U.Feeds(c, Lookup(st.store.arrived, ip)[0].from, ip);
  }

  /** Reading and passing on, as long as there is a buffer. */
  lemma {:induction false} Drain(c: Config, steps: seq<Step>, st: State) returns (more: seq<Step>, mid: State)
    requires ValidConfig(c) && Run(c, Init(c), steps, st) && Welcome(c, st)
    ensures Run(c, st, more, mid) && CountWrites(more) == 0 && Drained(mid)
    decreases Work(c, st)
  {
    if Drained(st) {
      more, mid := [], st;
    } else {
      var a := WelcomeMoves(c, steps, st);
      var su := Apply(c, st, a);
      StepKeepsWelcome(c, st, a);
      LessWork(c, steps, st, a);
      RunThen(c, Init(c), steps, st, a);
      var rest;
      rest, mid := Drain(c, steps + [a], su);
      StepFirst(c, st, a, rest, mid);
      OneMore(c, st, a);
      CountsJoin([a], rest);
      more := [a] + rest;
    }
  }

  lemma {:induction false} LessWork(c: Config, steps: seq<Step>, st: State, a: Step)
    requires ValidConfig(c) && Run(c, Init(c), steps, st) && Enabled(c, st, a) && Draining(a)
    ensures 0 <= Work(c, Apply(c, st, a)) < Work(c, st)
  {
    RunWorks(c, Init(c), steps, st);
    StepWorks(c, st, a);
    StepInRange(c, st, a);
    WorkNonNegative(c, Apply(c, st, a));
  }

  // ---------------------------------------------------------------------------
  // To the end
  // ---------------------------------------------------------------------------

  lemma {:induction false} SentIsNoBuffer(n: Net, pl: Place, p: Packet, x: Place, y: Packet)
    requires !p.kind.Buffer? && y in Lookup(Put(n, pl, p).at, x)
    ensures y.kind.Buffer? ==> y in Lookup(n.at, x)
  {
    EnqueueAt(n.at, pl, p, x);
  }

  lemma {:induction false} RetireKeepsDrained(c: Config, st: State, g: int)
    requires ValidConfig(c) && Drained(st) && CanRetire(c, st, g)
    ensures Drained(Retire(c, st, g))
  {
    var ip := c.outs[g][LifeOf(st, g).told];
    var p := PacketTo(c, g, ip, RemovePutter);
    forall x, y | y in Lookup(Retire(c, st, g).net.at, x)
      ensures !y.kind.Buffer?
    {
      if !IsLocal(c, g, ip) {
        SentIsNoBuffer(st.net, Origin(c.clusters, c.rankOf[g], c.rankOf[ip.filter]), p, x, y);
      }
    }
  }

  lemma {:induction false} HopKeepsDrained(c: Config, st: State, pl: Place)
    requires ValidConfig(c) && Drained(st) && CanHop(c, st, pl)
    ensures Drained(Hop(c, st, pl))
  {
    var su, pkt := Hop(c, st, pl), Lookup(st.net.at, pl)[0];
    assert pkt in Lookup(st.net.at, pl);
    forall x, y | y in Lookup(su.net.at, x)
      ensures !y.kind.Buffer?
    {
      MoveAt(c.clusters, st.net, pl, x);
      assert y == pkt || y in Lookup(st.net.at, x);
    }
    forall ip
      ensures Lookup(su.store.inbox, ip) == []
    {
      DeliveredAt(st.store, pkt, ip);
    }
  }

  lemma {:induction false} StepKeepsDrained(c: Config, st: State, a: Step)
    requires ValidConfig(c) && Drained(st) && Enabled(c, st, a) && !a.DoWrite?
    ensures Drained(Apply(c, st, a))
  {
    match a
    case DoRetire(g) => RetireKeepsDrained(c, st, g);
    case DoHop(pl) => HopKeepsDrained(c, st, pl);
    case DoAnnounce(r) =>
      forall x, y | y in Lookup(Announce(c, st, r).net.at, x)
        ensures !y.kind.Buffer?
      {
        AnnouncedAt(c, st, r, x, y);
      }
    case _ =>
  }

  lemma {:induction false} RunKeepsDrained(c: Config, from: State, steps: seq<Step>, to: State)
    requires ValidConfig(c) && Drained(from) && Run(c, from, steps, to) && CountWrites(steps) == 0
    ensures Drained(to)
    decreases |steps|
  {
    if steps != [] {
      StepKeepsDrained(c, from, steps[0]);
      RunKeepsDrained(c, Apply(c, from, steps[0]), steps[1..], to);
    }
  }

  lemma {:induction false} DrainedHasRoom(c: Config, st: State)
    requires ValidConfig(c) && Drained(st)
    ensures RoomAhead(c, st)
  {
    forall more, to | Run(c, st, more, to) && CountWrites(more) == 0
      ensures P.RoomEverywhere(c, to)
    {
      RunKeepsDrained(c, st, more, to);
      forall pl | Lookup(to.net.at, pl) != []
        ensures HasRoom(c, to, pl)
      {
        assert Lookup(to.net.at, pl)[0] in Lookup(to.net.at, pl);
      }
    }
  }

  lemma {:induction false} Regroup<T>(s: seq<T>, t: seq<T>, whole: seq<T>)
    requires whole == s + t
    ensures if t == [] then whole == s else whole == s + [t[0]] + t[1..]
  {
  }

  lemma {:induction false} RunJoin(c: Config, from: State, steps: seq<Step>, mid: State, more: seq<Step>, to: State,
                                   whole: seq<Step>)
    requires ValidConfig(c) && Run(c, from, steps, mid) && Run(c, mid, more, to) && whole == steps + more
    ensures Run(c, from, whole, to)
    decreases |more|
  {
    Regroup(steps, more, whole);
    if more != [] {
      RunThen(c, from, steps, mid, more[0]);
      RunJoin(c, from, steps + [more[0]], Apply(c, mid, more[0]), more[1..], to, whole);
    }
  }

  /** From a state whose buffers are welcome the filters can read, and then return, so that all is over. */
  lemma {:induction false} ReadersComeToTheEnd(c: Config, steps: seq<Step>, st: State) returns (more: seq<Step>, end: State)
    requires ValidConfig(c) && Run(c, Init(c), steps, st) && Welcome(c, st)
    ensures Run(c, st, more, end) && CountWrites(more) == 0 && P.Over(c, end) && Drained(end)
    ensures forall a :: a != Unmetered ==> Usage(end.usage, a) == 0
  {
    var first, mid := Drain(c, steps, st);
    RunJoin(c, Init(c), steps, st, first, mid, steps + first);
    DrainedHasRoom(c, mid);
    var last;
    last, end := RunsCanEnd(c, steps + first, mid);
    RunKeepsDrained(c, mid, last, end);
    more := first + last;
    RunJoin(c, st, first, mid, last, end, more);
    CountsJoin(first, last);
    RunJoin(c, Init(c), steps + first, mid, last, end, steps + first + last);
    forall a | a != Unmetered
      ensures Usage(end.usage, a) == 0
    {
      L.NothingLeaks(c, steps + first + last, end, a);
    }
  }
}
