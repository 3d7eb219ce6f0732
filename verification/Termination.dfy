/**
  Distributed termination.  A process leaves its main loop on the strength of two counters and
  its own empty queues.  Whatever the interleaving, nothing it should still handle is left.
*/
module Termination {
  import opened Topology
  import opened RouteCount
  import opened Network
  import opened Upstream
  import opened Runtime

  /** s has sent d its "all my filters are done" message. */
  predicate AnnouncedTo(st: State, s: int, d: int) {
    match LoopOf(st, s)
    case Looping => false
    case Announcing(next) => d < next
    case Announced => true
    case Left => true
  }

  predicate NoDone(q: seq<Packet>) {
    forall i :: 0 <= i < |q| ==> !q[i].kind.FiltersDone?
  }

  predicate DoneLast(q: seq<Packet>) {
    |q| > 0 && q[|q| - 1].kind.FiltersDone? && forall i :: 0 <= i < |q| - 1 ==> !q[i].kind.FiltersDone?
  }

  /** Each pair carries at most one done message, and it is the last packet. */
  ghost predicate Discipline(c: Config, st: State)
    requires ValidConfig(c)
  {
    forall s, d :: Pair(c.clusters, s, d) ==>
      if AnnouncedTo(st, s, d) then DoneLast(Sent(st.net, s, d)) else NoDone(Sent(st.net, s, d))
  }

  predicate InRange(c: Config, st: State, s: int) {
    LoopOf(st, s).Announcing? ==>
      (if c.clusters.console then -1 else 0) <= LoopOf(st, s).next <= Processes(c.clusters)
  }

  /** A rank that has begun to announce has no filter left and nothing queued of its own. */
  ghost predicate Quiet(c: Config, st: State, s: int)
    requires ValidConfig(c)
  {
    LoopOf(st, s) != Looping ==>
      && IsRank(c.clusters, s)
      && (LoopOf(st, s) == Left ==> s >= 0)
      && FiltersFinished(c, st, s)
      && (s >= 0 ==> Lookup(st.net.at, OutQ(s)) == [])
      && InRange(c, st, s)
  }

  /** h has handled everything that s will ever send to d, and s's done message was the last. */
  predicate IsHandled(c: Config, st: State, h: int, s: int, d: int)
    requires Valid(c.clusters)
  {
    && Handles(c.clusters, h, s, d)
    && AnnouncedTo(st, s, d)
    && ToHandle(c.clusters, st.net, h, s, d) == []
  }

  /** The two counters count exactly the pairs that are completely handled. */
  ghost predicate Exact(c: Config, st: State, h: int)
    requires Valid(c.clusters)
  {
    && (forall s, d :: (s, d) in DoneFrom(st.tally, h) <==> d == h && IsHandled(c, st, h, s, d))
    && (forall s, d :: (s, d) in RoutedFor(st.tally, h) <==> d != h && IsHandled(c, st, h, s, d))
    && (h >= 0 ==> DoneReceived(st.tally, h) == |DoneFrom(st.tally, h)| && Routed(st.tally, h) == |RoutedFor(st.tally, h)|)
  }

  /** A process that has left had handled all traffic through it. */
  ghost predicate LeftClean(c: Config, st: State, h: int)
    requires Valid(c.clusters)
  {
    LoopOf(st, h) == Left ==>
      forall s, d :: Handles(c.clusters, h, s, d) ==> IsHandled(c, st, h, s, d)
  }

  ghost predicate Settled(c: Config, st: State, h: int)
    requires ValidConfig(c)
  {
    Quiet(c, st, h) && Exact(c, st, h) && LeftClean(c, st, h)
  }

  lemma {:induction false} InvAt(c: Config, st: State, h: int)
    requires ValidConfig(c) && Inv(c, st)
    ensures Quiet(c, st, h) && Exact(c, st, h) && LeftClean(c, st, h)
  {
    assert Settled(c, st, h);
  }

  ghost predicate Inv(c: Config, st: State)
    requires ValidConfig(c)
  {
    && Fifo(c.clusters, st.net)
    && Discipline(c, st)
    && (forall h :: Settled(c, st, h))
  }

  // ---------------------------------------------------------------------------
  // Facts about one state
  // ---------------------------------------------------------------------------

  lemma {:induction false} InitInv(c: Config)
    requires ValidConfig(c)
    ensures Inv(c, Init(c))
  {
    IdleFifo(c.clusters);
  }

  /** A live filter keeps its rank in the loop. */
  lemma {:induction false} LiveMeansLooping(c: Config, st: State, g: int)
    requires ValidConfig(c) && Inv(c, st) && g in c.rankOf && LifeOf(st, g) != Finished
    ensures LoopOf(st, c.rankOf[g]) == Looping
  {
    InvAt(c, st, c.rankOf[g]);
  }

  /** The last packet still to handle of an announced pair is the done message, the only one. */
  lemma {:induction false} StillToHandle(c: Config, st: State, h: int, s: int, d: int)
    requires ValidConfig(c) && Inv(c, st) && Pair(c.clusters, s, d)
    ensures var q := ToHandle(c.clusters, st.net, h, s, d);
            if AnnouncedTo(st, s, d) then q == [] || DoneLast(q) else NoDone(q)
  {
    assert PairFifo(c.clusters, st.net, s, d);
    var q, all := ToHandle(c.clusters, st.net, h, s, d), Sent(st.net, s, d);
    ToHandleIsSuffix(c.clusters, st.net, h, s, d);
    var k := |all| - |q|;
    forall i | 0 <= i < |q|
      ensures q[i] == all[k + i]
    {
    }
  }

  // ---------------------------------------------------------------------------
  // Steps that send
  // ---------------------------------------------------------------------------

  /** Two states agree on everything but the network and the parts the invariant does not read. */
  predicate SameLoops(st: State, su: State) {
    st.loop == su.loop && st.tally == su.tally
  }

  ghost predicate OthersSame(st: State, su: State, s0: int, d0: int) {
    forall s, d :: s != s0 || d != d0 ==> AnnouncedTo(st, s, d) == AnnouncedTo(su, s, d)
  }

  lemma {:induction false} SendKeepsExact(c: Config, st: State, su: State, pl: Place, p: Packet, h: int)
    requires ValidConfig(c) && Inv(c, st) && Addressed(c.clusters, p) && Enters(c.clusters, st.net, pl, p)
    requires Pair(c.clusters, p.src, p.dst)
    requires su.net == Put(st.net, pl, p)
    requires st.tally == su.tally
    requires !AnnouncedTo(st, p.src, p.dst)
    requires OthersSame(st, su, p.src, p.dst)
    ensures forall s, d :: IsHandled(c, su, h, s, d) == IsHandled(c, st, h, s, d)
    ensures Exact(c, su, h)
  {
    InvAt(c, st, h);
    forall s, d
      ensures IsHandled(c, su, h, s, d) == IsHandled(c, st, h, s, d)
    {
      if Handles(c.clusters, h, s, d) {
        if (s, d) == (p.src, p.dst) {
          PutToHandle(c.clusters, st.net, pl, p, h);
        } else {
          PutUptoOther(c.clusters, st.net, pl, p, Origin(c.clusters, s, d), h, s, d);
        }
      }
    }
  }

  lemma {:induction false} SendKeepsQuiet(c: Config, st: State, su: State, pl: Place, p: Packet, s: int)
    requires ValidConfig(c) && Quiet(c, st, s)
    requires su.net == Put(st.net, pl, p) && SameLoops(st, su)
    requires forall g :: LifeOf(st, g) == Finished ==> LifeOf(su, g) == Finished
    requires pl == OutQ(s) ==> LoopOf(st, s) == Looping
    ensures Quiet(c, su, s)
  {
  }

  /** A live filter sends a buffer or the notice that it retires. */
  lemma {:induction false} SendKeepsInv(c: Config, st: State, su: State, pl: Place, p: Packet)
    requires ValidConfig(c) && Inv(c, st) && Addressed(c.clusters, p)
    requires pl == Origin(c.clusters, p.src, p.dst) && !p.kind.FiltersDone?
    requires LoopOf(st, p.src) == Looping
    requires su.net == Put(st.net, pl, p) && SameLoops(st, su)
    requires forall g :: LifeOf(st, g) == Finished ==> LifeOf(su, g) == Finished
    ensures Inv(c, su)
  {
    assert Pair(c.clusters, p.src, p.dst);
    PutKeepsFifo(c.clusters, st.net, pl, p);
    SameLoopsSame(st, su, p.src, p.dst);
    SendKeepsDiscipline(c, st, su, pl, p);
    forall h
      ensures Settled(c, su, h)
    {
      SendKeepsSettled(c, st, su, pl, p, h);
    }
  }

  lemma {:induction false} SendKeepsSettled(c: Config, st: State, su: State, pl: Place, p: Packet, h: int)
    requires ValidConfig(c) && Inv(c, st) && Pair(c.clusters, p.src, p.dst) && Addressed(c.clusters, p)
    requires pl == Origin(c.clusters, p.src, p.dst) && LoopOf(st, p.src) == Looping
    requires su.net == Put(st.net, pl, p) && SameLoops(st, su)
    requires forall g :: LifeOf(st, g) == Finished ==> LifeOf(su, g) == Finished
    ensures Settled(c, su, h)
  {
    SendKeepsRest(c, st, su, pl, p, h);
    InvAt(c, st, h);
    SendKeepsQuiet(c, st, su, pl, p, h);
  }

  lemma {:induction false} SendKeepsRest(c: Config, st: State, su: State, pl: Place, p: Packet, h: int)
    requires ValidConfig(c) && Inv(c, st) && Pair(c.clusters, p.src, p.dst) && Addressed(c.clusters, p)
    requires pl == Origin(c.clusters, p.src, p.dst)
    requires LoopOf(st, p.src) == Looping
    requires su.net == Put(st.net, pl, p) && SameLoops(st, su)
    ensures Exact(c, su, h) && LeftClean(c, su, h)
  {
    SameLoopsSame(st, su, p.src, p.dst);
    SendKeepsExact(c, st, su, pl, p, h);
    InvAt(c, st, h);
    SendKeepsClean(c, st, su, h);
  }

  lemma {:induction false} SameLoopsSame(st: State, su: State, s0: int, d0: int)
    requires SameLoops(st, su)
    ensures OthersSame(st, su, s0, d0)
  {
  }

  lemma {:induction false} SendKeepsClean(c: Config, st: State, su: State, h: int)
    requires ValidConfig(c) && LeftClean(c, st, h)
    requires LoopOf(su, h) == Left ==> LoopOf(st, h) == Left
    requires forall s, d :: IsHandled(c, st, h, s, d) ==> IsHandled(c, su, h, s, d)
    ensures LeftClean(c, su, h)
  {
  }

  lemma {:induction false} SendKeepsDiscipline(c: Config, st: State, su: State, pl: Place, p: Packet)
    requires ValidConfig(c) && Discipline(c, st) && Pair(c.clusters, p.src, p.dst)
    requires su.net == Put(st.net, pl, p) && !AnnouncedTo(st, p.src, p.dst)
    requires AnnouncedTo(su, p.src, p.dst) <==> p.kind.FiltersDone?
    requires OthersSame(st, su, p.src, p.dst)
    ensures Discipline(c, su)
  {
    forall s, d | Pair(c.clusters, s, d)
      ensures if AnnouncedTo(su, s, d) then DoneLast(Sent(su.net, s, d)) else NoDone(Sent(su.net, s, d))
    {
      assert Sent(su.net, s, d) == Sent(st.net, s, d) + if (s, d) == (p.src, p.dst) then [p] else [];
    }
  }

  lemma {:induction false} AnnounceKeepsInv(c: Config, st: State, r: int)
    requires ValidConfig(c) && Inv(c, st) && CanAnnounce(c, st, r)
    ensures Inv(c, Announce(c, st, r))
  {
    InvAt(c, st, r);
    if IsRank(c.clusters, LoopOf(st, r).next) && LoopOf(st, r).next != r {
      AnnounceSends(c, st, r);
    } else {
      AnnounceSkips(c, st, r);
    }
  }

  lemma {:induction false} AnnounceSkips(c: Config, st: State, r: int)
    requires ValidConfig(c) && Inv(c, st) && CanAnnounce(c, st, r)
    requires !IsRank(c.clusters, LoopOf(st, r).next) || LoopOf(st, r).next == r
    ensures Inv(c, Announce(c, st, r))
  {
    var su := Announce(c, st, r);
    InvAt(c, st, r);
    assert InRange(c, st, r);
    SilentKeepsInv(c, st, su);
  }

  /** Steps that change neither the network nor who has announced to whom. */
  lemma {:induction false} SilentKeepsInv(c: Config, st: State, su: State)
    requires ValidConfig(c) && Inv(c, st) && su.net == st.net
    requires st.tally == su.tally
    requires forall g :: LifeOf(st, g) == Finished ==> LifeOf(su, g) == Finished
    requires forall s, d :: Pair(c.clusters, s, d) ==> AnnouncedTo(su, s, d) == AnnouncedTo(st, s, d)
    requires forall s :: LoopOf(su, s) == LoopOf(st, s) || (Quiet(c, su, s) && LoopOf(su, s) != Left)
    ensures Inv(c, su)
  {
    forall h
      ensures Settled(c, su, h)
    {
      InvAt(c, st, h);
      forall s, d
        ensures IsHandled(c, su, h, s, d) == IsHandled(c, st, h, s, d)
      {
      }
    }
  }

  /** r sends d its done message, and nobody else's announcements change. */
  predicate Sends(c: Config, st: State, su: State, r: int, d: int)
    requires ValidConfig(c) && Pair(c.clusters, r, d)
  {
    var p, pl := DonePacket(c, r, d), DoneEntry(c, r, d);
    && Addressed(c.clusters, p) && Enters(c.clusters, st.net, pl, p)
    && su.net == Put(st.net, pl, p) && su.tally == st.tally && su.life == st.life
    && su.loop == st.loop[r := Announcing(d + 1)] && LoopOf(st, r) == Announcing(d)
  }

  lemma {:induction false} AnnounceEffect(c: Config, st: State, r: int)
    requires ValidConfig(c) && Quiet(c, st, r) && CanAnnounce(c, st, r)
    requires IsRank(c.clusters, LoopOf(st, r).next) && LoopOf(st, r).next != r
    ensures Pair(c.clusters, r, LoopOf(st, r).next)
    ensures Sends(c, st, Announce(c, st, r), r, LoopOf(st, r).next)
  {
    OriginFits(c.clusters, r, LoopOf(st, r).next);
  }

  lemma {:induction false} AnnounceSends(c: Config, st: State, r: int)
    requires ValidConfig(c) && Inv(c, st) && CanAnnounce(c, st, r)
    requires IsRank(c.clusters, LoopOf(st, r).next) && LoopOf(st, r).next != r
    ensures Inv(c, Announce(c, st, r))
  {
    var d, su := LoopOf(st, r).next, Announce(c, st, r);
    InvAt(c, st, r);
    AnnounceEffect(c, st, r);
    PutKeepsFifo(c.clusters, st.net, DoneEntry(c, r, d), DonePacket(c, r, d));
    SendsKeepsDiscipline(c, st, su, r, d);
    forall h
      ensures Settled(c, su, h)
    {
      InvAt(c, st, h);
      AnnounceKeepsQuiet(c, st, r, h);
      SendsKeepsRest(c, st, su, r, d, h);
    }
  }

  lemma {:induction false} SendsKeepsDiscipline(c: Config, st: State, su: State, r: int, d: int)
    requires ValidConfig(c) && Discipline(c, st) && Pair(c.clusters, r, d) && Sends(c, st, su, r, d)
    ensures Discipline(c, su)
  {
    AnnounceOthers(st, su, r, d);
    SendKeepsDiscipline(c, st, su, DoneEntry(c, r, d), DonePacket(c, r, d));
  }

  lemma {:induction false} SendsKeepsRest(c: Config, st: State, su: State, r: int, d: int, h: int)
    requires ValidConfig(c) && Inv(c, st) && Pair(c.clusters, r, d) && Sends(c, st, su, r, d)
    ensures Exact(c, su, h) && LeftClean(c, su, h)
  {
    AnnounceOthers(st, su, r, d);
    SendKeepsExact(c, st, su, DoneEntry(c, r, d), DonePacket(c, r, d), h);
    InvAt(c, st, h);
    SendKeepsClean(c, st, su, h);
  }

  lemma {:induction false} AnnounceOthers(st: State, su: State, r: int, d: int)
    requires LoopOf(st, r) == Announcing(d) && su.loop == st.loop[r := Announcing(d + 1)]
    ensures OthersSame(st, su, r, d) && !AnnouncedTo(st, r, d) && AnnouncedTo(su, r, d)
  {
  }

  lemma {:induction false} AnnounceKeepsQuiet(c: Config, st: State, r: int, s: int)
    requires ValidConfig(c) && Quiet(c, st, s) && Quiet(c, st, r) && CanAnnounce(c, st, r)
    requires IsRank(c.clusters, LoopOf(st, r).next) && LoopOf(st, r).next != r
    ensures Quiet(c, Announce(c, st, r), s)
  {
    assert DoneEntry(c, r, LoopOf(st, r).next) != OutQ(s);
  }

  // ---------------------------------------------------------------------------
  // Hops
  // ---------------------------------------------------------------------------

  /** Which pairs become completely handled by a hop: the one whose done message is taken. */
  lemma {:induction false} HopHandled(c: Config, st: State, pl: Place, h: int, s: int, d: int)
    requires ValidConfig(c) && Inv(c, st) && CanHop(c, st, pl)
    ensures var p := Lookup(st.net.at, pl)[0];
            var takes := HandlerOf(c.clusters, pl) == Main(h) && (p.src, p.dst) == (s, d) && p.kind.FiltersDone?;
            && (IsHandled(c, Hop(c, st, pl), h, s, d) <==> IsHandled(c, st, h, s, d) || takes)
            && (takes ==> !IsHandled(c, st, h, s, d))
  {
    var t, p, su := c.clusters, Lookup(st.net.at, pl)[0], Hop(c, st, pl);
    assert PlacedAt(t, pl, p) && Pair(t, p.src, p.dst);
    if (p.src, p.dst) == (s, d) {
      if HandlerOf(t, pl) == Main(h) {
        HandlerVisited(t, Origin(t, s, d), pl, d);
      }
      if Handles(t, h, s, d) {
        MoveToHandle(t, st.net, pl, h);
        StillToHandle(c, st, h, s, d);
        if HandlerOf(t, pl) == Main(h) {
          TakeFirst(p, ToHandle(t, su.net, h, s, d), AnnouncedTo(st, s, d));
        }
      }
    } else if Handles(t, h, s, d) {
      MoveToHandleOther(t, st.net, pl, h, s, d);
    }
  }

  lemma {:induction false} TakeFirst(p: Packet, after: seq<Packet>, announced: bool)
    requires var q := [p] + after; if announced then DoneLast(q) else NoDone(q)
    ensures announced && after == [] <==> p.kind.FiltersDone?
  {
    var q := [p] + after;
    assert q[0] == p;
    if announced && after != [] {
      assert !q[0].kind.FiltersDone?;
    }
  }

  lemma {:induction false} HopKeepsExact(c: Config, st: State, pl: Place, h: int)
    requires ValidConfig(c) && Inv(c, st) && CanHop(c, st, pl)
    ensures Exact(c, Hop(c, st, pl), h)
  {
    forall s, d
      ensures (s, d) in DoneFrom(Hop(c, st, pl).tally, h) <==> d == h && IsHandled(c, Hop(c, st, pl), h, s, d)
      ensures (s, d) in RoutedFor(Hop(c, st, pl).tally, h) <==> d != h && IsHandled(c, Hop(c, st, pl), h, s, d)
    {
      HopKeepsMembers(c, st, pl, h, s, d);
    }
    if h >= 0 {
      HopKeepsCounts(c, st, pl, h);
    }
  }

  lemma {:induction false} HopKeepsMembers(c: Config, st: State, pl: Place, h: int, s: int, d: int)
    requires ValidConfig(c) && Inv(c, st) && CanHop(c, st, pl)
    ensures var su := Hop(c, st, pl);
            && ((s, d) in DoneFrom(su.tally, h) <==> d == h && IsHandled(c, su, h, s, d))
            && ((s, d) in RoutedFor(su.tally, h) <==> d != h && IsHandled(c, su, h, s, d))
  {
    InvAt(c, st, h);
    NextFits(c.clusters, pl, Lookup(st.net.at, pl)[0].dst);
    HandlerIsNotSender(c, st, pl);
    HopHandled(c, st, pl, h, s, d);
  }

  lemma {:induction false} HopKeepsCounts(c: Config, st: State, pl: Place, h: int)
    requires ValidConfig(c) && Inv(c, st) && CanHop(c, st, pl) && h >= 0
    ensures var su := Hop(c, st, pl);
            DoneReceived(su.tally, h) == |DoneFrom(su.tally, h)| && Routed(su.tally, h) == |RoutedFor(su.tally, h)|
  {
    var p := Lookup(st.net.at, pl)[0];
    InvAt(c, st, h);
    NextFits(c.clusters, pl, p.dst);
    HopHandled(c, st, pl, h, p.src, p.dst);
    TallyCounts(c, st.tally, pl, p, h);
  }

  /** A hop adds a pair to the history exactly when it increments the counter. */
  lemma {:induction false} TallyCounts(c: Config, y: Tally, pl: Place, p: Packet, h: int)
    requires Valid(c.clusters) && IsRank(c.clusters, p.dst) && Fits(c.clusters, pl, p.dst) && h >= 0
    requires Next(c.clusters, pl, p.dst).Deliver? <==> HandlerOf(c.clusters, pl) == Main(p.dst)
    requires DoneReceived(y, h) == |DoneFrom(y, h)| && Routed(y, h) == |RoutedFor(y, h)|
    requires HandlerOf(c.clusters, pl) == Main(h) && p.kind.FiltersDone? ==>
               (p.src, p.dst) !in DoneFrom(y, h) && (p.src, p.dst) !in RoutedFor(y, h)
    ensures var z := HopTally(c, y, pl, p);
            DoneReceived(z, h) == |DoneFrom(z, h)| && Routed(z, h) == |RoutedFor(z, h)|
  {
  }

  lemma {:induction false} HandlerIsNotSender(c: Config, st: State, pl: Place)
    requires ValidConfig(c) && Fifo(c.clusters, st.net) && CanHop(c, st, pl)
    ensures HandlerOf(c.clusters, pl) != Main(Lookup(st.net.at, pl)[0].src)
  {
    var t, p := c.clusters, Lookup(st.net.at, pl)[0];
    assert PlacedAt(t, pl, p);
    if HandlerOf(t, pl).Main? {
      HandlerVisited(t, Origin(t, p.src, p.dst), pl, p.dst);
      RoutingTotality(t, p.src, p.dst);
    }
  }

  /** Nothing is queued for sending where nothing was and no filter is left. */
  lemma {:induction false} HopKeepsQuiet(c: Config, st: State, pl: Place, s: int)
    requires ValidConfig(c) && Inv(c, st) && CanHop(c, st, pl)
    ensures Quiet(c, Hop(c, st, pl), s)
  {
    InvAt(c, st, s);
    if s >= 0 && IsProcess(c.clusters, s) {
      NextFits(c.clusters, pl, Lookup(st.net.at, pl)[0].dst);
      MoveAt(c.clusters, st.net, pl, OutQ(s));
    }
  }

  lemma {:induction false} HopKeepsInv(c: Config, st: State, pl: Place)
    requires ValidConfig(c) && Inv(c, st) && CanHop(c, st, pl)
    ensures Inv(c, Hop(c, st, pl))
  {
    var t, su := c.clusters, Hop(c, st, pl);
    MoveKeepsFifo(t, st.net, pl);
    forall h
      ensures Settled(c, su, h)
    {
      HopKeepsExact(c, st, pl, h);
      HopKeepsQuiet(c, st, pl, h);
      InvAt(c, st, h);
      forall s, d | Handles(t, h, s, d) && IsHandled(c, st, h, s, d)
        ensures IsHandled(c, su, h, s, d)
      {
        HopHandled(c, st, pl, h, s, d);
      }
    }
    MoveSent(t, st.net, pl);
  }

  lemma {:induction false} MoveSent(t: Clusters, n: Net, pl: Place)
    requires Valid(t) && Movable(t, n, pl)
    ensures Move(t, n, pl).sent == n.sent
  {
  }

  // ---------------------------------------------------------------------------
  // Leaving
  // ---------------------------------------------------------------------------

  ghost function Senders(t: Clusters, r: int): set<(int, int)>
    requires Valid(t)
  {
    Pairs(Ranks(t) - {r}, {r})
  }

  lemma {:induction false} SendersSize(t: Clusters, r: int)
    requires Valid(t) && IsProcess(t, r)
    ensures |Senders(t, r)| == TotalRanks(t) - 1
  {
    RanksSize(t);
    PairsSize(Ranks(t) - {r}, {r});
    assert |Ranks(t) - {r}| == |Ranks(t)| - 1;
  }

  lemma {:induction false} DoneInside(c: Config, st: State, r: int)
    requires ValidConfig(c) && Exact(c, st, r)
    ensures DoneFrom(st.tally, r) <= Senders(c.clusters, r)
  {
    forall x | x in DoneFrom(st.tally, r)
      ensures x in Senders(c.clusters, r)
    {
      assert IsHandled(c, st, r, x.0, x.1);
    }
  }

  lemma {:induction false} RoutedInside(c: Config, st: State, r: int)
    requires ValidConfig(c) && Exact(c, st, r)
    ensures RoutedFor(st.tally, r) <= RelayedPairs(c.clusters, r)
  {
    forall x | x in RoutedFor(st.tally, r)
      ensures x in RelayedPairs(c.clusters, r)
    {
      assert IsHandled(c, st, r, x.0, x.1);
      VisitsAreRelays(c.clusters, x.0, x.1);
    }
  }

  lemma {:induction false} HandledPairsInside(t: Clusters, r: int, s: int, d: int)
    requires Valid(t) && Handles(t, r, s, d)
    ensures if d == r then (s, d) in Senders(t, r) else (s, d) in RelayedPairs(t, r)
  {
    VisitsAreRelays(t, s, d);
  }

  /** With both counters full, every pair through the process is completely handled. */
  lemma {:induction false} FullCounters(c: Config, st: State, r: int)
    requires ValidConfig(c) && Inv(c, st) && IsProcess(c.clusters, r)
    requires DoneReceived(st.tally, r) == TotalRanks(c.clusters) - 1
    requires Routed(st.tally, r) == MessagesToRoute(c.clusters, r)
    ensures forall s, d :: Handles(c.clusters, r, s, d) ==> IsHandled(c, st, r, s, d)
  {
    var t := c.clusters;
    InvAt(c, st, r);
    SendersSize(t, r);
    MessagesToRouteExact(t, r);
    DoneInside(c, st, r);
    RoutedInside(c, st, r);
    SameSize(DoneFrom(st.tally, r), Senders(t, r));
    SameSize(RoutedFor(st.tally, r), RelayedPairs(t, r));
    forall s, d | Handles(t, r, s, d)
      ensures IsHandled(c, st, r, s, d)
    {
      HandledPairsInside(t, r, s, d);
    }
  }

  lemma {:induction false} LeaveKeepsInv(c: Config, st: State, r: int)
    requires ValidConfig(c) && Inv(c, st) && CanLeave(c, st, r)
    ensures Inv(c, Leave(st, r))
  {
    var su := Leave(st, r);
    FullCounters(c, st, r);
    InvAt(c, st, r);
    forall s, d
      ensures AnnouncedTo(su, s, d) == AnnouncedTo(st, s, d)
    {
    }
    forall h
      ensures Settled(c, su, h)
    {
      InvAt(c, st, h);
      forall s, d
        ensures IsHandled(c, su, h, s, d) == IsHandled(c, st, h, s, d)
      {
      }
    }
  }

  // ---------------------------------------------------------------------------
  // Every step, every run
  // ---------------------------------------------------------------------------

  lemma {:induction false} FilterStepKeepsInv(c: Config, st: State, a: Step)
    requires ValidConfig(c) && Inv(c, st) && Enabled(c, st, a)
    requires a.DoWrite? || a.DoRetire?
    ensures Inv(c, Apply(c, st, a))
  {
    var g, k := a.g, if a.DoWrite? then a.k else LifeOf(st, a.g).told;
    var ip, su := c.outs[g][k], Apply(c, st, a);
    LiveMeansLooping(c, st, g);
    if IsLocal(c, g, ip) {
      SilentKeepsInv(c, st, su);
    } else {
      var p := PacketTo(c, g, ip, if a.DoWrite? then Buffer(a.body) else RemovePutter);
      SendKeepsInv(c, st, su, Origin(c.clusters, p.src, p.dst), p);
    }
  }

  lemma {:induction false} BeginKeepsInv(c: Config, st: State, r: int)
    requires ValidConfig(c) && Inv(c, st) && CanBegin(c, st, r)
    ensures Inv(c, Begin(c, st, r))
  {
    var su := Begin(c, st, r);
    forall s, d | Pair(c.clusters, s, d)
      ensures AnnouncedTo(su, s, d) == AnnouncedTo(st, s, d)
    {
    }
    SilentKeepsInv(c, st, su);
  }

  lemma {:induction false} StepKeepsInv(c: Config, st: State, a: Step)
    requires ValidConfig(c) && Inv(c, st) && Enabled(c, st, a)
    ensures Inv(c, Apply(c, st, a))
  {
    match a
    case DoWrite(g, k, body) => FilterStepKeepsInv(c, st, a);
    case DoRetire(g) => FilterStepKeepsInv(c, st, a);
    case DoStop(g) => SilentKeepsInv(c, st, Stop(st, g));
    case DoFinish(g) => SilentKeepsInv(c, st, Finish(st, g));
    case DoRead(ip) => SilentKeepsInv(c, st, Read(c, st, ip));
    case DoBegin(r) => BeginKeepsInv(c, st, r);
    case DoAnnounce(r) => AnnounceKeepsInv(c, st, r);
    case DoLeave(r) => LeaveKeepsInv(c, st, r);
    case DoClose => SilentKeepsInv(c, st, Close(st));
    case DoHop(pl) => HopKeepsInv(c, st, pl);
  }

  lemma {:induction false} RunKeepsInv(c: Config, from: State, steps: seq<Step>, to: State)
    requires ValidConfig(c) && Inv(c, from) && Run(c, from, steps, to)
    ensures Inv(c, to)
    decreases |steps|
  {
    if steps != [] {
      StepKeepsInv(c, from, steps[0]);
      RunKeepsInv(c, Apply(c, from, steps[0]), steps[1..], to);
    }
  }

  /**
    In every run, a process that has left its main loop has handled every packet that any rank
    sent or will send through it: each sender has announced, nothing is still to be handled by
    the process, and what was addressed to the process itself has been delivered in order.
  */
  lemma {:induction false} LeavingIsSafe(c: Config, steps: seq<Step>, st: State, h: int, s: int, d: int)
    requires ValidConfig(c) && Run(c, Init(c), steps, st)
    requires LoopOf(st, h) == Left && Handles(c.clusters, h, s, d)
    ensures AnnouncedTo(st, s, d)
    ensures ToHandle(c.clusters, st.net, h, s, d) == []
    ensures d == h ==> Got(st.net, s, d) == Sent(st.net, s, d)
  {
    InitInv(c);
    RunKeepsInv(c, Init(c), steps, st);
    InvAt(c, st, h);
    assert PairFifo(c.clusters, st.net, s, d);
    DestinationHandlesAll(c.clusters, st.net, Origin(c.clusters, s, d), s, d);
  }

  lemma {:induction false} AnnouncedIsFinal(c: Config, st: State, a: Step, s: int, d: int)
    requires ValidConfig(c) && Inv(c, st) && Enabled(c, st, a)
    requires Pair(c.clusters, s, d) && AnnouncedTo(st, s, d)
    ensures AnnouncedTo(Apply(c, st, a), s, d)
    ensures Sent(Apply(c, st, a).net, s, d) == Sent(st.net, s, d)
  {
    match a
    case DoWrite(g, k, body) => LiveMeansLooping(c, st, g);
    case DoRetire(g) => LiveMeansLooping(c, st, g);
    case DoAnnounce(r) => InvAt(c, st, r); AnnounceIsFinal(c, st, r, s, d);
    case DoHop(pl) => MoveSent(c.clusters, st.net, pl);
    case _ =>
  }

  lemma {:induction false} AnnounceIsFinal(c: Config, st: State, r: int, s: int, d: int)
    requires ValidConfig(c) && CanAnnounce(c, st, r) && Quiet(c, st, r)
    requires Pair(c.clusters, s, d) && AnnouncedTo(st, s, d)
    ensures AnnouncedTo(Announce(c, st, r), s, d)
    ensures Sent(Announce(c, st, r).net, s, d) == Sent(st.net, s, d)
  {
  }

  lemma {:induction false} AnnouncedStays(c: Config, from: State, steps: seq<Step>, to: State, s: int, d: int)
    requires ValidConfig(c) && Inv(c, from) && Run(c, from, steps, to)
    requires Pair(c.clusters, s, d) && AnnouncedTo(from, s, d)
    ensures Sent(to.net, s, d) == Sent(from.net, s, d)
    decreases |steps|
  {
    if steps != [] {
      StepKeepsInv(c, from, steps[0]);
      AnnouncedIsFinal(c, from, steps[0], s, d);
      AnnouncedStays(c, Apply(c, from, steps[0]), steps[1..], to, s, d);
    }
  }

  lemma {:induction false} LeftStays(c: Config, from: State, steps: seq<Step>, to: State, h: int)
    requires ValidConfig(c) && Run(c, from, steps, to) && LoopOf(from, h) == Left
    ensures LoopOf(to, h) == Left
    decreases |steps|
  {
    if steps != [] {
      LeftStays(c, Apply(c, from, steps[0]), steps[1..], to, h);
    }
  }

  /** However the run goes on, nothing more ever comes to a process that has left. */
  lemma {:induction false} NothingArrivesAfterLeaving(c: Config, steps: seq<Step>, st: State, more: seq<Step>, su: State,
                                   h: int, s: int, d: int)
    requires ValidConfig(c) && Run(c, Init(c), steps, st) && Run(c, st, more, su)
    requires LoopOf(st, h) == Left && Handles(c.clusters, h, s, d)
    ensures Sent(su.net, s, d) == Sent(st.net, s, d)
    ensures ToHandle(c.clusters, su.net, h, s, d) == []
  {
    InitInv(c);
    RunKeepsInv(c, Init(c), steps, st);
    LeavingIsSafe(c, steps, st, h, s, d);
    AnnouncedStays(c, st, more, su, s, d);
    LeftStays(c, st, more, su, h);
    RunKeepsInv(c, st, more, su);
    InvAt(c, su, h);
  }
}
