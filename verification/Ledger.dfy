/**
  The memory ledger.  A buffer is charged when it is written or taken in and released when it
  leaves the process, at places chosen separately for every kind of route.  In every run each
  counter equals the bytes of the live buffers charged to it, so it never leaves its range.
*/
module Ledger {
  import opened Common
  import opened Topology
  import opened Sums
  import opened Network
  import opened Runtime
  import P = Putters
  import T = Termination

  // ---------------------------------------------------------------------------
  // What is charged to an account
  // ---------------------------------------------------------------------------

  /** The account a buffer waiting at `pl` is charged to. */
  function ChargedTo(c: Config, pl: Place, p: Packet): Option<Account>
    requires Valid(c.clusters)
  {
    match pl
    case OutQ(r) => Some(FilterUse(r, p.fromFilter))
    case ProxyQ(k) =>
      if k >= |c.clusters.sizes| then None
      else if p.src == Head(c.clusters, k) then Some(FilterUse(p.src, p.fromFilter))
      else Some(RuntimeUse(Head(c.clusters, k)))
    case ConsoleQ => Some(if p.src == 0 then FilterUse(0, p.fromFilter) else RuntimeUse(0))
    case ConsoleOut => Some(ConsoleUse)
    case FromConsoleQ => Some(RuntimeUse(0))
    case _ => None
  }

  function Share(o: Option<Account>, a: Account, n: int): int {
    if o == Some(a) then n else 0
  }

  function QueueBytes(c: Config, pl: Place, q: seq<Packet>, a: Account): int
    requires Valid(c.clusters)
  {
    if q == [] then 0
    else Share(ChargedTo(c, pl, q[0]), a, Size(q[0])) + QueueBytes(c, pl, q[1..], a)
  }

  function InboxBytes(q: seq<Arrival>, a: Account): int {
    if q == [] then 0
    else (if q[0].account == a then |q[0].body| else 0) + InboxBytes(q[1..], a)
  }

  ghost function PlaceBytes(c: Config, n: Net, a: Account): Place -> int
    requires Valid(c.clusters)
  {
    pl => QueueBytes(c, pl, Lookup(n.at, pl), a)
  }

  ghost function PortBytes(s: Store, a: Account): InPort -> int {
    ip => InboxBytes(Lookup(s.inbox, ip), a)
  }

  /** Bytes of live buffers charged to a: in the runtime's queues, and in the in-port queues. */
  ghost function Queued(c: Config, n: Net, a: Account): int
    requires Valid(c.clusters)
  {
    Total(n.at.Keys, PlaceBytes(c, n, a))
  }

  ghost function Unread(s: Store, a: Account): int {
    Total(s.inbox.Keys, PortBytes(s, a))
  }

  ghost predicate Balanced(c: Config, st: State, a: Account)
    requires Valid(c.clusters)
  {
    a != Unmetered ==>
      && Usage(st.usage, a) == Queued(c, st.net, a) + Unread(st.store, a)
      && Usage(st.usage, a) <= c.limit(a)
  }

  ghost predicate LedgerInv(c: Config, st: State)
    requires Valid(c.clusters)
  {
    forall a :: Balanced(c, st, a)
  }

  // ---------------------------------------------------------------------------
  // How the sums change
  // ---------------------------------------------------------------------------

  lemma {:induction false} QueueBytesAppend(c: Config, pl: Place, q: seq<Packet>, p: Packet, a: Account)
    requires Valid(c.clusters)
    ensures QueueBytes(c, pl, q + [p], a) == QueueBytes(c, pl, q, a) + Share(ChargedTo(c, pl, p), a, Size(p))
  {
    if q != [] {
      assert (q + [p])[1..] == q[1..] + [p];
      QueueBytesAppend(c, pl, q[1..], p, a);
    }
  }

  lemma {:induction false} InboxBytesAppend(q: seq<Arrival>, x: Arrival, a: Account)
    ensures InboxBytes(q + [x], a) == InboxBytes(q, a) + if x.account == a then |x.body| else 0
  {
    if q != [] {
      assert (q + [x])[1..] == q[1..] + [x];
      InboxBytesAppend(q[1..], x, a);
    }
  }

  lemma {:induction false} EnqueueBytes(c: Config, n: Net, m: Net, pl: Place, p: Packet, a: Account)
    requires Valid(c.clusters) && m.at == Enqueue(n.at, pl, p)
    ensures Queued(c, m, a) == Queued(c, n, a) + Share(ChargedTo(c, pl, p), a, Size(p))
  {
    QueueBytesAppend(c, pl, Lookup(n.at, pl), p, a);
    assert m.at.Keys == n.at.Keys + {pl};
    TotalPoint(n.at.Keys, PlaceBytes(c, n, a), pl, PlaceBytes(c, m, a));
  }

  lemma {:induction false} DequeueBytes(c: Config, n: Net, m: Net, pl: Place, a: Account)
    requires Valid(c.clusters) && Lookup(n.at, pl) != []
    requires m.at == n.at[pl := Lookup(n.at, pl)[1..]]
    ensures var p := Lookup(n.at, pl)[0];
            Queued(c, m, a) == Queued(c, n, a) - Share(ChargedTo(c, pl, p), a, Size(p))
  {
    assert m.at.Keys == n.at.Keys + {pl};
    TotalPoint(n.at.Keys, PlaceBytes(c, n, a), pl, PlaceBytes(c, m, a));
  }

  lemma {:induction false} ArriveBytes(s: Store, s': Store, ip: InPort, x: Arrival, a: Account)
    requires s'.inbox == Enqueue(s.inbox, ip, x)
    ensures Unread(s', a) == Unread(s, a) + if x.account == a then |x.body| else 0
  {
    InboxBytesAppend(Lookup(s.inbox, ip), x, a);
    assert s'.inbox.Keys == s.inbox.Keys + {ip};
    TotalPoint(s.inbox.Keys, PortBytes(s, a), ip, PortBytes(s', a));
  }

  lemma {:induction false} TakeBytes(s: Store, s': Store, ip: InPort, a: Account)
    requires Lookup(s.inbox, ip) != [] && s'.inbox == s.inbox[ip := Lookup(s.inbox, ip)[1..]]
    ensures var x := Lookup(s.inbox, ip)[0];
            Unread(s', a) == Unread(s, a) - if x.account == a then |x.body| else 0
  {
    assert s'.inbox.Keys == s.inbox.Keys + {ip};
    TotalPoint(s.inbox.Keys, PortBytes(s, a), ip, PortBytes(s', a));
  }

  lemma {:induction false} StoreFrame(s: Store, s': Store, a: Account)
    requires s'.inbox == s.inbox
    ensures Unread(s', a) == Unread(s, a)
  {
    TotalSame(s.inbox.Keys, PortBytes(s, a), PortBytes(s', a));
  }

  lemma {:induction false} NetFrame(c: Config, n: Net, m: Net, a: Account)
    requires Valid(c.clusters) && m.at == n.at
    ensures Queued(c, m, a) == Queued(c, n, a)
  {
    TotalSame(n.at.Keys, PlaceBytes(c, n, a), PlaceBytes(c, m, a));
  }

  lemma {:induction false} MoveBytes(c: Config, n: Net, pl: Place, a: Account)
    requires Valid(c.clusters) && Movable(c.clusters, n, pl)
    ensures var p := Lookup(n.at, pl)[0];
            var next := Next(c.clusters, pl, p.dst);
            Queued(c, Move(c.clusters, n, pl), a)
            == Queued(c, n, a) - Share(ChargedTo(c, pl, p), a, Size(p))
             + if next.Forward? then Share(ChargedTo(c, next.place, p), a, Size(p)) else 0
  {
    var q := Lookup(n.at, pl);
    var mid := n.(at := n.at[pl := q[1..]]);
    DequeueBytes(c, n, mid, pl, a);
    match Next(c.clusters, pl, q[0].dst)
    case Forward(to) => EnqueueBytes(c, mid, Move(c.clusters, n, pl), to, q[0], a);
    case Deliver => NetFrame(c, mid, Move(c.clusters, n, pl), a);
  }

  // ---------------------------------------------------------------------------
  // Where packets come from
  // ---------------------------------------------------------------------------

  /** What the place of a packet tells about its sender. */
  predicate Consistent(t: Clusters, pl: Place, p: Packet)
    requires Valid(t) && Addressed(t, p)
  {
    match pl
    case OutQ(r) => p.src == r
    case Link(x, b) => p.src != b && (p.dst != b ==> p.srcCluster == ClusterOfProcess(t, b))
    case ProxyQ(k) => k == p.srcCluster
    case Wire(k) => k == p.srcCluster
    case ProxyIn(k) => k != p.srcCluster
    case ConsoleOut => p.src == -1
    case FromSock => p.src == -1
    case FromConsoleQ => p.src == -1
    case _ => true
  }

  function ClusterOfProcess(t: Clusters, r: int): int
    requires Valid(t)
  {
    if IsProcess(t, r) then ClusterOf(t, r) else -1
  }

  lemma {:induction false} NextConsistent(t: Clusters, pl: Place, p: Packet)
    requires Valid(t) && Addressed(t, p) && Fits(t, pl, p.dst) && Consistent(t, pl, p)
    requires Next(t, pl, p.dst).Forward?
    ensures Consistent(t, Next(t, pl, p.dst).place, p)
  {
    NextFits(t, pl, p.dst);
    HeadIsProcess(t, 0);
    match pl
    case OutQ(r) => HeadIsProcess(t, ClusterOf(t, r));
    case ProxyIn(k) => HeadIsProcess(t, k);
    case _ =>
  }

  lemma {:induction false} ReachedConsistent(t: Clusters, o: Place, pl: Place, p: Packet)
    requires Valid(t) && Addressed(t, p) && Fits(t, o, p.dst) && Consistent(t, o, p)
    requires Reaches(t, o, pl, p.dst)
    ensures Consistent(t, pl, p)
    decreases 8 - Stage(o, p.dst)
  {
    if o != pl {
      NextFits(t, o, p.dst);
      NextConsistent(t, o, p);
      ReachedConsistent(t, Next(t, o, p.dst).place, pl, p);
    }
  }

  lemma {:induction false} PlacedConsistent(t: Clusters, pl: Place, p: Packet)
    requires Valid(t) && PlacedAt(t, pl, p)
    ensures Consistent(t, pl, p) && Fits(t, pl, p.dst)
  {
    var o := Origin(t, p.src, p.dst);
    assert Consistent(t, o, p);
    ReachedConsistent(t, o, pl, p);
    ReachesForward(t, o, pl, p.dst);
  }

  /** The account that holds a buffer from the moment the reader of `pl` has it. */
  function Holder(c: Config, pl: Place, p: Packet): Option<Account>
    requires Valid(c.clusters)
  {
    if Intake(c, pl).Some? then Intake(c, pl) else ChargedTo(c, pl, p)
  }

  /**
    The release choice is right on every route: what is released when a buffer is written out is
    exactly what held it, and what is not released stays charged where it was.
  */
  lemma {:induction false} ReleaseMatches(c: Config, pl: Place, p: Packet)
    requires ValidConfig(c) && PlacedAt(c.clusters, pl, p) && P.Genuine(c, p) && p.kind.Buffer?
    ensures Fits(c.clusters, pl, p.dst)
    ensures Intake(c, pl).Some? ==> ChargedTo(c, pl, p).None?
    ensures match Next(c.clusters, pl, p.dst)
            case Forward(to) =>
              if Release(c, to, p).Some?
              then Release(c, to, p) == Holder(c, pl, p) && ChargedTo(c, to, p).None?
              else ChargedTo(c, to, p) == Holder(c, pl, p)
            case Deliver =>
              if p.dst == -1 then Holder(c, pl, p).None? else Holder(c, pl, p) == Some(RuntimeUse(p.dst))
  {
    var t := c.clusters;
    PlacedConsistent(t, pl, p);
    NextFits(t, pl, p.dst);
    HeadIsProcess(t, 0);
    HeadIsProcess(t, p.srcCluster);
    HeadIsProcess(t, p.dstCluster);
    match pl
    case Link(x, b) => HeadIsProcess(t, ClusterOf(t, b));
    case OutQ(r) =>
    case _ =>
  }

  // ---------------------------------------------------------------------------
  // Steps
  // ---------------------------------------------------------------------------

  lemma {:induction false} InitLedger(c: Config)
    requires ValidConfig(c)
    ensures LedgerInv(c, Init(c))
  {
  }

  /** An empty-bodied packet does not touch the ledger. */
  lemma {:induction false} NoticeBytes(c: Config, n: Net, pl: Place, p: Packet, a: Account)
    requires Valid(c.clusters) && !p.kind.Buffer?
    ensures Queued(c, Put(n, pl, p), a) == Queued(c, n, a)
  {
    EnqueueBytes(c, n, Put(n, pl, p), pl, p, a);
  }

  lemma {:induction false} OriginCharge(c: Config, g: int, ip: InPort, kind: Kind)
    requires ValidConfig(c) && g in c.rankOf && ip.filter in c.rankOf && !IsLocal(c, g, ip)
    ensures var p := PacketTo(c, g, ip, kind);
            ChargedTo(c, Origin(c.clusters, p.src, p.dst), p) == Some(WriterAccount(c, g))
  {
    HeadIsProcess(c.clusters, ClusterOf(c.clusters, c.rankOf[g]));
  }

  /** The written bytes join the queues or the in-port. */
  lemma {:induction false} WriteBytes(c: Config, st: State, g: int, k: nat, body: Bytes, a: Account)
    requires ValidConfig(c) && CanWrite(c, st, g, k, body)
    ensures var su := Write(c, st, g, k, body);
            Queued(c, su.net, a) + Unread(su.store, a)
            == Queued(c, st.net, a) + Unread(st.store, a) + Share(Some(WriterAccount(c, g)), a, |body|)
  {
    var ip, su := c.outs[g][k], Write(c, st, g, k, body);
    if IsLocal(c, g, ip) {
      ArriveBytes(st.store, su.store, ip, Arrival(g, body, WriterAccount(c, g)), a);
      NetFrame(c, st.net, su.net, a);
    } else {
      var p := PacketTo(c, g, ip, Buffer(body));
      OriginCharge(c, g, ip, Buffer(body));
      EnqueueBytes(c, st.net, su.net, Origin(c.clusters, p.src, p.dst), p, a);
      StoreFrame(st.store, su.store, a);
    }
  }

  lemma {:induction false} WriteBalanced(c: Config, st: State, g: int, k: nat, body: Bytes, a: Account)
    requires ValidConfig(c) && Balanced(c, st, a) && CanWrite(c, st, g, k, body)
    ensures Balanced(c, Write(c, st, g, k, body), a)
  {
    WriteBytes(c, st, g, k, body, a);
  }

  lemma {:induction false} RetireBalanced(c: Config, st: State, g: int, a: Account)
    requires ValidConfig(c) && Balanced(c, st, a) && CanRetire(c, st, g)
    ensures Balanced(c, Retire(c, st, g), a)
  {
    var ip, su := c.outs[g][LifeOf(st, g).told], Retire(c, st, g);
    var p := PacketTo(c, g, ip, RemovePutter);
    StoreFrame(st.store, su.store, a);
    NoticeBytes(c, st.net, Origin(c.clusters, p.src, p.dst), p, a);
  }

  lemma {:induction false} ReadBalanced(c: Config, st: State, ip: InPort, a: Account)
    requires ValidConfig(c) && Balanced(c, st, a) && CanRead(c, st, ip)
    ensures Balanced(c, Read(c, st, ip), a)
  {
    TakeBytes(st.store, Read(c, st, ip).store, ip, a);
  }

  lemma {:induction false} AnnounceBalanced(c: Config, st: State, r: int, a: Account)
    requires ValidConfig(c) && Balanced(c, st, a) && CanAnnounce(c, st, r)
    ensures Balanced(c, Announce(c, st, r), a)
  {
    var d := LoopOf(st, r).next;
    if IsRank(c.clusters, d) && d != r {
      NoticeBytes(c, st.net, DoneEntry(c, r, d), DonePacket(c, r, d), a);
    }
  }

  lemma {:induction false} HopUnread(s: Store, p: Packet, a: Account)
    requires a != Unmetered
    ensures Unread(DeliverIn(s, p), a)
         == Unread(s, a) + if p.kind.Buffer? && p.dst != -1 then Share(Some(RuntimeUse(p.dst)), a, Size(p)) else 0
  {
    var su := DeliverIn(s, p);
    if p.kind.Buffer? {
      ArriveBytes(s, su, InPort(p.toFilter, p.toPort), P.ArrivalOf(p), a);
    } else {
      StoreFrame(s, su, a);
    }
  }

  /** What a hop adds to one counter. */
  lemma {:induction false} HopCharge(c: Config, st: State, pl: Place, a: Account)
    requires Valid(c.clusters) && CanHop(c, st, pl)
    ensures var p := Lookup(st.net.at, pl)[0];
            var next, z := Next(c.clusters, pl, p.dst), Size(p);
            && Usage(HopUsage(c, st.usage, pl, p), a)
            == Usage(st.usage, a) + Share(Intake(c, pl), a, z)
             - (if next.Forward? then Share(Release(c, next.place, p), a, z) else 0)
            && (p.kind.Buffer? && Intake(c, pl) == Some(a) ==> Usage(st.usage, a) + z <= c.limit(a))
  {
  }

  /** What a hop charges and releases is what it moves between the queues. */
  lemma {:induction false} HopShares(c: Config, pl: Place, p: Packet, a: Account)
    requires ValidConfig(c) && PlacedAt(c.clusters, pl, p) && P.Genuine(c, p) && a != Unmetered
    ensures Fits(c.clusters, pl, p.dst)
    ensures var next, z := Next(c.clusters, pl, p.dst), Size(p);
            Share(Intake(c, pl), a, z) - (if next.Forward? then Share(Release(c, next.place, p), a, z) else 0)
            == (if next.Forward? then Share(ChargedTo(c, next.place, p), a, z)
                else if p.kind.Buffer? && p.dst != -1 then Share(Some(RuntimeUse(p.dst)), a, z) else 0)
             - Share(ChargedTo(c, pl, p), a, z)
  {
    if p.kind.Buffer? {
      ReleaseMatches(c, pl, p);
    } else {
      PlacedConsistent(c.clusters, pl, p);
    }
  }

  lemma {:induction false} FirstShares(c: Config, st: State, pl: Place, p: Packet, a: Account)
    requires ValidConfig(c) && CanHop(c, st, pl) && p == Lookup(st.net.at, pl)[0] && a != Unmetered
    requires PlacedAt(c.clusters, pl, p) && P.Genuine(c, p)
    ensures var next, z := Next(c.clusters, pl, p.dst), Size(p);
            Share(Intake(c, pl), a, z) - (if next.Forward? then Share(Release(c, next.place, p), a, z) else 0)
            == (if next.Forward? then Share(ChargedTo(c, next.place, p), a, z)
                else if p.kind.Buffer? && p.dst != -1 then Share(Some(RuntimeUse(p.dst)), a, z) else 0)
             - Share(ChargedTo(c, pl, p), a, z)
  {
    HopShares(c, pl, p, a);
  }

  lemma {:induction false} HopBalanced(c: Config, st: State, pl: Place, a: Account)
    requires ValidConfig(c) && Balanced(c, st, a) && CanHop(c, st, pl)
    requires var p := Lookup(st.net.at, pl)[0]; PlacedAt(c.clusters, pl, p) && P.Genuine(c, p)
    ensures Balanced(c, Hop(c, st, pl), a)
  {
    var p, su := Lookup(st.net.at, pl)[0], Hop(c, st, pl);
    if a != Unmetered {
      MoveBytes(c, st.net, pl, a);
      HopCharge(c, st, pl, a);
      HopUnread(st.store, p, a);
      FirstShares(c, st, pl, p, a);
    }
  }

  lemma {:induction false} StepKeepsLedger(c: Config, st: State, a: Step)
    requires ValidConfig(c) && LedgerInv(c, st) && Enabled(c, st, a)
    requires T.Inv(c, st) && P.FeedInv(c, st)
    ensures LedgerInv(c, Apply(c, st, a))
  {
    forall x
      ensures Balanced(c, Apply(c, st, a), x)
    {
      assert Balanced(c, st, x);
      match a
      case DoWrite(g, k, body) => WriteBalanced(c, st, g, k, body, x);
      case DoRetire(g) => RetireBalanced(c, st, g, x);
      case DoRead(ip) => ReadBalanced(c, st, ip, x);
      case DoAnnounce(r) => AnnounceBalanced(c, st, r, x);
      case DoHop(pl) =>
        assert P.Genuine(c, Lookup(st.net.at, pl)[0]) && PlacedAt(c.clusters, pl, Lookup(st.net.at, pl)[0]);
        HopBalanced(c, st, pl, x);
      case _ =>
    }
  }

  lemma {:induction false} RunKeepsLedger(c: Config, from: State, steps: seq<Step>, to: State)
    requires ValidConfig(c) && LedgerInv(c, from) && T.Inv(c, from) && P.FeedInv(c, from)
    requires Run(c, from, steps, to)
    ensures LedgerInv(c, to)
    decreases |steps|
  {
    if steps != [] {
      StepKeepsLedger(c, from, steps[0]);
      T.StepKeepsInv(c, from, steps[0]);
      P.StepKeepsFeedInv(c, from, steps[0]);
      RunKeepsLedger(c, Apply(c, from, steps[0]), steps[1..], to);
    }
  }

  lemma {:induction false} QueueBytesNonNegative(c: Config, pl: Place, q: seq<Packet>, a: Account)
    requires Valid(c.clusters)
    ensures QueueBytes(c, pl, q, a) >= 0
  {
    if q != [] {
      QueueBytesNonNegative(c, pl, q[1..], a);
    }
  }

  lemma {:induction false} InboxBytesNonNegative(q: seq<Arrival>, a: Account)
    ensures InboxBytes(q, a) >= 0
  {
    if q != [] {
      InboxBytesNonNegative(q[1..], a);
    }
  }

  lemma {:induction false} SumsNonNegative(c: Config, st: State, a: Account)
    requires Valid(c.clusters)
    ensures Queued(c, st.net, a) >= 0 && Unread(st.store, a) >= 0
    ensures (forall pl :: Lookup(st.net.at, pl) == []) ==> Queued(c, st.net, a) == 0
    ensures (forall ip :: Lookup(st.store.inbox, ip) == []) ==> Unread(st.store, a) == 0
  {
    forall pl
      ensures PlaceBytes(c, st.net, a)(pl) >= 0
    {
      QueueBytesNonNegative(c, pl, Lookup(st.net.at, pl), a);
    }
    forall ip
      ensures PortBytes(st.store, a)(ip) >= 0
    {
      InboxBytesNonNegative(Lookup(st.store.inbox, ip), a);
    }
    TotalNonNegative(st.net.at.Keys, PlaceBytes(c, st.net, a));
    TotalNonNegative(st.store.inbox.Keys, PortBytes(st.store, a));
  }

  /**
    In every run, each counter is exactly the bytes of the live buffers charged to it and stays
    between zero and its threshold, so the assertion in `reduce` holds at every release.
  */
  lemma {:induction false} LedgerConservation(c: Config, steps: seq<Step>, st: State, a: Account)
    requires ValidConfig(c) && Run(c, Init(c), steps, st) && a != Unmetered
    ensures Usage(st.usage, a) == Queued(c, st.net, a) + Unread(st.store, a)
    ensures 0 <= Usage(st.usage, a) <= c.limit(a)
  {
    InitLedger(c);
    T.InitInv(c);
    P.InitFeedInv(c);
    RunKeepsLedger(c, Init(c), steps, st);
    assert Balanced(c, st, a);
    SumsNonNegative(c, st, a);
  }

  /** Once every packet is delivered and every buffer read, every counter is back at zero. */
  lemma {:induction false} NothingLeaks(c: Config, steps: seq<Step>, st: State, a: Account)
    requires ValidConfig(c) && Run(c, Init(c), steps, st) && a != Unmetered
    requires forall pl :: Lookup(st.net.at, pl) == []
    requires forall ip :: Lookup(st.store.inbox, ip) == []
    ensures Usage(st.usage, a) == 0
  {
    LedgerConservation(c, steps, st, a);
    SumsNonNegative(c, st, a);
  }

  lemma {:induction false} NonNegativeAfter(c: Config, steps: seq<Step>, st: State, a: Step, x: Account)
    requires ValidConfig(c) && Run(c, Init(c), steps, st) && Enabled(c, st, a) && x != Unmetered
    ensures Usage(Apply(c, st, a).usage, x) >= 0
  {
    RunThen(c, Init(c), steps, st, a);
    LedgerConservation(c, steps + [a], Apply(c, st, a), x);
  }

  /** The assertion in `reduce` holds when a filter reads. */
  lemma {:induction false} ReadIsCovered(c: Config, steps: seq<Step>, st: State, ip: InPort)
    requires ValidConfig(c) && Run(c, Init(c), steps, st) && CanRead(c, st, ip)
    ensures var x := Lookup(st.store.inbox, ip)[0];
            x.account != Unmetered ==> |x.body| <= Usage(st.usage, x.account)
  {
    var x := Lookup(st.store.inbox, ip)[0];
    if x.account != Unmetered {
      NonNegativeAfter(c, steps, st, DoRead(ip), x.account);
    }
  }

  /** The assertion in `reduce` holds when a packet is passed on. */
  lemma {:induction false} ReleaseIsCovered(c: Config, steps: seq<Step>, st: State, pl: Place)
    requires ValidConfig(c) && Run(c, Init(c), steps, st) && CanHop(c, st, pl)
    ensures var p := Lookup(st.net.at, pl)[0];
            var next := Next(c.clusters, pl, p.dst);
            p.kind.Buffer? && next.Forward? && Release(c, next.place, p).Some? ==>
              Size(p) <= Usage(ChargeTo(st.usage, Intake(c, pl), Size(p)), Release(c, next.place, p).value)
  {
    var p := Lookup(st.net.at, pl)[0];
    var next := Next(c.clusters, pl, p.dst);
    if p.kind.Buffer? && next.Forward? && Release(c, next.place, p).Some? {
      NonNegativeAfter(c, steps, st, DoHop(pl), Release(c, next.place, p).value);
    }
  }
}
