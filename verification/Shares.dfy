/**
  The thresholds of the counters.  Each process divides its memory among its filters and itself, so a
  buffer that its writer may write can be too large for a process on its way, which then never takes it in.
*/
module Shares {
  import opened Common
  import opened Topology
  import opened Network
  import opened Runtime
  import opened Bounded
  import opened Draining
  import opened Endings
  import P = Progress
  import L = Ledger

  const MB := 1024 * 1024

  function Share(memory: nat, entities: nat): (n: nat)
    requires entities > 0
    ensures n >= 32 * MB
  {
    if memory / entities > 32 * MB then memory / entities else 32 * MB
  }

  function FiltersOn(c: Config, r: int): set<int> {
    set g | g in c.rankOf && c.rankOf[g] == r
  }

  /** The filters of a process and the process itself, and two more beside a console filter. */
  function Entities(c: Config, r: int): (n: nat)
    ensures n > 0
  {
    |FiltersOn(c, r)| + 1 + if r == 0 && c.clusters.console then 2 else 0
  }

  /** All counters of a process have its share as their threshold. */
  ghost predicate Shared(c: Config, memory: int -> nat) {
    && c.limit(ConsoleUse) == 64 * MB
    && forall r :: IsProcess(c.clusters, r) ==>
         && c.limit(RuntimeUse(r)) == Share(memory(r), Entities(c, r))
         && forall g :: g in FiltersOn(c, r) ==> c.limit(FilterUse(r, g)) == Share(memory(r), Entities(c, r))
  }

  // ---------------------------------------------------------------------------
  // Two hosts with the same memory
  // ---------------------------------------------------------------------------

  function Memory(r: int): nat { 256 * MB }

  function Limit(a: Account): nat {
    match a
    case FilterUse(r, g) => if r == 0 then 128 * MB else 64 * MB
    case RuntimeUse(r) => if r == 0 then 128 * MB else 64 * MB
    case _ => 64 * MB
  }

  /** One filter on the first host writes to one of three on the second. */
  const Uneven := Config(Clusters([2], false), map[0 := 0, 1 := 1, 2 := 1, 3 := 1],
                         map[0 := [InPort(1, "in")], 1 := [], 2 := [], 3 := []], Limit)

  function Large(): Bytes { seq(100 * MB, _ => 0) }

  lemma {:induction false} UnevenClusters()
    ensures var t := Uneven.clusters;
            && Valid(t) && Processes(t) == 2
            && IsProcess(t, 0) && IsProcess(t, 1) && ClusterOf(t, 0) == 0 && ClusterOf(t, 1) == 0 && Head(t, 0) == 0
            && forall r :: IsProcess(t, r) ==> r == 0 || r == 1
  {
    var t := Uneven.clusters;
    assert Offset(t.sizes, 0) == 0 && Offset(t.sizes, 1) == 2;
    ClusterUnique(t, 0, 0);
    ClusterUnique(t, 1, 0);
  }

  lemma {:induction false} UnevenIsShared()
    ensures ValidConfig(Uneven) && Shared(Uneven, Memory)
  {
    UnevenClusters();
    assert FiltersOn(Uneven, 0) == {0} && FiltersOn(Uneven, 1) == {1, 2, 3};
    assert Entities(Uneven, 0) == 2 && Entities(Uneven, 1) == 4;
  }

  /** What the filter writes waits for the outgoing-queue thread, and then at the socket. */
  lemma {:induction false} LargeIsWritten() returns (st: State, p: Packet)
    requires ValidConfig(Uneven)
    ensures Enabled(Uneven, Init(Uneven), DoWrite(0, 0, Large())) && st == Apply(Uneven, Init(Uneven), DoWrite(0, 0, Large()))
    ensures p.kind == Buffer(Large()) && p.src == 0 && p.dst == 1 && Addressed(Uneven.clusters, p)
    ensures Lookup(st.net.at, OutQ(0)) == [p] && forall pl :: pl != OutQ(0) ==> Lookup(st.net.at, pl) == []
  {
    UnevenClusters();
    p := PacketTo(Uneven, 0, InPort(1, "in"), Buffer(Large()));
    st := Write(Uneven, Init(Uneven), 0, 0, Large());
    assert Origin(Uneven.clusters, 0, 1) == OutQ(0);
  }

  /**
    With 256 megabytes on each of two hosts, a buffer of 100 megabytes can be written by the one filter
    of the first and is never taken in by the second, which has three; nothing ever brings this run to
    its end.
  */
  lemma {:induction false} LargeBufferWaitsForEver() returns (steps: seq<Step>, su: State, p: Packet)
    ensures ValidConfig(Uneven) && Shared(Uneven, Memory)
    ensures Run(Uneven, Init(Uneven), steps, su) && Oversized(Uneven, su, Link(0, 1), p)
    ensures forall more, end :: Run(Uneven, su, more, end) ==> Oversized(Uneven, end, Link(0, 1), p) && !P.Over(Uneven, end)
  {
    UnevenIsShared();
    UnevenClusters();
    var st;
    st, p := LargeIsWritten();
    OneMore(Uneven, Init(Uneven), DoWrite(0, 0, Large()));
    su := LargeIsSent(st, p);
    steps := [DoWrite(0, 0, Large())] + [DoHop(OutQ(0))];
    RunThen(Uneven, Init(Uneven), [DoWrite(0, 0, Large())], st, DoHop(OutQ(0)));
    forall more, end | Run(Uneven, su, more, end)
      ensures Oversized(Uneven, end, Link(0, 1), p) && !P.Over(Uneven, end)
    {
      OversizedForEver(Uneven, steps, su, more, end, Link(0, 1), p);
    }
  }

  lemma {:induction false} LargeIsSent(st: State, p: Packet) returns (su: State)
    requires ValidConfig(Uneven) && p.kind == Buffer(Large()) && p.src == 0 && p.dst == 1 && Addressed(Uneven.clusters, p)
    requires Lookup(st.net.at, OutQ(0)) == [p] && forall pl :: pl != OutQ(0) ==> Lookup(st.net.at, pl) == []
    ensures Enabled(Uneven, st, DoHop(OutQ(0))) && su == Apply(Uneven, st, DoHop(OutQ(0)))
    ensures Oversized(Uneven, su, Link(0, 1), p)
  {
    UnevenClusters();
    var t := Uneven.clusters;
    assert Origin(t, 0, 1) == OutQ(0) && Elsewhere(t, 0, 1) == Link(0, 1);
    assert Next(t, OutQ(0), 1) == Forward(Link(0, 1));
    su := Hop(Uneven, st, OutQ(0));
    MoveAt(t, st.net, OutQ(0), Link(0, 1));
  }

  // ---------------------------------------------------------------------------
  // Where it cannot happen
  // ---------------------------------------------------------------------------

  /** No filter may write more than any process can take in. */
  ghost predicate Even(c: Config)
    requires ValidConfig(c)
  {
    forall g, r :: g in c.rankOf && IsProcess(c.clusters, r) ==> c.limit(WriterAccount(c, g)) <= c.limit(RuntimeUse(r))
  }

  /** Every buffer on its way was small enough for its writer. */
  ghost predicate WithinLimits(c: Config, n: Net) {
    forall pl, p :: p in Lookup(n.at, pl) && p.kind.Buffer? ==>
      p.fromFilter in c.rankOf && Size(p) <= c.limit(WriterAccount(c, p.fromFilter))
  }

  lemma {:induction false} WriteWithinLimits(c: Config, st: State, g: int, k: nat, body: Bytes)
    requires ValidConfig(c) && WithinLimits(c, st.net) && CanWrite(c, st, g, k, body) && Usage(st.usage, WriterAccount(c, g)) >= 0
    ensures WithinLimits(c, Write(c, st, g, k, body).net)
  {
    var ip, su := c.outs[g][k], Write(c, st, g, k, body);
    forall x, y | y in Lookup(su.net.at, x) && y.kind.Buffer?
      ensures y.fromFilter in c.rankOf && Size(y) <= c.limit(WriterAccount(c, y.fromFilter))
    {
      if !IsLocal(c, g, ip) {
        EnqueueAt(st.net.at, Origin(c.clusters, c.rankOf[g], c.rankOf[ip.filter]), PacketTo(c, g, ip, Buffer(body)), x);
      }
      assert y in Lookup(st.net.at, x) || (y.fromFilter == g && Size(y) == |body|);
    }
  }

  lemma {:induction false} HopWithinLimits(c: Config, st: State, pl: Place)
    requires ValidConfig(c) && WithinLimits(c, st.net) && CanHop(c, st, pl)
    ensures WithinLimits(c, Hop(c, st, pl).net)
  {
    forall x, y | y in Lookup(Hop(c, st, pl).net.at, x) && y.kind.Buffer?
      ensures y.fromFilter in c.rankOf && Size(y) <= c.limit(WriterAccount(c, y.fromFilter))
    {
      HopPacket(c, st, pl, x, y);
    }
  }

  lemma {:induction false} HopPacket(c: Config, st: State, pl: Place, x: Place, y: Packet)
    requires ValidConfig(c) && CanHop(c, st, pl) && y in Lookup(Hop(c, st, pl).net.at, x)
    ensures y in Lookup(st.net.at, x) || y in Lookup(st.net.at, pl)
  {
    MoveAt(c.clusters, st.net, pl, x);
  }

  lemma {:induction false} RetireWithinLimits(c: Config, st: State, g: int)
    requires ValidConfig(c) && WithinLimits(c, st.net) && CanRetire(c, st, g)
    ensures WithinLimits(c, Retire(c, st, g).net)
  {
    var ip, su := c.outs[g][LifeOf(st, g).told], Retire(c, st, g);
    if !IsLocal(c, g, ip) {
      SentWithinLimits(c, st.net, Origin(c.clusters, c.rankOf[g], c.rankOf[ip.filter]), PacketTo(c, g, ip, RemovePutter));
    }
  }

  lemma {:induction false} SentWithinLimits(c: Config, n: Net, pl: Place, p: Packet)
    requires WithinLimits(c, n) && !p.kind.Buffer?
    ensures WithinLimits(c, Put(n, pl, p))
  {
    forall x, y | y in Lookup(Put(n, pl, p).at, x) && y.kind.Buffer?
      ensures y in Lookup(n.at, x)
    {
      SentIsNoBuffer(n, pl, p, x, y);
    }
  }

  lemma {:induction false} AnnounceWithinLimits(c: Config, st: State, r: int)
    requires ValidConfig(c) && WithinLimits(c, st.net) && CanAnnounce(c, st, r)
    ensures WithinLimits(c, Announce(c, st, r).net)
  {
    var d := LoopOf(st, r).next;
    if IsRank(c.clusters, d) && d != r {
      SentWithinLimits(c, st.net, DoneEntry(c, r, d), DonePacket(c, r, d));
    }
  }

  lemma {:induction false} StepWithinLimits(c: Config, steps: seq<Step>, st: State, a: Step)
    requires ValidConfig(c) && Run(c, Init(c), steps, st) && WithinLimits(c, st.net) && Enabled(c, st, a)
    ensures WithinLimits(c, Apply(c, st, a).net)
  {
    match a
    case DoWrite(g, k, body) =>
      L.LedgerConservation(c, steps, st, WriterAccount(c, g));
      WriteWithinLimits(c, st, g, k, body);
    case DoHop(pl) => HopWithinLimits(c, st, pl);
    case DoRetire(g) => RetireWithinLimits(c, st, g);
    case DoAnnounce(r) => AnnounceWithinLimits(c, st, r);
    case _ =>
  }

  lemma {:induction false} RunWithinLimits(c: Config, steps: seq<Step>, st: State, more: seq<Step>, su: State)
    requires ValidConfig(c) && Run(c, Init(c), steps, st) && Run(c, st, more, su) && WithinLimits(c, st.net)
    ensures WithinLimits(c, su.net)
    decreases |more|
  {
    if more != [] {
      StepWithinLimits(c, steps, st, more[0]);
      RunThen(c, Init(c), steps, st, more[0]);
      RunWithinLimits(c, steps + [more[0]], Apply(c, st, more[0]), more[1..], su);
    }
  }

  /** The counters that take buffers in are those of processes. */
  lemma {:induction false} IntakeOfProcess(c: Config, pl: Place, d: int)
    requires ValidConfig(c) && IsRank(c.clusters, d) && Fits(c.clusters, pl, d) && Intake(c, pl).Some?
    ensures Intake(c, pl).value.RuntimeUse? && IsProcess(c.clusters, Intake(c, pl).value.rank)
  {
    HeadIsProcess(c.clusters, ClusterOf(c.clusters, d));
    HeadIsProcess(c.clusters, 0);
  }

  /** Under even limits every buffer fits in every run; all that is left to ask is that filters read. */
  lemma {:induction false} EvenLimitsFit(c: Config, steps: seq<Step>, st: State, pl: Place, p: Packet)
    requires ValidConfig(c) && Even(c) && Run(c, Init(c), steps, st) && p in Lookup(st.net.at, pl) && p.kind.Buffer?
    ensures FitsAhead(c, pl, p)
  {
    assert Run(c, Init(c), [], Init(c));
    RunWithinLimits(c, [], Init(c), steps, st);
    if IsRank(c.clusters, p.dst) && Fits(c.clusters, pl, p.dst) {
      forall x | Reaches(c.clusters, pl, x, p.dst) && Intake(c, x).Some?
        ensures Size(p) <= c.limit(Intake(c, x).value)
      {
        ReachesForward(c.clusters, pl, x, p.dst);
        IntakeOfProcess(c, x, p.dst);
      }
    }
  }
}
