/**
  The socket runtime as a step system: filters write and retire, queues drain, the main loop of
  every process receives, relays, announces that its filters are done, and leaves.

  A step is one action of one thread.  Taking a packet out of a queue and writing it to the next
  one is a single step, and so is each packet write.
*/
module Runtime {
  import opened Common
  import opened Topology
  import opened RouteCount
  import opened Network

  /** An in-port of a filter, named by its global filter thread id. */
  datatype InPort = InPort(filter: int, port: string)

  /** Who a buffer is charged to (the MUID of the ledger). */
  datatype Account =
    | FilterUse(rank: int, filter: int)   // MUID_MemUsage[gftid] on the filter's process
    | RuntimeUse(rank: int)               // MUID_MemUsage[MUID_of_dcmpiruntime]
    | ConsoleUse                          // local_console_outgoing_memusage
    | Unmetered                           // buffers handed to the console filter

  datatype Config = Config(
    clusters: Clusters,
    rankOf: map<int, int>,          // process (or console) of every filter
    outs: map<int, seq<InPort>>,    // all targets of all out-ports of every filter
    limit: Account -> nat)          // memory_threshold

  ghost predicate ValidConfig(c: Config) {
    && Valid(c.clusters)
    && c.outs.Keys == c.rankOf.Keys
    && (forall g :: g in c.rankOf ==> IsRank(c.clusters, c.rankOf[g]))
    && (forall g, ip :: g in c.outs && ip in c.outs[g] ==>
         ip.filter in c.rankOf && !(c.rankOf[g] == -1 && c.rankOf[ip.filter] == -1))
  }

  /** A buffer in an in-port queue together with its MUID. */
  datatype Arrival = Arrival(from: int, body: Bytes, account: Account)

  datatype Life = Working | Retiring(told: nat) | Finished

  datatype Loop = Looping | Announcing(next: int) | Announced | Left

  /** The in-port queues, and, as history, all that ever arrived and all that was ever written. */
  datatype Store = Store(
    inbox: map<InPort, seq<Arrival>>,      // Queue::q
    putters: map<InPort, set<int>>,        // Queue::putters
    arrived: map<InPort, seq<Arrival>>,
    written: map<(int, InPort), seq<Bytes>>)

  /** The two message counters of every process, and, as history, which pairs they count. */
  datatype Tally = Tally(
    doneReceived: map<int, int>,           // num_all_filters_done_received
    routed: map<int, int>,                 // all_filter_done_messages_routed
    doneFrom: map<int, set<(int, int)>>,
    routedFor: map<int, set<(int, int)>>)

  datatype State = State(
    net: Net,
    life: map<int, Life>,                  // unfinished_local_gftids, over all processes
    loop: map<int, Loop>,                  // progress of every main loop
    consoleOpen: bool,                     // mpi_from_console_queue has its putter
    store: Store,
    usage: map<Account, int>,              // MemUsage::current_usage
    tally: Tally)

  function Get<K, V>(m: map<K, V>, k: K, v: V): V {
    if k in m then m[k] else v
  }

  function Usage(u: map<Account, int>, a: Account): int { Get(u, a, 0) }
  function LifeOf(st: State, g: int): Life { Get(st.life, g, Working) }
  function LoopOf(st: State, r: int): Loop { Get(st.loop, r, Looping) }
  function DoneReceived(y: Tally, r: int): int { Get(y.doneReceived, r, 0) }
  function Routed(y: Tally, r: int): int { Get(y.routed, r, 0) }
  function DoneFrom(y: Tally, r: int): set<(int, int)> { Get(y.doneFrom, r, {}) }
  function RoutedFor(y: Tally, r: int): set<(int, int)> { Get(y.routedFor, r, {}) }
  function Putters(s: Store, ip: InPort): set<int> { Get(s.putters, ip, {}) }

  // ---------------------------------------------------------------------------
  // Initial state
  // ---------------------------------------------------------------------------

  /** The filters that write to an in-port: the putters that `DCFilterExecutor::setup` installs. */
  function Feeders(c: Config, ip: InPort): set<int> {
    set g | g in c.outs && ip in c.outs[g]
  }

  function Fed(c: Config): set<InPort> {
    set g, ip | g in c.outs && ip in c.outs[g] :: ip
  }

  function Init(c: Config): State {
    State(Idle, map[], map[], true,
          Store(map[], map ip | ip in Fed(c) :: Feeders(c, ip), map[], map[]),
          map[],
          Tally(map[], map[], map[], map[]))
  }

  // ---------------------------------------------------------------------------
  // Filters
  // ---------------------------------------------------------------------------

  function Charge(u: map<Account, int>, a: Account, bytes: int): map<Account, int> {
    u[a := Usage(u, a) + bytes]
  }

  /** `MUID_MemUsage[gftid]`, or the console's own counter. */
  function WriterAccount(c: Config, g: int): Account
    requires g in c.rankOf
  {
    if c.rankOf[g] == -1 then ConsoleUse else FilterUse(c.rankOf[g], g)
  }

  function PacketTo(c: Config, g: int, ip: InPort, kind: Kind): Packet
    requires ValidConfig(c) && g in c.rankOf && ip.filter in c.rankOf
  {
    var s, d := c.rankOf[g], c.rankOf[ip.filter];
    Packet(kind, d, ClusterOf(c.clusters, d), ip.filter, ip.port, s, ClusterOf(c.clusters, s), g)
  }

  /** A filter hands a packet to the queue for another rank (`RemoteQueueWriter`). */
  function Send(c: Config, n: Net, g: int, ip: InPort, kind: Kind): Net
    requires ValidConfig(c) && g in c.rankOf && ip.filter in c.rankOf
  {
    Put(n, Origin(c.clusters, c.rankOf[g], c.rankOf[ip.filter]), PacketTo(c, g, ip, kind))
  }

  function PutArrival(s: Store, ip: InPort, a: Arrival): Store {
    s.(inbox := Enqueue(s.inbox, ip, a), arrived := Enqueue(s.arrived, ip, a))
  }

  function DropPutter(s: Store, ip: InPort, g: int): Store {
    s.(putters := s.putters[ip := Putters(s, ip) - {g}])
  }

  predicate IsTarget(c: Config, g: int, k: nat) {
    g in c.rankOf && g in c.outs && k < |c.outs[g]|
  }

  predicate CanWrite(c: Config, st: State, g: int, k: nat, body: Bytes) {
    && IsTarget(c, g, k)
    && LifeOf(st, g) == Working
    && Usage(st.usage, WriterAccount(c, g)) + |body| <= c.limit(WriterAccount(c, g))
  }

  /** The target is a filter of the same process, reached through a `LocalQueueWriter`. */
  predicate IsLocal(c: Config, g: int, ip: InPort)
    requires g in c.rankOf && ip.filter in c.rankOf
  {
    c.rankOf[g] == c.rankOf[ip.filter]
  }

  /** A filter writes one buffer to one of its targets: charge, then feed the target's queue. */
  function Write(c: Config, st: State, g: int, k: nat, body: Bytes): State
    requires ValidConfig(c) && CanWrite(c, st, g, k, body)
  {
    var ip := c.outs[g][k];
    var noted := st.store.(written := Enqueue(st.store.written, (g, ip), body));
    st.(usage := Charge(st.usage, WriterAccount(c, g), |body|),
        store := if IsLocal(c, g, ip) then PutArrival(noted, ip, Arrival(g, body, WriterAccount(c, g))) else noted,
        net := if IsLocal(c, g, ip) then st.net else Send(c, st.net, g, ip, Buffer(body)))
  }

  predicate CanStop(c: Config, st: State, g: int) {
    g in c.rankOf && LifeOf(st, g) == Working
  }

  /** `process` and `fini` have returned. */
  function Stop(st: State, g: int): State {
    st.(life := st.life[g := Retiring(0)])
  }

  predicate CanRetire(c: Config, st: State, g: int) {
    var l := LifeOf(st, g);
    l.Retiring? && IsTarget(c, g, l.told)
  }

  /** The filter thread tells its next target that it will write no more. */
  function Retire(c: Config, st: State, g: int): State
    requires ValidConfig(c) && CanRetire(c, st, g)
  {
    var k := LifeOf(st, g).told;
    var ip := c.outs[g][k];
    st.(life := st.life[g := Retiring(k + 1)],
        store := if IsLocal(c, g, ip) then DropPutter(st.store, ip, g) else st.store,
        net := if IsLocal(c, g, ip) then st.net else Send(c, st.net, g, ip, RemovePutter))
  }

  predicate CanFinish(c: Config, st: State, g: int) {
    g in c.rankOf && g in c.outs && LifeOf(st, g) == Retiring(|c.outs[g]|)
  }

  /** The filter thread erases itself from the unfinished filters. */
  function Finish(st: State, g: int): State {
    st.(life := st.life[g := Finished])
  }

  predicate CanRead(c: Config, st: State, ip: InPort) {
    ip.filter in c.rankOf && LifeOf(st, ip.filter) == Working && Lookup(st.store.inbox, ip) != []
  }

  /** A filter takes the oldest buffer of an in-port and releases it. */
  function Read(c: Config, st: State, ip: InPort): State
    requires CanRead(c, st, ip)
  {
    var q := Lookup(st.store.inbox, ip);
    st.(store := st.store.(inbox := st.store.inbox[ip := q[1..]]),
        usage := if q[0].account == Unmetered then st.usage
                 else Charge(st.usage, q[0].account, 0 - |q[0].body|))
  }

  // ---------------------------------------------------------------------------
  // Announcing and leaving
  // ---------------------------------------------------------------------------

  ghost predicate FiltersFinished(c: Config, st: State, r: int) {
    forall g :: g in c.rankOf && c.rankOf[g] == r ==> LifeOf(st, g) == Finished
  }

  /** The guard of the announcement in the main loop; for the console, of `execute3`. */
  ghost predicate CanBegin(c: Config, st: State, r: int)
    requires ValidConfig(c)
  {
    && IsRank(c.clusters, r)
    && LoopOf(st, r) == Looping
    && FiltersFinished(c, st, r)
    && (r >= 0 ==> Lookup(st.net.at, OutQ(r)) == [])
    && (r >= 0 && IsHead(c.clusters, r) && |c.clusters.sizes| > 1 ==>
         Lookup(st.net.at, ProxyQ(ClusterOf(c.clusters, r))) == [])
  }

  function Begin(c: Config, st: State, r: int): State {
    st.(loop := st.loop[r := Announcing(if c.clusters.console then -1 else 0)])
  }

  predicate CanAnnounce(c: Config, st: State, r: int) {
    IsRank(c.clusters, r) && LoopOf(st, r).Announcing?
  }

  function DonePacket(c: Config, s: int, d: int): Packet
    requires ValidConfig(c) && IsRank(c.clusters, s) && IsRank(c.clusters, d)
  {
    Packet(FiltersDone, d, ClusterOf(c.clusters, d), -1, "", s, ClusterOf(c.clusters, s), -1)
  }

  function DoneEntry(c: Config, s: int, d: int): Place
    requires ValidConfig(c) && IsRank(c.clusters, s) && IsRank(c.clusters, d)
  {
    if s == -1 then ConsoleOut else Elsewhere(c.clusters, s, d)
  }

  /** One turn of the announcement loop: tell the next rank, unless it is this one. */
  function Announce(c: Config, st: State, r: int): State
    requires ValidConfig(c) && CanAnnounce(c, st, r)
  {
    var d := LoopOf(st, r).next;
    if !IsRank(c.clusters, d) then
      st.(loop := st.loop[r := Announced])
    else
      var on := st.(loop := st.loop[r := Announcing(d + 1)]);
      if d == r then on
      else on.(net := Put(st.net, DoneEntry(c, r, d), DonePacket(c, r, d)))
  }

  /** The conditions under which a process breaks out of its main loop. */
  predicate CanLeave(c: Config, st: State, r: int)
    requires Valid(c.clusters)
  {
    && IsProcess(c.clusters, r)
    && LoopOf(st, r) == Announced
    && DoneReceived(st.tally, r) == TotalRanks(c.clusters) - 1
    && Lookup(st.net.at, OutQ(r)) == []
    && Routed(st.tally, r) == MessagesToRoute(c.clusters, r)
    && (r == 0 ==> !st.consoleOpen && Lookup(st.net.at, FromConsoleQ) == [])
  }

  function Leave(st: State, r: int): State {
    st.(loop := st.loop[r := Left])
  }

  predicate CanClose(c: Config, st: State) {
    && st.consoleOpen
    && (c.clusters.console ==> LoopOf(st, -1) == Announced)
    && Lookup(st.net.at, ConsoleOut) == []
    && Lookup(st.net.at, FromSock) == []
  }

  /** The console's closing packet reaches the console thread of process 0. */
  function Close(st: State): State {
    st.(consoleOpen := false)
  }

  // ---------------------------------------------------------------------------
  // Moving packets
  // ---------------------------------------------------------------------------

  /** The account a buffer is charged to when the reader of `pl` takes it in. */
  function Intake(c: Config, pl: Place): Option<Account>
    requires Valid(c.clusters)
  {
    match pl
    case Link(a, b) => Some(RuntimeUse(b))
    case ProxyIn(k) => if k < |c.clusters.sizes| then Some(RuntimeUse(Head(c.clusters, k))) else None
    case FromSock => Some(RuntimeUse(0))
    case _ => None
  }

  /**
    The account the code releases when a buffer is written to `to`.  The socket writer looks at
    the sender's rank and cluster, the proxy writer at the sender's rank, and the console writer
    at the filters placed on process 0.
  */
  function Release(c: Config, to: Place, p: Packet): Option<Account>
    requires Valid(c.clusters)
  {
    match to
    case Link(me, b) =>
      if me == 0 && p.src == -1 then Some(RuntimeUse(me))
      else if IsProcess(c.clusters, me) && p.srcCluster != ClusterOf(c.clusters, me) then Some(RuntimeUse(me))
      else Some(FilterUse(me, p.fromFilter))
    case Wire(k) =>
      if k >= |c.clusters.sizes| then None
      else if p.src == Head(c.clusters, k) then Some(FilterUse(p.src, p.fromFilter))
      else Some(RuntimeUse(Head(c.clusters, k)))
    case ToConsole =>
      if p.fromFilter in c.rankOf && c.rankOf[p.fromFilter] == 0 then Some(FilterUse(0, p.fromFilter))
      else Some(RuntimeUse(0))
    case FromSock => Some(ConsoleUse)
    case _ => None
  }

  function ChargeTo(u: map<Account, int>, a: Option<Account>, bytes: int): map<Account, int> {
    if a.Some? then Charge(u, a.value, bytes) else u
  }

  /** A process (or the console) keeps a packet that is addressed to it (`dcmpisock_deliver_in`). */
  function DeliverIn(s: Store, p: Packet): Store {
    var ip := InPort(p.toFilter, p.toPort);
    match p.kind
    case Buffer(body) =>
      PutArrival(s, ip, Arrival(p.fromFilter, body, if p.dst == -1 then Unmetered else RuntimeUse(p.dst)))
    case RemovePutter => DropPutter(s, ip, p.fromFilter)
    case FiltersDone => s
  }

  /** What a delivered packet adds to an in-port, and whom it takes from its putters. */
  function Added(p: Packet, ip: InPort): seq<Arrival> {
    if p.kind.Buffer? && ip == InPort(p.toFilter, p.toPort) then
      [Arrival(p.fromFilter, p.kind.body, if p.dst == -1 then Unmetered else RuntimeUse(p.dst))]
    else []
  }

  function Removed(p: Packet, ip: InPort): set<int> {
    if p.kind.RemovePutter? && ip == InPort(p.toFilter, p.toPort) then {p.fromFilter} else {}
  }

  lemma {:induction false} DeliveredAt(s: Store, p: Packet, ip: InPort)
    ensures var s' := DeliverIn(s, p);
            && Lookup(s'.inbox, ip) == Lookup(s.inbox, ip) + Added(p, ip)
            && Lookup(s'.arrived, ip) == Lookup(s.arrived, ip) + Added(p, ip)
            && Putters(s', ip) == Putters(s, ip) - Removed(p, ip)
  {
  }

  /** A done message has arrived at its destination.  The console takes it without counting. */
  function CountReceived(y: Tally, p: Packet): Tally {
    y.(doneReceived := if p.dst == -1 then y.doneReceived
                       else y.doneReceived[p.dst := DoneReceived(y, p.dst) + 1],
       doneFrom := y.doneFrom[p.dst := DoneFrom(y, p.dst) + {(p.src, p.dst)}])
  }

  /** The counting at the top of `dcmpisock_deliver_elsewhere`. */
  function CountRouted(y: Tally, me: int, p: Packet): Tally {
    if p.src == me then y
    else y.(routed := y.routed[me := Routed(y, me) + 1],
            routedFor := y.routedFor[me := RoutedFor(y, me) + {(p.src, p.dst)}])
  }

  predicate HandlerReady(c: Config, st: State, pl: Place)
    requires Valid(c.clusters)
  {
    var h := HandlerOf(c.clusters, pl);
    h.Main? && h.rank >= 0 ==> LoopOf(st, h.rank) in {Looping, Announced}
  }

  function Size(p: Packet): nat {
    if p.kind.Buffer? then |p.kind.body| else 0
  }

  /** Room for the first packet of `pl` in the account that takes it in. */
  predicate HasRoom(c: Config, st: State, pl: Place)
    requires Valid(c.clusters) && Lookup(st.net.at, pl) != []
  {
    var p, a := Lookup(st.net.at, pl)[0], Intake(c, pl);
    p.kind.Buffer? && a.Some? ==> Usage(st.usage, a.value) + Size(p) <= c.limit(a.value)
  }

  predicate CanHop(c: Config, st: State, pl: Place)
    requires Valid(c.clusters)
  {
    && Movable(c.clusters, st.net, pl)
    && HandlerReady(c, st, pl)
    && HasRoom(c, st, pl)
  }

  function HopUsage(c: Config, u: map<Account, int>, pl: Place, p: Packet): map<Account, int>
    requires Valid(c.clusters) && IsRank(c.clusters, p.dst) && Fits(c.clusters, pl, p.dst)
  {
    if !p.kind.Buffer? then u
    else
      var taken := ChargeTo(u, Intake(c, pl), Size(p));
      match Next(c.clusters, pl, p.dst)
      case Deliver => taken
      case Forward(to) => ChargeTo(taken, Release(c, to, p), 0 - Size(p))
  }

  function HopTally(c: Config, y: Tally, pl: Place, p: Packet): Tally
    requires Valid(c.clusters) && IsRank(c.clusters, p.dst) && Fits(c.clusters, pl, p.dst)
  {
    var h := HandlerOf(c.clusters, pl);
    if !p.kind.FiltersDone? || h.Thread? then y
    else if Next(c.clusters, pl, p.dst).Deliver? then CountReceived(y, p)
    else CountRouted(y, h.rank, p)
  }

  /** The reader of `pl` takes the first packet and delivers it or passes it on. */
  function Hop(c: Config, st: State, pl: Place): State
    requires Valid(c.clusters) && CanHop(c, st, pl)
  {
    var p := Lookup(st.net.at, pl)[0];
    st.(net := Move(c.clusters, st.net, pl),
        usage := HopUsage(c, st.usage, pl, p),
        tally := HopTally(c, st.tally, pl, p),
        store := if Next(c.clusters, pl, p.dst).Deliver? then DeliverIn(st.store, p) else st.store)
  }

  // ---------------------------------------------------------------------------
  // Runs
  // ---------------------------------------------------------------------------

  datatype Step =
    | DoWrite(g: int, k: nat, body: Bytes)
    | DoStop(g: int)
    | DoRetire(g: int)
    | DoFinish(g: int)
    | DoRead(ip: InPort)
    | DoBegin(r: int)
    | DoAnnounce(r: int)
    | DoLeave(r: int)
    | DoClose
    | DoHop(pl: Place)

  ghost predicate Enabled(c: Config, st: State, a: Step)
    requires ValidConfig(c)
  {
    match a
    case DoWrite(g, k, body) => CanWrite(c, st, g, k, body)
    case DoStop(g) => CanStop(c, st, g)
    case DoRetire(g) => CanRetire(c, st, g)
    case DoFinish(g) => CanFinish(c, st, g)
    case DoRead(ip) => CanRead(c, st, ip)
    case DoBegin(r) => CanBegin(c, st, r)
    case DoAnnounce(r) => CanAnnounce(c, st, r)
    case DoLeave(r) => CanLeave(c, st, r)
    case DoClose => CanClose(c, st)
    case DoHop(pl) => CanHop(c, st, pl)
  }

  ghost function Apply(c: Config, st: State, a: Step): State
    requires ValidConfig(c) && Enabled(c, st, a)
  {
    match a
    case DoWrite(g, k, body) => Write(c, st, g, k, body)
    case DoStop(g) => Stop(st, g)
    case DoRetire(g) => Retire(c, st, g)
    case DoFinish(g) => Finish(st, g)
    case DoRead(ip) => Read(c, st, ip)
    case DoBegin(r) => Begin(c, st, r)
    case DoAnnounce(r) => Announce(c, st, r)
    case DoLeave(r) => Leave(st, r)
    case DoClose => Close(st)
    case DoHop(pl) => Hop(c, st, pl)
  }

  /** `to` is reached from `from` by taking the given steps. */
  ghost predicate Run(c: Config, from: State, steps: seq<Step>, to: State)
    requires ValidConfig(c)
    decreases |steps|
  {
    if steps == [] then from == to
    else Enabled(c, from, steps[0]) && Run(c, Apply(c, from, steps[0]), steps[1..], to)
  }

  /** One more step at the end, or at the beginning. */
  lemma {:induction false} RunThen(c: Config, from: State, steps: seq<Step>, mid: State, a: Step)
    requires ValidConfig(c) && Run(c, from, steps, mid) && Enabled(c, mid, a)
    ensures Run(c, from, steps + [a], Apply(c, mid, a))
    decreases |steps|
  {
    if steps == [] {
      assert [] + [a] == [a] && [a][1..] == [];
    } else {
      assert (steps + [a])[1..] == steps[1..] + [a];
      RunThen(c, Apply(c, from, steps[0]), steps[1..], mid, a);
    }
  }

  lemma {:induction false} StepFirst(c: Config, from: State, a: Step, rest: seq<Step>, to: State)
    requires ValidConfig(c) && Enabled(c, from, a) && Run(c, Apply(c, from, a), rest, to)
    ensures Run(c, from, [a] + rest, to)
  {
    assert ([a] + rest)[1..] == rest;
  }
}
