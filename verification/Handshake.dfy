/**
  The connection mesh at startup.  Every process but rank 0 connects to rank 0 twice, learns the
  ports of the others from it, accepts a connection from every lower rank and then connects to
  every higher one.  All calls block: a connection waits for room in the listener's queue, an
  accept for a connection, a read for what the other side has to say.
*/
module Handshake {
  import opened Common
  import opened RouteCount
  import opened Sums

  /** The kind says what a client uses its connection for. */
  datatype Kind = Main | Barrier | Peer

  datatype Conn = Conn(client: int, server: int, kind: Kind)

  /** Where a process other than rank 0 is in its startup. */
  datatype Pc =
    | OpenMain | SayMain                       // first connection to rank 0, and its three lines
    | OpenBarrier | SayBarrier                 // second connection to rank 0, and its two lines
    | Learn(known: nat)                        // reading the other ports
    | Await(left: nat, cur: Option<Conn>)      // accepting lower ranks; cur has not said its rank yet
    | Open(to: int) | Say(to: int)             // connecting to higher ranks
    | Done

  datatype Zero = Accepting(n: nat, cur: Option<Conn>) | Telling(i: int, to: int) | Ready

  /** What no step waits for. */
  datatype Books = Books(
    ownBarrier: map<int, Conn>,                // rank_non0_barrier_fd of every other rank
    sent: map<int, seq<int>>,                  // the ranks whose ports rank 0 has written to a rank
    known: map<int, set<int>>)                 // the ranks whose ports a rank has read

  datatype State = State(
    zero: Zero,
    pcs: map<int, Pc>,
    backlog: map<int, seq<Conn>>,              // connections not yet accepted, per listener
    said: set<Conn>,                           // connections on which the client has named itself
    fds: map<(int, int), Conn>,                // rank_fds[j] of rank i
    barrier: map<int, Conn>,                   // rank0_barrier_fds
    told: map<int, nat>,                       // how many ports rank 0 has written to a rank
    books: Books)

  /** With one process rank 0 has nothing to accept and nobody to tell. */
  function Start(size: int): State {
    State(if size == 1 then Ready else Accepting(0, None), map[], map[], {}, map[], map[], map[],
          Books(map[], map[], map[]))
  }

  function PcOf(st: State, r: int): Pc { if r in st.pcs then st.pcs[r] else OpenMain }
  function Backlog(st: State, s: int): seq<Conn> { if s in st.backlog then st.backlog[s] else [] }
  function Told(st: State, r: int): nat { if r in st.told then st.told[r] else 0 }
  function SentTo(b: Books, r: int): seq<int> { if r in b.sent then b.sent[r] else [] }
  function Known(b: Books, r: int): set<int> { if r in b.known then b.known[r] else {} }

  // ---------------------------------------------------------------------------
  // Steps
  // ---------------------------------------------------------------------------

  /** The connection a process is about to open, or has just opened. */
  function Own(r: int, pc: Pc): Option<Conn> {
    match pc
    case OpenMain => Some(Conn(r, 0, Main))
    case SayMain => Some(Conn(r, 0, Main))
    case OpenBarrier => Some(Conn(r, 0, Barrier))
    case SayBarrier => Some(Conn(r, 0, Barrier))
    case Open(to) => Some(Conn(r, to, Peer))
    case Say(to) => Some(Conn(r, to, Peer))
    case _ => None
  }

  function AfterSaying(size: int, to: int): Pc {
    if to + 1 < size then Open(to + 1) else Done
  }

  function AfterAccepting(size: int, r: int, left: nat): Pc {
    if left > 0 then Await(left, None) else AfterSaying(size, r)
  }

  function AfterLearning(size: int, r: int, known: nat): Pc
    requires r >= 1
  {
    if known < size - 2 then Learn(known) else AfterAccepting(size, r, r - 1)
  }

  predicate IsClient(size: int, r: int) { 1 <= r < size }

  predicate Opens(pc: Pc) { pc.OpenMain? || pc.OpenBarrier? || pc.Open? }

  /** A connect call returns as soon as the listener's queue has room. */
  predicate CanOpen(size: int, room: nat, st: State, r: int) {
    IsClient(size, r) && Opens(PcOf(st, r)) && |Backlog(st, Own(r, PcOf(st, r)).value.server)| < room
  }

  function DoOpen(st: State, r: int): State
    requires Opens(PcOf(st, r))
  {
    var c := Own(r, PcOf(st, r)).value;
    var pc := match PcOf(st, r) case OpenMain => SayMain case OpenBarrier => SayBarrier case Open(to) => Say(to);
    st.(pcs := st.pcs[r := pc],
        backlog := st.backlog[c.server := Backlog(st, c.server) + [c]],
        fds := if c.kind.Main? then st.fds[(r, 0) := c] else st.fds,
        books := KeepBarrier(st.books, c))
  }

  /** The second connection is kept for the barrier. */
  function KeepBarrier(b: Books, c: Conn): Books {
    if c.kind.Barrier? then b.(ownBarrier := b.ownBarrier[c.client := c]) else b
  }

  predicate Says(pc: Pc) { pc.SayMain? || pc.SayBarrier? || pc.Say? }

  predicate CanSay(size: int, st: State, r: int) {
    IsClient(size, r) && Says(PcOf(st, r))
  }

  function DoSay(size: int, st: State, r: int): State
    requires CanSay(size, st, r)
  {
    var c := Own(r, PcOf(st, r)).value;
    var pc :=
      match PcOf(st, r)
      case SayMain => OpenBarrier
      case SayBarrier => AfterLearning(size, r, 0)
      case Say(to) => AfterSaying(size, to);
    st.(pcs := st.pcs[r := pc],
        said := st.said + {c},
        fds := if c.kind.Peer? then st.fds[(r, c.server) := c] else st.fds)
  }

  predicate CanLearn(size: int, st: State, r: int) {
    IsClient(size, r) && PcOf(st, r).Learn? && PcOf(st, r).known < Told(st, r)
  }

  function DoLearn(size: int, st: State, r: int): State
    requires CanLearn(size, st, r)
  {
    st.(pcs := st.pcs[r := AfterLearning(size, r, PcOf(st, r).known + 1)],
        books := ReadPort(st.books, r, PcOf(st, r).known))
  }

  /** Rank r reads the n-th port that was written to it; rank 0 writes the port of rank i to `to`. */
  function ReadPort(b: Books, r: int, n: nat): Books {
    b.(known := b.known[r := Known(b, r) + (if n < |SentTo(b, r)| then {SentTo(b, r)[n]} else {})])
  }

  function WritePort(b: Books, to: int, i: int): Books {
    b.(sent := b.sent[to := SentTo(b, to) + [i]])
  }

  /** The connection a listener has accepted and is reading from. */
  function Cur(st: State, s: int): Option<Conn> {
    if s == 0 then (if st.zero.Accepting? then st.zero.cur else None)
    else if PcOf(st, s).Await? then PcOf(st, s).cur else None
  }

  predicate Accepts(size: int, st: State, s: int) {
    if s == 0 then st.zero.Accepting? else IsClient(size, s) && PcOf(st, s).Await?
  }

  function WithCur(st: State, s: int, c: Option<Conn>): State
    requires if s == 0 then st.zero.Accepting? else PcOf(st, s).Await?
  {
    if s == 0 then st.(zero := st.zero.(cur := c)) else st.(pcs := st.pcs[s := PcOf(st, s).(cur := c)])
  }

  predicate CanAccept(size: int, st: State, s: int) {
    Accepts(size, st, s) && Cur(st, s).None? && Backlog(st, s) != []
  }

  function DoAccept(size: int, st: State, s: int): State
    requires CanAccept(size, st, s)
  {
    var q := Backlog(st, s);
    WithCur(st.(backlog := st.backlog[s := q[1..]]), s, Some(q[0]))
  }

  /**
    Reading the rank.  Rank 0 takes the first connection of a rank for its link and then reads a
    third line, which only a main connection sends; the second one becomes its barrier.
  */
  predicate CanIdentify(size: int, st: State, s: int) {
    && Accepts(size, st, s) && Cur(st, s).Some?
    && var c := Cur(st, s).value;
       c in st.said && (s == 0 && (0, c.client) !in st.fds ==> c.kind.Main?)
  }

  function DoIdentify(size: int, st: State, s: int): State
    requires CanIdentify(size, st, s)
  {
    var c := Cur(st, s).value;
    if s == 0 then
      var n := st.zero.n + 1;
      var first := (0, c.client) !in st.fds;
      st.(zero := if n == 2 * (size - 1) then Telling(1, 1) else Accepting(n, None),
          fds := if first then st.fds[(0, c.client) := c] else st.fds,
          barrier := if first then st.barrier else st.barrier[c.client := c])
    else
      var left := PcOf(st, s).left;
      st.(pcs := st.pcs[s := AfterAccepting(size, s, if left > 0 then left - 1 else 0)],
          fds := st.fds[(s, c.client) := c])
  }

  predicate CanTell(st: State) { st.zero.Telling? }

  /** The double loop that passes on port i to rank `to`. */
  function DoTell(size: int, st: State): State
    requires CanTell(st)
  {
    var i, to := st.zero.i, st.zero.to;
    st.(told := if i == to then st.told else st.told[to := Told(st, to) + 1],
        books := if i == to then st.books else WritePort(st.books, to, i),
        zero := if to + 1 < size then Telling(i, to + 1)
                else if i + 1 < size then Telling(i + 1, 1) else Ready)
  }

  datatype Step = StepOpen(r: int) | StepSay(r: int) | StepLearn(r: int) | StepAccept(s: int) | StepIdentify(s: int) | StepTell

  predicate Enabled(size: int, room: nat, st: State, a: Step) {
    match a
    case StepOpen(r) => CanOpen(size, room, st, r)
    case StepSay(r) => CanSay(size, st, r)
    case StepLearn(r) => CanLearn(size, st, r)
    case StepAccept(s) => CanAccept(size, st, s)
    case StepIdentify(s) => CanIdentify(size, st, s)
    case StepTell => CanTell(st)
  }

  function Apply(size: int, room: nat, st: State, a: Step): State
    requires Enabled(size, room, st, a)
  {
    match a
    case StepOpen(r) => DoOpen(st, r)
    case StepSay(r) => DoSay(size, st, r)
    case StepLearn(r) => DoLearn(size, st, r)
    case StepAccept(s) => DoAccept(size, st, s)
    case StepIdentify(s) => DoIdentify(size, st, s)
    case StepTell => DoTell(size, st)
  }

  ghost predicate Run(size: int, room: nat, from: State, steps: seq<Step>, to: State)
    decreases |steps|
  {
    if steps == [] then from == to
    else Enabled(size, room, from, steps[0]) && Run(size, room, Apply(size, room, from, steps[0]), steps[1..], to)
  }

  // ---------------------------------------------------------------------------
  // The invariant
  // ---------------------------------------------------------------------------

  /** The connections that are ever made. */
  predicate IsConn(size: int, c: Conn) {
    && IsClient(size, c.client)
    && if c.kind.Peer? then c.client < c.server < size else c.server == 0
  }

  /** The client has opened the connection; it has named itself on it. */
  predicate Opened(st: State, c: Conn) {
    var pc := PcOf(st, c.client);
    match c.kind
    case Main => !pc.OpenMain?
    case Barrier => !pc.OpenMain? && !pc.SayMain? && !pc.OpenBarrier?
    case Peer => pc.Done? || (pc.Open? && c.server < pc.to) || (pc.Say? && c.server <= pc.to)
  }

  predicate Named(st: State, c: Conn) {
    Opened(st, c) && !(Says(PcOf(st, c.client)) && Own(c.client, PcOf(st, c.client)) == Some(c))
  }

  /** The server has stored the connection. */
  predicate Held(st: State, c: Conn) {
    match c.kind
    case Main => (0, c.client) in st.fds
    case Barrier => c.client in st.barrier
    case Peer => (c.server, c.client) in st.fds
  }

  predicate Queued(st: State, c: Conn) { c in Backlog(st, c.server) }

  predicate Current(st: State, c: Conn) { Cur(st, c.server) == Some(c) }

  /** An opened connection is in exactly one place on the server's side. */
  predicate ConnOk(st: State, c: Conn) {
    && (Opened(st, c) <==> Queued(st, c) || Current(st, c) || Held(st, c))
    && !(Queued(st, c) && (Current(st, c) || Held(st, c)))
    && !(Current(st, c) && Held(st, c))
    && (c in st.said <==> Named(st, c))
  }

  predicate QueueOk(size: int, st: State, s: int) {
    && Distinct(Backlog(st, s))
    && (forall c :: c in Backlog(st, s) ==> IsConn(size, c) && c.server == s)
    && (Cur(st, s).Some? ==> IsConn(size, Cur(st, s).value) && Cur(st, s).value.server == s)
  }

  /** The main connection of a rank comes before its barrier connection. */
  predicate OrderOk(st: State, k: int) {
    var m, b, q := Conn(k, 0, Main), Conn(k, 0, Barrier), Backlog(st, 0);
    && (Current(st, b) || Held(st, b) ==> Held(st, m))
    && forall i, j :: 0 <= i < |q| && 0 <= j < |q| && q[i] == b && q[j] == m ==> j < i
  }

  /** The one link between two ranks. */
  function Link(i: int, j: int): Conn {
    if i == 0 then Conn(j, 0, Main) else if j == 0 then Conn(i, 0, Main)
    else if i < j then Conn(i, j, Peer) else Conn(j, i, Peer)
  }

  /** What is stored is the right link, and a client stores what it has opened. */
  predicate FdsOk(size: int, st: State, i: int, j: int) {
    && ((i, j) in st.fds ==> st.fds[(i, j)] == Link(i, j))
    && (IsClient(size, i) && j == 0 ==> ((i, j) in st.fds <==> Opened(st, Link(i, j))))
    && (IsClient(size, i) && i < j < size ==> ((i, j) in st.fds <==> Named(st, Link(i, j))))
  }

  ghost function MainsHeld(size: int, st: State): set<int> {
    set k | k in Range(1, size) && Held(st, Conn(k, 0, Main))
  }

  ghost function BarriersHeld(size: int, st: State): set<int> {
    set k | k in Range(1, size) && Held(st, Conn(k, 0, Barrier))
  }

  ghost function PeersHeld(st: State, r: int): set<int> {
    set i | i in Range(1, r) && Held(st, Conn(i, r, Peer))
  }

  /** Rank 0 has counted exactly what it holds. */
  ghost predicate ZeroOk(size: int, st: State) {
    var held := |MainsHeld(size, st)| + |BarriersHeld(size, st)|;
    match st.zero
    case Accepting(n, cur) => n == held && n < 2 * (size - 1)
    case Telling(i, to) => held == 2 * (size - 1) && 1 <= i < size && 1 <= to < size
    case Ready => held == 2 * (size - 1)
  }

  /** So has every other rank; it accepts before it connects. */
  ghost predicate PcOk(size: int, st: State, r: int) {
    match PcOf(st, r)
    case Learn(known) => known < size - 2 && PeersHeld(st, r) == {}
    case Await(left, cur) => 0 < left && |PeersHeld(st, r)| == r - 1 - left
    case Open(to) => r < to < size && |PeersHeld(st, r)| == r - 1
    case Say(to) => r < to < size && |PeersHeld(st, r)| == r - 1
    case Done => |PeersHeld(st, r)| == r - 1
    case _ => PeersHeld(st, r) == {}
  }

  /** How many ports rank 0 has passed on to r. */
  function Passed(size: int, zero: Zero, r: int): int {
    match zero
    case Accepting(_, _) => 0
    case Telling(i, to) =>
      (i - 1) - (if r < i then 1 else 0) + (if r < to && r != i then 1 else 0)
    case Ready => size - 2
  }

  predicate ToldOk(size: int, st: State, r: int) {
    Told(st, r) == Passed(size, st.zero, r)
  }

  ghost predicate Conns(size: int, st: State) { forall c :: IsConn(size, c) ==> ConnOk(st, c) }
  ghost predicate Queues(size: int, st: State) { forall s :: 0 <= s < size ==> QueueOk(size, st, s) }
  ghost predicate Orders(size: int, st: State) { forall k :: IsClient(size, k) ==> OrderOk(st, k) }
  ghost predicate Links(size: int, st: State) { forall i, j :: FdsOk(size, st, i, j) }
  ghost predicate Pcs(size: int, st: State) { forall r :: IsClient(size, r) ==> PcOk(size, st, r) }
  ghost predicate Ports(size: int, st: State) { forall r :: IsClient(size, r) ==> ToldOk(size, st, r) }

  ghost predicate Inv(size: int, st: State) {
    && Conns(size, st) && Queues(size, st) && Orders(size, st) && Links(size, st)
    && ZeroOk(size, st) && Pcs(size, st) && Ports(size, st)
  }

  // ---------------------------------------------------------------------------
  // Every step keeps the invariant
  // ---------------------------------------------------------------------------

  lemma {:induction false} StartInv(size: int)
    requires size >= 2
    ensures Inv(size, Start(size))
  {
    assert MainsHeld(size, Start(size)) == {} && BarriersHeld(size, Start(size)) == {};
    forall r | IsClient(size, r)
      ensures PcOk(size, Start(size), r) && ToldOk(size, Start(size), r)
    {
      assert PeersHeld(Start(size), r) == {};
    }
  }

  ghost predicate SameHeld(size: int, st: State, su: State) {
    forall c :: IsConn(size, c) ==> Held(st, c) == Held(su, c)
  }

  /** The sets of held connections do not change. */
  lemma {:induction false} HeldFrame(size: int, st: State, su: State)
    requires SameHeld(size, st, su)
    ensures MainsHeld(size, st) == MainsHeld(size, su) && BarriersHeld(size, st) == BarriersHeld(size, su)
    ensures forall r :: IsClient(size, r) ==> PeersHeld(st, r) == PeersHeld(su, r)
  {
    forall k | k in Range(1, size)
      ensures Held(st, Conn(k, 0, Main)) == Held(su, Conn(k, 0, Main))
      ensures Held(st, Conn(k, 0, Barrier)) == Held(su, Conn(k, 0, Barrier))
    {
      assert IsConn(size, Conn(k, 0, Main)) && IsConn(size, Conn(k, 0, Barrier));
    }
    forall r | IsClient(size, r)
      ensures PeersHeld(st, r) == PeersHeld(su, r)
    {
      forall i | i in Range(1, r)
        ensures Held(st, Conn(i, r, Peer)) == Held(su, Conn(i, r, Peer))
      {
        assert IsConn(size, Conn(i, r, Peer));
      }
    }
  }

  /** What a client opens next is a connection it has not opened before. */
  lemma {:induction false} OwnIsConn(size: int, st: State, r: int)
    requires Inv(size, st) && IsClient(size, r) && (Opens(PcOf(st, r)) || Says(PcOf(st, r)))
    ensures var c := Own(r, PcOf(st, r)).value;
            && IsConn(size, c) && c.client == r && ConnOk(st, c)
            && (Opened(st, c) <==> Says(PcOf(st, r)))
            && (Opens(PcOf(st, r)) ==> c !in Backlog(st, c.server))
  {
    assert PcOk(size, st, r);
    assert ConnOk(st, Own(r, PcOf(st, r)).value);
  }

  // ---------------------------------------------------------------------------
  // Opening
  // ---------------------------------------------------------------------------

  /** Opening puts one new connection into its listener's queue. */
  lemma {:induction false} OpenEffect(size: int, room: nat, st: State, r: int, c: Conn)
    requires Inv(size, st) && CanOpen(size, room, st, r) && IsConn(size, c)
    ensures var su, own := DoOpen(st, r), Own(r, PcOf(st, r)).value;
            && (Opened(su, c) <==> Opened(st, c) || c == own)
            && Named(su, c) == Named(st, c)
            && (Queued(su, c) <==> Queued(st, c) || c == own)
            && Current(su, c) == Current(st, c) && Held(su, c) == Held(st, c)
  {
    OwnIsConn(size, st, r);
  }

  lemma {:induction false} OpenConn(size: int, room: nat, st: State, r: int, c: Conn)
    requires Inv(size, st) && CanOpen(size, room, st, r) && IsConn(size, c)
    ensures ConnOk(DoOpen(st, r), c) && Held(DoOpen(st, r), c) == Held(st, c)
  {
    OwnIsConn(size, st, r);
    OpenEffect(size, room, st, r, c);
    assert ConnOk(st, c);
  }

  lemma {:induction false} OpenConns(size: int, room: nat, st: State, r: int)
    requires Inv(size, st) && CanOpen(size, room, st, r)
    ensures Conns(size, DoOpen(st, r)) && SameHeld(size, st, DoOpen(st, r))
  {
    forall c | IsConn(size, c)
      ensures ConnOk(DoOpen(st, r), c) && Held(DoOpen(st, r), c) == Held(st, c)
    {
      OpenConn(size, room, st, r, c);
    }
  }

  lemma {:induction false} OpenQueues(size: int, room: nat, st: State, r: int)
    requires Inv(size, st) && CanOpen(size, room, st, r)
    ensures Queues(size, DoOpen(st, r))
  {
    OwnIsConn(size, st, r);
    forall s | 0 <= s < size
      ensures QueueOk(size, DoOpen(st, r), s)
    {
      assert QueueOk(size, st, s);
      OpenQueue(size, st, r, s);
    }
  }

  lemma {:induction false} OpenQueue(size: int, st: State, r: int, s: int)
    requires IsClient(size, r) && Opens(PcOf(st, r)) && 0 <= s < size && QueueOk(size, st, s)
    requires var c := Own(r, PcOf(st, r)).value; IsConn(size, c) && c !in Backlog(st, c.server)
    ensures QueueOk(size, DoOpen(st, r), s)
  {
  }

  lemma {:induction false} OpenOrders(size: int, room: nat, st: State, r: int)
    requires Inv(size, st) && CanOpen(size, room, st, r)
    ensures Orders(size, DoOpen(st, r))
  {
    forall k | IsClient(size, k)
      ensures OrderOk(DoOpen(st, r), k)
    {
      var m, b := Conn(k, 0, Main), Conn(k, 0, Barrier);
      assert IsConn(size, m) && IsConn(size, b);
      assert ConnOk(st, m) && ConnOk(st, b) && OrderOk(st, k) && QueueOk(size, st, 0);
    }
  }

  lemma {:induction false} OpenLinks(size: int, room: nat, st: State, r: int)
    requires Inv(size, st) && CanOpen(size, room, st, r)
    ensures Links(size, DoOpen(st, r))
  {
    OwnIsConn(size, st, r);
    forall i, j
      ensures FdsOk(size, DoOpen(st, r), i, j)
    {
      assert FdsOk(size, st, i, j);
    }
  }

  lemma {:induction false} OpenRest(size: int, room: nat, st: State, r: int)
    requires Inv(size, st) && CanOpen(size, room, st, r) && SameHeld(size, st, DoOpen(st, r))
    ensures ZeroOk(size, DoOpen(st, r)) && Pcs(size, DoOpen(st, r)) && Ports(size, DoOpen(st, r))
  {
    HeldFrame(size, st, DoOpen(st, r));
    forall k | IsClient(size, k)
      ensures PcOk(size, DoOpen(st, r), k) && ToldOk(size, DoOpen(st, r), k)
    {
      assert PcOk(size, st, k) && ToldOk(size, st, k);
    }
  }

  lemma {:induction false} OpenKeepsInv(size: int, room: nat, st: State, r: int)
    requires size >= 2 && Inv(size, st) && CanOpen(size, room, st, r)
    ensures Inv(size, DoOpen(st, r))
  {
    OpenConns(size, room, st, r);
    OpenQueues(size, room, st, r);
    OpenOrders(size, room, st, r);
    OpenLinks(size, room, st, r);
    OpenRest(size, room, st, r);
  }

  // ---------------------------------------------------------------------------
  // Naming
  // ---------------------------------------------------------------------------

  /** Naming changes nothing but what has been named. */
  lemma {:induction false} SayEffect(size: int, st: State, r: int, c: Conn)
    requires Inv(size, st) && CanSay(size, st, r) && IsConn(size, c)
    ensures var su, own := DoSay(size, st, r), Own(r, PcOf(st, r)).value;
            && Opened(su, c) == Opened(st, c)
            && (Named(su, c) <==> Named(st, c) || c == own)
            && Current(su, c) == Current(st, c) && Held(su, c) == Held(st, c)
  {
    OwnIsConn(size, st, r);
  }

  lemma {:induction false} SayConns(size: int, st: State, r: int)
    requires Inv(size, st) && CanSay(size, st, r)
    ensures Conns(size, DoSay(size, st, r)) && SameHeld(size, st, DoSay(size, st, r))
  {
    forall c | IsConn(size, c)
      ensures ConnOk(DoSay(size, st, r), c) && Held(DoSay(size, st, r), c) == Held(st, c)
    {
      SayEffect(size, st, r, c);
      assert ConnOk(st, c);
    }
  }

  lemma {:induction false} SayQueues(size: int, st: State, r: int)
    requires Inv(size, st) && CanSay(size, st, r) && SameHeld(size, st, DoSay(size, st, r))
    ensures Queues(size, DoSay(size, st, r)) && Orders(size, DoSay(size, st, r))
  {
    forall s | 0 <= s < size
      ensures QueueOk(size, DoSay(size, st, r), s)
    {
      assert QueueOk(size, st, s);
    }
    forall k | IsClient(size, k)
      ensures OrderOk(DoSay(size, st, r), k)
    {
      assert OrderOk(st, k);
    }
  }

  lemma {:induction false} SayLinks(size: int, st: State, r: int)
    requires Inv(size, st) && CanSay(size, st, r)
    ensures Links(size, DoSay(size, st, r))
  {
    OwnIsConn(size, st, r);
    forall i, j
      ensures FdsOk(size, DoSay(size, st, r), i, j)
    {
      assert FdsOk(size, st, i, j);
      if IsClient(size, i) && (j == 0 || i < j < size) {
        SayEffect(size, st, r, Link(i, j));
      }
    }
  }

  lemma {:induction false} SayRest(size: int, st: State, r: int)
    requires size >= 2 && Inv(size, st) && CanSay(size, st, r) && SameHeld(size, st, DoSay(size, st, r))
    ensures ZeroOk(size, DoSay(size, st, r)) && Pcs(size, DoSay(size, st, r)) && Ports(size, DoSay(size, st, r))
  {
    HeldFrame(size, st, DoSay(size, st, r));
    forall k | IsClient(size, k)
      ensures PcOk(size, DoSay(size, st, r), k) && ToldOk(size, DoSay(size, st, r), k)
    {
      assert PcOk(size, st, k) && ToldOk(size, st, k);
    }
  }

  lemma {:induction false} SayKeepsInv(size: int, st: State, r: int)
    requires size >= 2 && Inv(size, st) && CanSay(size, st, r)
    ensures Inv(size, DoSay(size, st, r))
  {
    SayConns(size, st, r);
    SayQueues(size, st, r);
    SayLinks(size, st, r);
    SayRest(size, st, r);
  }

  // ---------------------------------------------------------------------------
  // Learning and telling
  // ---------------------------------------------------------------------------

  lemma {:induction false} LearnConns(size: int, st: State, r: int)
    requires Inv(size, st) && CanLearn(size, st, r)
    ensures Conns(size, DoLearn(size, st, r)) && SameHeld(size, st, DoLearn(size, st, r))
  {
    var su := DoLearn(size, st, r);
    forall c | IsConn(size, c)
      ensures ConnOk(su, c) && Held(su, c) == Held(st, c)
    {
      assert ConnOk(st, c);
    }
  }

  lemma {:induction false} LearnKeepsInv(size: int, st: State, r: int)
    requires size >= 2 && Inv(size, st) && CanLearn(size, st, r)
    ensures Inv(size, DoLearn(size, st, r))
  {
    var su := DoLearn(size, st, r);
    LearnConns(size, st, r);
    HeldFrame(size, st, su);
    LearnRest(size, st, r);
    forall k | IsClient(size, k)
      ensures PcOk(size, su, k) && ToldOk(size, su, k)
    {
      assert PcOk(size, st, k) && ToldOk(size, st, k);
    }
  }

  lemma {:induction false} LearnRest(size: int, st: State, r: int)
    requires size >= 2 && Inv(size, st) && CanLearn(size, st, r)
    ensures Queues(size, DoLearn(size, st, r)) && Orders(size, DoLearn(size, st, r)) && Links(size, DoLearn(size, st, r))
  {
    var su := DoLearn(size, st, r);
    forall s | 0 <= s < size
      ensures QueueOk(size, su, s)
    {
      assert QueueOk(size, st, s);
    }
    forall k | IsClient(size, k)
      ensures OrderOk(su, k)
    {
      assert OrderOk(st, k);
    }
    forall i, j
      ensures FdsOk(size, su, i, j)
    {
      assert FdsOk(size, st, i, j);
    }
  }

  lemma {:induction false} TellPorts(size: int, st: State)
    requires size >= 2 && Inv(size, st) && CanTell(st)
    ensures Ports(size, DoTell(size, st))
  {
    forall k | IsClient(size, k)
      ensures ToldOk(size, DoTell(size, st), k)
    {
      assert ToldOk(size, st, k);
    }
  }

  lemma {:induction false} TellConns(size: int, st: State)
    requires size >= 2 && Inv(size, st) && CanTell(st)
    ensures Conns(size, DoTell(size, st)) && SameHeld(size, st, DoTell(size, st))
    ensures Orders(size, DoTell(size, st)) && Queues(size, DoTell(size, st))
  {
    var su := DoTell(size, st);
    forall c | IsConn(size, c)
      ensures ConnOk(su, c) && Held(su, c) == Held(st, c)
    {
      assert ConnOk(st, c);
    }
    forall k | IsClient(size, k)
      ensures OrderOk(su, k)
    {
      assert OrderOk(st, k);
    }
    forall s | 0 <= s < size
      ensures QueueOk(size, su, s)
    {
      assert QueueOk(size, st, s);
    }
  }

  lemma {:induction false} TellKeepsInv(size: int, st: State)
    requires size >= 2 && Inv(size, st) && CanTell(st)
    ensures Inv(size, DoTell(size, st))
  {
    var su := DoTell(size, st);
    TellConns(size, st);
    TellPorts(size, st);
    HeldFrame(size, st, su);
    forall k | IsClient(size, k)
      ensures PcOk(size, su, k)
    {
      assert PcOk(size, st, k);
    }
    forall i, j
      ensures FdsOk(size, su, i, j)
    {
      assert FdsOk(size, st, i, j);
    }
  }

  // ---------------------------------------------------------------------------
  // Accepting
  // ---------------------------------------------------------------------------

  /** Accepting takes the first connection out of the queue and nothing else. */
  lemma {:induction false} AcceptEffect(size: int, st: State, s: int, c: Conn)
    requires Queues(size, st) && CanAccept(size, st, s) && IsConn(size, c) && 0 <= s < size
    ensures var su, first := DoAccept(size, st, s), Backlog(st, s)[0];
            && first.server == s
            && Opened(su, c) == Opened(st, c) && Named(su, c) == Named(st, c) && Held(su, c) == Held(st, c)
            && (Current(su, c) <==> Current(st, c) || c == first)
            && (Queued(su, c) <==> Queued(st, c) && c != first)
            && (c == first ==> Queued(st, c))
  {
    assert QueueOk(size, st, s);
    var q := Backlog(st, s);
    assert q == [q[0]] + q[1..];
  }

  lemma {:induction false} AcceptConns(size: int, st: State, s: int)
    requires size >= 2 && Inv(size, st) && CanAccept(size, st, s)
    ensures Conns(size, DoAccept(size, st, s)) && SameHeld(size, st, DoAccept(size, st, s))
  {
    forall c | IsConn(size, c)
      ensures ConnOk(DoAccept(size, st, s), c) && Held(DoAccept(size, st, s), c) == Held(st, c)
    {
      assert ConnOk(st, c);
      AcceptEffect(size, st, s, c);
    }
  }

  lemma {:induction false} AcceptQueues(size: int, st: State, s: int)
    requires size >= 2 && Inv(size, st) && CanAccept(size, st, s)
    ensures Queues(size, DoAccept(size, st, s))
  {
    forall x | 0 <= x < size
      ensures QueueOk(size, DoAccept(size, st, s), x)
    {
      assert QueueOk(size, st, x);
    }
  }

  lemma {:induction false} AcceptOrders(size: int, st: State, s: int)
    requires size >= 2 && Inv(size, st) && CanAccept(size, st, s)
    ensures Orders(size, DoAccept(size, st, s))
  {
    forall k | IsClient(size, k)
      ensures OrderOk(DoAccept(size, st, s), k)
    {
      var m, b := Conn(k, 0, Main), Conn(k, 0, Barrier);
      assert IsConn(size, m) && IsConn(size, b);
      assert ConnOk(st, m) && ConnOk(st, b) && OrderOk(st, k);
    }
  }

  lemma {:induction false} AcceptLinks(size: int, st: State, s: int)
    requires size >= 2 && Inv(size, st) && CanAccept(size, st, s)
    ensures Links(size, DoAccept(size, st, s))
  {
    forall i, j
      ensures FdsOk(size, DoAccept(size, st, s), i, j)
    {
      AcceptLink(size, st, s, i, j);
    }
  }

  lemma {:induction false} AcceptLink(size: int, st: State, s: int, i: int, j: int)
    requires CanAccept(size, st, s) && FdsOk(size, st, i, j)
    ensures FdsOk(size, DoAccept(size, st, s), i, j)
  {
  }

  lemma {:induction false} AcceptRest(size: int, st: State, s: int)
    requires size >= 2 && Inv(size, st) && CanAccept(size, st, s) && SameHeld(size, st, DoAccept(size, st, s))
    ensures ZeroOk(size, DoAccept(size, st, s)) && Pcs(size, DoAccept(size, st, s)) && Ports(size, DoAccept(size, st, s))
  {
    var su := DoAccept(size, st, s);
    HeldFrame(size, st, su);
    forall k | IsClient(size, k)
      ensures PcOk(size, su, k) && ToldOk(size, su, k)
    {
      assert PcOk(size, st, k) && ToldOk(size, st, k);
    }
  }

  lemma {:induction false} AcceptKeepsInv(size: int, st: State, s: int)
    requires size >= 2 && Inv(size, st) && CanAccept(size, st, s)
    ensures Inv(size, DoAccept(size, st, s))
  {
    AcceptConns(size, st, s);
    AcceptQueues(size, st, s);
    AcceptOrders(size, st, s);
    AcceptLinks(size, st, s);
    AcceptRest(size, st, s);
  }

  // ---------------------------------------------------------------------------
  // Identifying
  // ---------------------------------------------------------------------------

  /** The connection being read is neither stored yet nor waiting. */
  lemma {:induction false} CurrentIsNew(size: int, st: State, s: int)
    requires size >= 2 && Inv(size, st) && Accepts(size, st, s) && Cur(st, s).Some?
    ensures var c := Cur(st, s).value;
            && IsConn(size, c) && c.server == s && Opened(st, c) && !Held(st, c) && !Queued(st, c) && ConnOk(st, c)
            && (s == 0 ==> ((0, c.client) in st.fds <==> c.kind.Barrier?))
  {
    assert QueueOk(size, st, s);
    var c := Cur(st, s).value;
    assert ConnOk(st, c);
    if c.kind.Barrier? {
      assert OrderOk(st, c.client);
    }
  }

  /** Identifying moves no client on but the listener itself, which opens nothing by it. */
  lemma {:induction false} IdentifyOpened(size: int, st: State, s: int, c: Conn)
    requires size >= 2 && Inv(size, st) && CanIdentify(size, st, s) && IsConn(size, c)
    ensures var su := DoIdentify(size, st, s); Opened(su, c) == Opened(st, c) && Named(su, c) == Named(st, c)
  {
    if IsClient(size, s) {
      assert PcOk(size, st, s);
    }
  }

  /** Identifying stores the connection that was being read, and only that. */
  lemma {:induction false} IdentifyEffect(size: int, st: State, s: int, c: Conn)
    requires size >= 2 && Inv(size, st) && CanIdentify(size, st, s) && IsConn(size, c)
    ensures var su, x := DoIdentify(size, st, s), Cur(st, s).value;
            && Queued(su, c) == Queued(st, c)
            && (Held(su, c) <==> Held(st, c) || c == x)
            && (Current(su, c) <==> Current(st, c) && c != x)
  {
    CurrentIsNew(size, st, s);
  }

  lemma {:induction false} IdentifyConns(size: int, st: State, s: int)
    requires size >= 2 && Inv(size, st) && CanIdentify(size, st, s)
    ensures Conns(size, DoIdentify(size, st, s))
  {
    CurrentIsNew(size, st, s);
    forall c | IsConn(size, c)
      ensures ConnOk(DoIdentify(size, st, s), c)
    {
      assert ConnOk(st, c);
      IdentifyEffect(size, st, s, c);
      IdentifyOpened(size, st, s, c);
    }
  }

  lemma {:induction false} IdentifyQueues(size: int, st: State, s: int)
    requires size >= 2 && Inv(size, st) && CanIdentify(size, st, s)
    ensures Queues(size, DoIdentify(size, st, s))
  {
    forall x | 0 <= x < size
      ensures QueueOk(size, DoIdentify(size, st, s), x)
    {
      assert QueueOk(size, st, x);
    }
  }

  lemma {:induction false} IdentifyOrders(size: int, st: State, s: int)
    requires size >= 2 && Inv(size, st) && CanIdentify(size, st, s)
    ensures Orders(size, DoIdentify(size, st, s))
  {
    CurrentIsNew(size, st, s);
    forall k | IsClient(size, k)
      ensures OrderOk(DoIdentify(size, st, s), k)
    {
      var m, b := Conn(k, 0, Main), Conn(k, 0, Barrier);
      assert IsConn(size, m) && IsConn(size, b);
      IdentifyEffect(size, st, s, m);
      IdentifyEffect(size, st, s, b);
      assert OrderOk(st, k);
    }
  }

  lemma {:induction false} IdentifyLinks(size: int, st: State, s: int)
    requires size >= 2 && Inv(size, st) && CanIdentify(size, st, s)
    ensures Links(size, DoIdentify(size, st, s))
  {
    var su := DoIdentify(size, st, s);
    forall i, j
      ensures FdsOk(size, su, i, j)
    {
      assert FdsOk(size, st, i, j);
      IdentifyLink(size, st, s, i, j);
    }
  }

  /** A client's own links are untouched when it, or another, identifies. */
  lemma {:induction false} IdentifyLink(size: int, st: State, s: int, i: int, j: int)
    requires size >= 2 && Inv(size, st) && CanIdentify(size, st, s)
    ensures var su := DoIdentify(size, st, s);
            && ((i, j) in su.fds ==> ((i, j) in st.fds && su.fds[(i, j)] == st.fds[(i, j)])
                                     || (i == s && (i == 0 || j < i) && su.fds[(i, j)] == Link(i, j)))
            && (IsClient(size, i) && (j == 0 || i < j < size) ==>
                 ((i, j) in su.fds <==> (i, j) in st.fds)
                 && Opened(su, Link(i, j)) == Opened(st, Link(i, j)) && Named(su, Link(i, j)) == Named(st, Link(i, j)))
  {
    CurrentIsNew(size, st, s);
    if IsClient(size, i) && (j == 0 || i < j < size) {
      IdentifyOpened(size, st, s, Link(i, j));
    }
  }

  /** A set that gains one element, if any. */
  lemma {:induction false} Gains<T(!new)>(a: set<T>, b: set<T>, x: T, gains: bool)
    requires forall k :: k in b <==> k in a || (gains && k == x)
    requires gains ==> x !in a
    ensures |b| == |a| + if gains then 1 else 0
    ensures !gains ==> b == a
  {
    if gains {
      assert b == a + {x};
    } else {
      assert b == a;
    }
  }

  lemma {:induction false} MainsGrow(size: int, st: State, s: int)
    requires size >= 2 && Inv(size, st) && CanIdentify(size, st, s)
    ensures |MainsHeld(size, DoIdentify(size, st, s))|
         == |MainsHeld(size, st)| + if Cur(st, s).value.kind.Main? then 1 else 0
  {
    var su, x := DoIdentify(size, st, s), Cur(st, s).value;
    CurrentIsNew(size, st, s);
    forall k
      ensures k in MainsHeld(size, su) <==> k in MainsHeld(size, st) || (x.kind.Main? && k == x.client)
    {
      if 1 <= k < size {
        IdentifyEffect(size, st, s, Conn(k, 0, Main));
        assert Within(k, 1, size);
      }
    }
    Gains(MainsHeld(size, st), MainsHeld(size, su), x.client, x.kind.Main?);
  }

  lemma {:induction false} BarriersGrow(size: int, st: State, s: int)
    requires size >= 2 && Inv(size, st) && CanIdentify(size, st, s)
    ensures |BarriersHeld(size, DoIdentify(size, st, s))|
         == |BarriersHeld(size, st)| + if Cur(st, s).value.kind.Barrier? then 1 else 0
  {
    var su, x := DoIdentify(size, st, s), Cur(st, s).value;
    CurrentIsNew(size, st, s);
    forall k
      ensures k in BarriersHeld(size, su) <==> k in BarriersHeld(size, st) || (x.kind.Barrier? && k == x.client)
    {
      if 1 <= k < size {
        IdentifyEffect(size, st, s, Conn(k, 0, Barrier));
        assert Within(k, 1, size);
      }
    }
    Gains(BarriersHeld(size, st), BarriersHeld(size, su), x.client, x.kind.Barrier?);
  }

  lemma {:induction false} PeersGrow(size: int, st: State, s: int, r: int)
    requires size >= 2 && Inv(size, st) && CanIdentify(size, st, s) && IsClient(size, r)
    ensures var su := DoIdentify(size, st, s);
            && (r != s ==> PeersHeld(su, r) == PeersHeld(st, r))
            && (r == s ==> |PeersHeld(su, r)| == |PeersHeld(st, r)| + 1)
  {
    var su, x := DoIdentify(size, st, s), Cur(st, s).value;
    CurrentIsNew(size, st, s);
    forall i
      ensures i in PeersHeld(su, r) <==> i in PeersHeld(st, r) || (r == s && i == x.client)
    {
      if 1 <= i < r {
        IdentifyEffect(size, st, s, Conn(i, r, Peer));
        assert Within(i, 1, r);
      }
    }
    Gains(PeersHeld(st, r), PeersHeld(su, r), x.client, r == s);
  }

  lemma {:induction false} IdentifyRest(size: int, st: State, s: int)
    requires size >= 2 && Inv(size, st) && CanIdentify(size, st, s)
    ensures ZeroOk(size, DoIdentify(size, st, s)) && Pcs(size, DoIdentify(size, st, s)) && Ports(size, DoIdentify(size, st, s))
  {
    var su := DoIdentify(size, st, s);
    CurrentIsNew(size, st, s);
    MainsGrow(size, st, s);
    BarriersGrow(size, st, s);
    forall k | IsClient(size, k)
      ensures PcOk(size, su, k) && ToldOk(size, su, k)
    {
      assert PcOk(size, st, k) && ToldOk(size, st, k);
      PeersGrow(size, st, s, k);
    }
  }

  lemma {:induction false} IdentifyKeepsInv(size: int, st: State, s: int)
    requires size >= 2 && Inv(size, st) && CanIdentify(size, st, s)
    ensures Inv(size, DoIdentify(size, st, s))
  {
    IdentifyConns(size, st, s);
    IdentifyQueues(size, st, s);
    IdentifyOrders(size, st, s);
    IdentifyLinks(size, st, s);
    IdentifyRest(size, st, s);
  }

  lemma {:induction false} StepKeepsInv(size: int, room: nat, st: State, a: Step)
    requires size >= 2 && Inv(size, st) && Enabled(size, room, st, a)
    ensures Inv(size, Apply(size, room, st, a))
  {
    match a
    case StepOpen(r) => OpenKeepsInv(size, room, st, r);
    case StepSay(r) => SayKeepsInv(size, st, r);
    case StepLearn(r) => LearnKeepsInv(size, st, r);
    case StepAccept(s) => AcceptKeepsInv(size, st, s);
    case StepIdentify(s) => IdentifyKeepsInv(size, st, s);
    case StepTell => TellKeepsInv(size, st);
  }

  lemma {:induction false} RunKeepsInv(size: int, room: nat, from: State, steps: seq<Step>, to: State)
    requires size >= 2 && Inv(size, from) && Run(size, room, from, steps, to)
    ensures Inv(size, to)
    decreases |steps|
  {
    if steps != [] {
      StepKeepsInv(size, room, from, steps[0]);
      RunKeepsInv(size, room, Apply(size, room, from, steps[0]), steps[1..], to);
    }
  }

  // ---------------------------------------------------------------------------
  // Progress
  // ---------------------------------------------------------------------------

  predicate Finished(size: int, st: State) {
    st.zero.Ready? && forall r :: 1 <= r < size ==> PcOf(st, r).Done?
  }

  ghost predicate CanStep(size: int, room: nat, st: State) {
    exists a :: Enabled(size, room, st, a)
  }

  /** A connection that is being read will name itself, if it has not. */
  lemma {:induction false} CurrentMoves(size: int, room: nat, st: State, s: int)
    requires size >= 2 && Inv(size, st) && Accepts(size, st, s) && Cur(st, s).Some?
    ensures CanStep(size, room, st)
  {
    var c := Cur(st, s).value;
    CurrentIsNew(size, st, s);
    if c in st.said {
      assert Enabled(size, room, st, StepIdentify(s));
    } else {
      assert Enabled(size, room, st, StepSay(c.client));
    }
  }

  lemma {:induction false} AcceptorMoves(size: int, room: nat, st: State, s: int)
    requires size >= 2 && Inv(size, st) && Accepts(size, st, s) && (Cur(st, s).Some? || Backlog(st, s) != [])
    ensures CanStep(size, room, st)
  {
    if Cur(st, s).Some? {
      CurrentMoves(size, room, st, s);
    } else {
      assert Enabled(size, room, st, StepAccept(s));
    }
  }

  /** Before it is ready, rank 0 or some client can always go on. */
  lemma {:induction false} ZeroMoves(size: int, room: nat, st: State)
    requires size >= 2 && room >= 1 && Inv(size, st) && !st.zero.Ready?
    ensures CanStep(size, room, st)
  {
    if st.zero.Telling? {
      assert Enabled(size, room, st, StepTell);
    } else if Cur(st, 0).Some? || Backlog(st, 0) != [] {
      AcceptorMoves(size, room, st, 0);
    } else {
      var c := MissingAtZero(size, st);
      assert ConnOk(st, c);
      var r := c.client;
      if Says(PcOf(st, r)) {
        assert Enabled(size, room, st, StepSay(r));
      } else {
        assert Enabled(size, room, st, StepOpen(r));
      }
    }
  }

  lemma {:induction false} AllCounted(size: int, st: State)
    requires size >= 2
    requires forall k: int :: 1 <= k < size ==> Held(st, Conn(k, 0, Main)) && Held(st, Conn(k, 0, Barrier))
    ensures |MainsHeld(size, st)| == size - 1 && |BarriersHeld(size, st)| == size - 1
  {
    RangeSize(1, size);
    assert MainsHeld(size, st) == Range(1, size) && BarriersHeld(size, st) == Range(1, size);
  }

  /** If rank 0 still expects a connection, some rank has not opened one of its two. */
  lemma {:induction false} MissingAtZero(size: int, st: State) returns (c: Conn)
    requires size >= 2 && Inv(size, st) && st.zero.Accepting? && Cur(st, 0).None? && Backlog(st, 0) == []
    ensures IsConn(size, c) && c.server == 0 && !Opened(st, c)
  {
    RangeSize(1, size);
    if k: int :| 1 <= k < size && !Held(st, Conn(k, 0, Main)) {
      c := Conn(k, 0, Main);
    } else if k: int :| 1 <= k < size && !Held(st, Conn(k, 0, Barrier)) {
      c := Conn(k, 0, Barrier);
    } else {
      AllCounted(size, st);
      assert false;
    }
    assert ConnOk(st, c);
  }

  /** Once rank 0 is ready, the lowest unfinished rank, or whoever it waits for, can go on. */
  lemma {:induction false} LowestMoves(size: int, room: nat, st: State, r: int)
    requires size >= 2 && room >= 1 && Inv(size, st) && st.zero.Ready?
    requires IsClient(size, r) && !PcOf(st, r).Done? && forall k :: 1 <= k < r ==> PcOf(st, k).Done?
    ensures CanStep(size, room, st)
  {
    assert PcOk(size, st, r) && ToldOk(size, st, r);
    match PcOf(st, r)
    case Learn(_) => assert Enabled(size, room, st, StepLearn(r));
    case Await(left, cur) =>
      if cur.None? && Backlog(st, r) == [] {
        AllPeersHeld(size, st, r);
        assert false;
      } else {
        AcceptorMoves(size, room, st, r);
      }
    case Open(to) => OpenMoves(size, room, st, r, to);
    case Say(_) => assert Enabled(size, room, st, StepSay(r));
    case SayBarrier => assert Enabled(size, room, st, StepSay(r));
    case _ => AllHeldAtZero(size, st, r); assert false;
  }

  /** A listener with nothing waiting whose lower ranks are all done has all its connections. */
  lemma {:induction false} AllPeersHeld(size: int, st: State, r: int)
    requires size >= 2 && Inv(size, st) && IsClient(size, r) && Cur(st, r).None? && Backlog(st, r) == []
    requires forall k :: 1 <= k < r ==> PcOf(st, k).Done?
    ensures |PeersHeld(st, r)| == r - 1
  {
    RangeSize(1, r);
    forall i | i in Range(1, r)
      ensures i in PeersHeld(st, r)
    {
      assert IsConn(size, Conn(i, r, Peer)) && ConnOk(st, Conn(i, r, Peer));
    }
    assert PeersHeld(st, r) == Range(1, r);
  }

  /** When rank 0 is ready, every rank has opened both of its connections to it. */
  lemma {:induction false} AllHeldAtZero(size: int, st: State, r: int)
    requires size >= 2 && Inv(size, st) && st.zero.Ready? && IsClient(size, r)
    ensures Opened(st, Conn(r, 0, Barrier))
    ensures !PcOf(st, r).OpenMain? && !PcOf(st, r).SayMain? && !PcOf(st, r).OpenBarrier?
    ensures PcOf(st, r).SayBarrier? ==> CanSay(size, st, r)
  {
    RangeSize(1, size);
    SubsetSize(MainsHeld(size, st), Range(1, size));
    SubsetSize(BarriersHeld(size, st), Range(1, size));
    SameSize(BarriersHeld(size, st), Range(1, size));
    assert Within(r, 1, size) && r in BarriersHeld(size, st);
    assert IsConn(size, Conn(r, 0, Barrier)) && ConnOk(st, Conn(r, 0, Barrier));
  }

  /** A connect waits only for a listener that is still accepting. */
  lemma {:induction false} OpenMoves(size: int, room: nat, st: State, r: int, to: int)
    requires size >= 2 && room >= 1 && Inv(size, st) && st.zero.Ready? && IsClient(size, r) && PcOf(st, r) == Open(to)
    ensures CanStep(size, room, st)
  {
    assert PcOk(size, st, r) && IsClient(size, to);
    if |Backlog(st, to)| < room {
      assert Enabled(size, room, st, StepOpen(r));
    } else {
      assert PcOk(size, st, to) && ToldOk(size, st, to);
      AllHeldAtZero(size, st, to);
      match PcOf(st, to)
      case Learn(_) => assert Enabled(size, room, st, StepLearn(to));
      case Await(_, _) => AcceptorMoves(size, room, st, to);
      case SayBarrier => assert Enabled(size, room, st, StepSay(to));
      case _ => NothingQueued(size, st, to);
    }
  }

  lemma {:induction false} AllStored(size: int, st: State, s: int)
    requires size >= 2 && IsClient(size, s) && |PeersHeld(st, s)| == s - 1
    ensures forall c :: IsConn(size, c) && c.server == s ==> Held(st, c)
  {
    RangeSize(1, s);
    SameSize(PeersHeld(st, s), Range(1, s));
    forall c | IsConn(size, c) && c.server == s
      ensures Held(st, c)
    {
      assert Within(c.client, 1, s) && c.client in PeersHeld(st, s);
    }
  }

  lemma {:induction false} QueuedIsNotHeld(size: int, st: State, s: int)
    requires size >= 2 && Inv(size, st) && 0 <= s < size && Backlog(st, s) != []
    ensures var c := Backlog(st, s)[0]; IsConn(size, c) && c.server == s && !Held(st, c)
  {
    var c := Backlog(st, s)[0];
    assert QueueOk(size, st, s) && c in Backlog(st, s);
    assert ConnOk(st, c);
  }

  /** A rank that is past accepting has nothing left in its queue. */
  lemma {:induction false} NothingQueued(size: int, st: State, s: int)
    requires size >= 2 && Inv(size, st) && IsClient(size, s) && |PeersHeld(st, s)| == s - 1
    ensures Backlog(st, s) == []
  {
    AllStored(size, st, s);
    if Backlog(st, s) != [] {
      QueuedIsNotHeld(size, st, s);
      assert false;
    }
  }

  lemma {:induction false} LowestUndone(size: int, st: State, k: int) returns (r: int)
    requires 1 <= k < size && !PcOf(st, k).Done?
    ensures 1 <= r <= k && !PcOf(st, r).Done? && forall j :: 1 <= j < r ==> PcOf(st, j).Done?
    decreases k
  {
    if j: int :| 1 <= j < k && !PcOf(st, j).Done? {
      r := LowestUndone(size, st, j);
    } else {
      r := k;
    }
  }

  /** A process that is alone has nothing to do. */
  lemma {:induction false} Alone(room: nat, steps: seq<Step>, st: State)
    requires Run(1, room, Start(1), steps, st)
    ensures steps == [] && st == Start(1) && Finished(1, st)
  {
  }

  /**
    For every number of processes, every room of at least one in the listeners' queues and every
    interleaving: the startup never gets stuck before every process is through.
  */
  lemma {:induction false} NoDeadlock(size: int, room: nat, steps: seq<Step>, st: State)
    requires size >= 1 && room >= 1 && Run(size, room, Start(size), steps, st)
    ensures Finished(size, st) || CanStep(size, room, st)
  {
    if size == 1 {
      Alone(room, steps, st);
      return;
    }
    StartInv(size);
    RunKeepsInv(size, room, Start(size), steps, st);
    if !st.zero.Ready? {
      ZeroMoves(size, room, st);
    } else if k: int :| 1 <= k < size && !PcOf(st, k).Done? {
      var r := LowestUndone(size, st, k);
      LowestMoves(size, room, st, r);
    }
  }

  lemma {:induction false} LinkIsConn(size: int, i: int, j: int)
    requires 0 <= i < size && 0 <= j < size && i != j
    ensures IsConn(size, Link(i, j)) && Link(i, j) == Link(j, i)
  {
  }

  /** At the end each pair of processes shares one link, stored on both sides, and no two pairs do. */
  lemma {:induction false} MeshIsComplete(size: int, room: nat, steps: seq<Step>, st: State, i: int, j: int)
    requires Run(size, room, Start(size), steps, st) && Finished(size, st)
    requires 0 <= i < size && 0 <= j < size && i != j
    ensures (i, j) in st.fds && (j, i) in st.fds && st.fds[(i, j)] == st.fds[(j, i)]
    ensures forall x, y :: (x, y) in st.fds && st.fds[(x, y)] == st.fds[(i, j)] && 0 <= x < size && 0 <= y < size && x != y
              ==> (x == i && y == j) || (x == j && y == i)
  {
    StartInv(size);
    RunKeepsInv(size, room, Start(size), steps, st);
    assert FdsOk(size, st, i, j) && FdsOk(size, st, j, i);
    LinkIsConn(size, i, j);
    StoredOnBothSides(size, st, if i < j then i else j, if i < j then j else i);
    forall x, y | (x, y) in st.fds && st.fds[(x, y)] == st.fds[(i, j)] && 0 <= x < size && 0 <= y < size && x != y
      ensures (x == i && y == j) || (x == j && y == i)
    {
      assert FdsOk(size, st, x, y);
    }
  }

  lemma {:induction false} StoredOnBothSides(size: int, st: State, i: int, j: int)
    requires size >= 2 && Inv(size, st) && Finished(size, st) && 0 <= i < j < size
    ensures (i, j) in st.fds && (j, i) in st.fds
  {
    LinkIsConn(size, i, j);
    assert FdsOk(size, st, i, j) && FdsOk(size, st, j, i) && ConnOk(st, Link(i, j));
    if i == 0 {
      AllHeldAtZero(size, st, j);
      SameSizeMains(size, st, j);
    } else {
      assert PcOk(size, st, j);
      RangeSize(1, j);
      SameSize(PeersHeld(st, j), Range(1, j));
      assert Within(i, 1, j) && i in PeersHeld(st, j);
    }
  }

  lemma {:induction false} SameSizeMains(size: int, st: State, r: int)
    requires size >= 2 && Inv(size, st) && st.zero.Ready? && IsClient(size, r)
    ensures Held(st, Conn(r, 0, Main))
  {
    RangeSize(1, size);
    SubsetSize(MainsHeld(size, st), Range(1, size));
    SubsetSize(BarriersHeld(size, st), Range(1, size));
    SameSize(MainsHeld(size, st), Range(1, size));
    assert Within(r, 1, size) && r in MainsHeld(size, st);
  }

  // ---------------------------------------------------------------------------
  // The barrier connections
  // ---------------------------------------------------------------------------

  /** Both sides keep the second connection of rank k as its barrier, and no other. */
  predicate BarrierOk(size: int, st: State, k: int) {
    && (k in st.barrier ==> st.barrier[k] == Conn(k, 0, Barrier))
    && (k in st.books.ownBarrier ==> st.books.ownBarrier[k] == Conn(k, 0, Barrier))
    && (IsClient(size, k) && Opened(st, Conn(k, 0, Barrier)) ==> k in st.books.ownBarrier)
  }

  lemma {:induction false} OpenKeepsBarrier(size: int, room: nat, st: State, r: int, k: int)
    requires size >= 2 && Inv(size, st) && CanOpen(size, room, st, r) && BarrierOk(size, st, k)
    ensures BarrierOk(size, DoOpen(st, r), k)
  {
    if IsClient(size, k) {
      OpenEffect(size, room, st, r, Conn(k, 0, Barrier));
    }
  }

  lemma {:induction false} SayKeepsBarrier(size: int, st: State, r: int, k: int)
    requires size >= 2 && Inv(size, st) && CanSay(size, st, r) && BarrierOk(size, st, k)
    ensures BarrierOk(size, DoSay(size, st, r), k)
  {
    if IsClient(size, k) {
      SayEffect(size, st, r, Conn(k, 0, Barrier));
    }
  }

  lemma {:induction false} IdentifyKeepsBarrier(size: int, st: State, s: int, k: int)
    requires size >= 2 && Inv(size, st) && CanIdentify(size, st, s) && BarrierOk(size, st, k)
    ensures BarrierOk(size, DoIdentify(size, st, s), k)
  {
    CurrentIsNew(size, st, s);
    if IsClient(size, k) {
      IdentifyOpened(size, st, s, Conn(k, 0, Barrier));
    }
  }

  lemma {:induction false} AcceptKeepsBarrier(size: int, st: State, s: int, k: int)
    requires size >= 2 && Inv(size, st) && CanAccept(size, st, s) && BarrierOk(size, st, k)
    ensures BarrierOk(size, DoAccept(size, st, s), k)
  {
    if IsClient(size, k) && Accepts(size, st, s) && (s == 0 || IsClient(size, s)) {
      AcceptEffect(size, st, s, Conn(k, 0, Barrier));
    }
  }

  lemma {:induction false} BarrierFrame(size: int, st: State, su: State, k: int)
    requires BarrierOk(size, st, k) && su.barrier == st.barrier && su.books.ownBarrier == st.books.ownBarrier
    requires Opened(su, Conn(k, 0, Barrier)) == Opened(st, Conn(k, 0, Barrier))
    ensures BarrierOk(size, su, k)
  {
  }

  lemma {:induction false} LearnKeepsBarrier(size: int, st: State, r: int, k: int)
    requires size >= 2 && CanLearn(size, st, r) && BarrierOk(size, st, k)
    ensures BarrierOk(size, DoLearn(size, st, r), k)
  {
    BarrierFrame(size, st, DoLearn(size, st, r), k);
  }

  lemma {:induction false} StepKeepsBarrier(size: int, room: nat, st: State, a: Step, k: int)
    requires size >= 2 && Inv(size, st) && Enabled(size, room, st, a) && BarrierOk(size, st, k)
    ensures BarrierOk(size, Apply(size, room, st, a), k)
  {
    match a
    case StepOpen(r) => OpenKeepsBarrier(size, room, st, r, k);
    case StepSay(r) => SayKeepsBarrier(size, st, r, k);
    case StepAccept(s) => AcceptKeepsBarrier(size, st, s, k);
    case StepIdentify(s) => IdentifyKeepsBarrier(size, st, s, k);
    case StepLearn(r) => LearnKeepsBarrier(size, st, r, k);
    case StepTell => BarrierFrame(size, st, DoTell(size, st), k);
  }

  lemma {:induction false} RunKeepsBarrier(size: int, room: nat, from: State, steps: seq<Step>, to: State, k: int)
    requires size >= 2 && Inv(size, from) && BarrierOk(size, from, k) && Run(size, room, from, steps, to)
    ensures BarrierOk(size, to, k)
    decreases |steps|
  {
    if steps != [] {
      StepKeepsInv(size, room, from, steps[0]);
      StepKeepsBarrier(size, room, from, steps[0], k);
      RunKeepsBarrier(size, room, Apply(size, room, from, steps[0]), steps[1..], to, k);
    }
  }

  /** Whatever is stored as a barrier, at any time, is the second connection of that rank to rank 0. */
  lemma {:induction false} BarriersAreSecond(size: int, room: nat, steps: seq<Step>, st: State, k: int)
    requires size >= 1 && Run(size, room, Start(size), steps, st)
    ensures k in st.barrier ==> st.barrier[k] == Conn(k, 0, Barrier)
    ensures k in st.books.ownBarrier ==> st.books.ownBarrier[k] == Conn(k, 0, Barrier)
  {
    if size == 1 {
      Alone(room, steps, st);
    } else {
      StartInv(size);
      RunKeepsBarrier(size, room, Start(size), steps, st, k);
    }
  }

  /**
    At the end rank 0 and each other rank hold the same barrier connection, which is no link of the
    mesh and no barrier of another rank.
  */
  lemma {:induction false} BarriersAreShared(size: int, room: nat, steps: seq<Step>, st: State, k: int)
    requires Run(size, room, Start(size), steps, st) && Finished(size, st) && IsClient(size, k)
    ensures k in st.barrier && k in st.books.ownBarrier && st.barrier[k] == st.books.ownBarrier[k]
    ensures forall x, y :: 0 <= x < size && 0 <= y < size && x != y && (x, y) in st.fds ==> st.fds[(x, y)] != st.barrier[k]
    ensures forall j :: IsClient(size, j) && j != k && j in st.barrier ==> st.barrier[j] != st.barrier[k]
  {
    StartInv(size);
    RunKeepsInv(size, room, Start(size), steps, st);
    RunKeepsBarrier(size, room, Start(size), steps, st, k);
    BarrierHeld(size, st, k);
    forall x, y | 0 <= x < size && 0 <= y < size && x != y && (x, y) in st.fds
      ensures st.fds[(x, y)] != st.barrier[k]
    {
      assert FdsOk(size, st, x, y);
    }
    forall j | IsClient(size, j) && j != k && j in st.barrier
      ensures st.barrier[j] != st.barrier[k]
    {
      RunKeepsBarrier(size, room, Start(size), steps, st, j);
    }
  }

  lemma {:induction false} BarrierHeld(size: int, st: State, r: int)
    requires size >= 2 && Inv(size, st) && st.zero.Ready? && IsClient(size, r)
    ensures Held(st, Conn(r, 0, Barrier)) && Opened(st, Conn(r, 0, Barrier))
  {
    AllHeldAtZero(size, st, r);
    RangeSize(1, size);
    SubsetSize(MainsHeld(size, st), Range(1, size));
    SubsetSize(BarriersHeld(size, st), Range(1, size));
    SameSize(BarriersHeld(size, st), Range(1, size));
    assert Within(r, 1, size) && r in BarriersHeld(size, st);
  }

  // ---------------------------------------------------------------------------
  // The ports
  // ---------------------------------------------------------------------------

  /** Rank 0 has told r the port of k. */
  predicate PassedOn(size: int, zero: Zero, r: int, k: int) {
    && IsClient(size, k) && k != r
    && (zero.Ready? || (zero.Telling? && (k < zero.i || (k == zero.i && r < zero.to))))
  }

  /** What r has been told, and what it has read of it. */
  ghost predicate PortsOk(size: int, st: State, r: int) {
    && |SentTo(st.books, r)| == Told(st, r)
    && (PcOf(st, r).Learn? ==> PcOf(st, r).known <= Told(st, r))
    && (forall k :: k in SentTo(st.books, r) <==> PassedOn(size, st.zero, r, k))
    && (forall k :: k in Known(st.books, r) <==> HasRead(size, PcOf(st, r), SentTo(st.books, r), r, k))
  }

  ghost predicate HasRead(size: int, pc: Pc, sent: seq<int>, r: int, k: int) {
    match pc
    case Learn(n) => k in (if n <= |sent| then sent[..n] else sent)
    case Await(_, _) => IsClient(size, k) && k != r
    case Open(_) => IsClient(size, k) && k != r
    case Say(_) => IsClient(size, k) && k != r
    case Done => IsClient(size, k) && k != r
    case _ => false
  }

  lemma {:induction false} TellKeepsPorts(size: int, st: State, r: int)
    requires size >= 2 && Inv(size, st) && CanTell(st) && IsClient(size, r) && PortsOk(size, st, r)
    ensures PortsOk(size, DoTell(size, st), r)
  {
    var su, sent, pc := DoTell(size, st), SentTo(st.books, r), PcOf(st, r);
    var now := SentTo(su.books, r);
    assert now == if r == st.zero.to && r != st.zero.i then sent + [st.zero.i] else sent;
    SamePrefix(sent, now, st.zero.i, pc);
    forall k
      ensures HasRead(size, pc, now, r, k) == HasRead(size, pc, sent, r, k)
    {
    }
    assert Known(su.books, r) == Known(st.books, r) && PcOf(su, r) == pc;
  }

  lemma {:induction false} SamePrefix(sent: seq<int>, now: seq<int>, i: int, pc: Pc)
    requires now == sent || now == sent + [i]
    requires pc.Learn? ==> pc.known <= |sent|
    ensures pc.Learn? ==> now[..pc.known] == sent[..pc.known]
  {
  }

  /** The last port read completes the list. */
  lemma {:induction false} AllTold(size: int, st: State, r: int)
    requires size >= 2 && ToldOk(size, st, r) && ZeroOk(size, st) && IsClient(size, r)
    requires PortsOk(size, st, r) && Told(st, r) >= size - 2
    ensures Told(st, r) == size - 2 && forall k :: k in SentTo(st.books, r) <==> IsClient(size, k) && k != r
  {
  }

  lemma {:induction false} LearnKeepsPorts(size: int, st: State, r: int)
    requires size >= 2 && Inv(size, st) && CanLearn(size, st, r) && PortsOk(size, st, r)
    ensures PortsOk(size, DoLearn(size, st, r), r)
  {
    var n, sent := PcOf(st, r).known, SentTo(st.books, r);
    OneMore(sent, n);
    if n + 1 >= size - 2 {
      assert PcOk(size, st, r) && ToldOk(size, st, r);
      AllTold(size, st, r);
      assert sent[..n + 1] == sent;
    }
    ReadOn(size, st, r);
  }

  lemma {:induction false} OneMore(s: seq<int>, n: nat)
    requires n < |s|
    ensures s[..n + 1] == s[..n] + [s[n]]
    ensures forall k :: k in s[..n + 1] <==> k in s[..n] || k == s[n]
  {
  }

  lemma {:induction false} ReadOn(size: int, st: State, r: int)
    requires CanLearn(size, st, r) && PortsOk(size, st, r)
    requires var n, sent := PcOf(st, r).known, SentTo(st.books, r);
             && (forall k :: k in sent[..n + 1] <==> k in sent[..n] || k == sent[n])
             && (n + 1 >= size - 2 ==> forall k :: k in sent[..n + 1] <==> IsClient(size, k) && k != r)
    ensures PortsOk(size, DoLearn(size, st, r), r)
  {
    var su, sent := DoLearn(size, st, r), SentTo(st.books, r);
    forall k
      ensures k in Known(su.books, r) <==> HasRead(size, PcOf(su, r), sent, r, k)
    {
    }
  }

  lemma {:induction false} PortsFrame(size: int, st: State, su: State, r: int)
    requires PortsOk(size, st, r)
    requires SentTo(su.books, r) == SentTo(st.books, r) && Known(su.books, r) == Known(st.books, r) && su.told == st.told
    requires forall k :: PassedOn(size, su.zero, r, k) == PassedOn(size, st.zero, r, k)
    requires PcOf(su, r).Learn? ==> PcOf(su, r).known <= Told(st, r)
    requires forall k :: HasRead(size, PcOf(su, r), SentTo(st.books, r), r, k) == HasRead(size, PcOf(st, r), SentTo(st.books, r), r, k)
    ensures PortsOk(size, su, r)
  {
  }

  lemma {:induction false} SayKeepsPorts(size: int, st: State, s: int, r: int)
    requires size >= 2 && Inv(size, st) && CanSay(size, st, s) && IsClient(size, r) && PortsOk(size, st, r)
    ensures PortsOk(size, DoSay(size, st, s), r)
  {
    assert PcOk(size, st, r);
    PortsFrame(size, st, DoSay(size, st, s), r);
  }

  lemma {:induction false} IdentifyKeepsPorts(size: int, st: State, s: int, r: int)
    requires size >= 2 && Inv(size, st) && CanIdentify(size, st, s) && IsClient(size, r) && PortsOk(size, st, r)
    ensures PortsOk(size, DoIdentify(size, st, s), r)
  {
    PortsFrame(size, st, DoIdentify(size, st, s), r);
  }

  lemma {:induction false} AcceptKeepsPorts(size: int, st: State, s: int, r: int)
    requires size >= 2 && Inv(size, st) && CanAccept(size, st, s) && IsClient(size, r) && PortsOk(size, st, r)
    ensures PortsOk(size, DoAccept(size, st, s), r)
  {
    PortsFrame(size, st, DoAccept(size, st, s), r);
  }

  lemma {:induction false} OpenKeepsPorts(size: int, room: nat, st: State, s: int, r: int)
    requires size >= 2 && Inv(size, st) && CanOpen(size, room, st, s) && IsClient(size, r) && PortsOk(size, st, r)
    ensures PortsOk(size, DoOpen(st, s), r)
  {
    assert PcOk(size, st, r);
    PortsFrame(size, st, DoOpen(st, s), r);
  }

  lemma {:induction false} OthersLearn(size: int, st: State, s: int, r: int)
    requires CanLearn(size, st, s) && s != r && PortsOk(size, st, r)
    ensures PortsOk(size, DoLearn(size, st, s), r)
  {
    PortsFrame(size, st, DoLearn(size, st, s), r);
  }

  lemma {:induction false} StepKeepsPorts(size: int, room: nat, st: State, a: Step, r: int)
    requires size >= 2 && Inv(size, st) && Enabled(size, room, st, a) && IsClient(size, r) && PortsOk(size, st, r)
    ensures PortsOk(size, Apply(size, room, st, a), r)
  {
    match a
    case StepOpen(s) => OpenKeepsPorts(size, room, st, s, r);
    case StepSay(s) => SayKeepsPorts(size, st, s, r);
    case StepLearn(s) =>
      if s == r {
        LearnKeepsPorts(size, st, r);
      } else {
        OthersLearn(size, st, s, r);
      }
    case StepAccept(s) => AcceptKeepsPorts(size, st, s, r);
    case StepIdentify(s) => IdentifyKeepsPorts(size, st, s, r);
    case StepTell => TellKeepsPorts(size, st, r);
  }

  lemma {:induction false} RunKeepsPorts(size: int, room: nat, from: State, steps: seq<Step>, to: State, r: int)
    requires size >= 2 && Inv(size, from) && Run(size, room, from, steps, to) && IsClient(size, r) && PortsOk(size, from, r)
    ensures PortsOk(size, to, r)
    decreases |steps|
  {
    if steps != [] {
      StepKeepsInv(size, room, from, steps[0]);
      StepKeepsPorts(size, room, from, steps[0], r);
      RunKeepsPorts(size, room, Apply(size, room, from, steps[0]), steps[1..], to, r);
    }
  }

  /** A rank connects to a higher one only when it has read that rank's port from rank 0. */
  lemma {:induction false} PortIsKnown(size: int, room: nat, steps: seq<Step>, st: State, r: int, to: int)
    requires Run(size, room, Start(size), steps, st) && IsClient(size, r) && PcOf(st, r) == Open(to)
    ensures to in Known(st.books, r) && forall k :: k in Known(st.books, r) ==> IsClient(size, k) && k != r
  {
    StartInv(size);
    RunKeepsInv(size, room, Start(size), steps, st);
    RunKeepsPorts(size, room, Start(size), steps, st, r);
    assert PcOk(size, st, r);
  }

  // ---------------------------------------------------------------------------
  // Termination
  // ---------------------------------------------------------------------------

  /** The steps a process still has to take. */
  function PcWork(size: int, r: int, pc: Pc): int {
    var connect := 2 * (size - 1 - r);
    var accept := 2 * (r - 1) + connect;
    match pc
    case OpenMain => 4 + (size - 2) + accept
    case SayMain => 3 + (size - 2) + accept
    case OpenBarrier => 2 + (size - 2) + accept
    case SayBarrier => 1 + (size - 2) + accept
    case Learn(known) => (size - 2 - known) + accept
    case Await(left, cur) => 2 * left - (if cur.Some? then 1 else 0) + connect
    case Open(to) => 2 * (size - to)
    case Say(to) => 2 * (size - to) - 1
    case Done => 0
  }

  function Product(a: int, b: int): int { a * b }

  function ZeroWork(size: int, zero: Zero): int {
    match zero
    case Accepting(n, cur) =>
      2 * (2 * (size - 1) - n) - (if cur.Some? then 1 else 0) + Product(size - 1, size - 1)
    case Telling(i, to) => Product(size - i, size - 1) - (to - 1)
    case Ready => 0
  }

  ghost function Works(size: int, st: State): int -> int {
    r => PcWork(size, r, PcOf(st, r))
  }

  ghost function Work(size: int, st: State): int {
    ZeroWork(size, st.zero) + Total(Range(1, size), Works(size, st))
  }

  /** One process moves on by one step; all others stay. */
  lemma {:induction false} OneMoves(size: int, st: State, su: State, r: int)
    requires IsClient(size, r) && su.zero == st.zero
    requires forall k :: 1 <= k < size && k != r ==> PcOf(su, k) == PcOf(st, k)
    requires PcWork(size, r, PcOf(su, r)) == PcWork(size, r, PcOf(st, r)) - 1
    ensures Work(size, su) == Work(size, st) - 1
  {
    assert Within(r, 1, size);
    TotalPoint(Range(1, size), Works(size, st), r, Works(size, su));
    assert Range(1, size) + {r} == Range(1, size);
  }

  lemma {:induction false} ZeroMovesOn(size: int, st: State, su: State)
    requires su.pcs == st.pcs && ZeroWork(size, su.zero) == ZeroWork(size, st.zero) - 1
    ensures Work(size, su) == Work(size, st) - 1
  {
    TotalSame(Range(1, size), Works(size, st), Works(size, su));
  }

  lemma {:induction false} NextRow(a: int, b: int)
    ensures Product(a, b) == Product(a - 1, b) + b
    ensures Product(0, b) == 0
  {
  }

  lemma {:induction false} OpenWorks(size: int, room: nat, st: State, r: int)
    requires size >= 2 && Inv(size, st) && CanOpen(size, room, st, r)
    ensures Work(size, DoOpen(st, r)) == Work(size, st) - 1
  {
    OneMoves(size, st, DoOpen(st, r), r);
  }

  lemma {:induction false} LearnWorks(size: int, st: State, r: int)
    requires size >= 2 && Inv(size, st) && CanLearn(size, st, r)
    ensures Work(size, DoLearn(size, st, r)) == Work(size, st) - 1
  {
    assert PcOk(size, st, r);
    OneMoves(size, st, DoLearn(size, st, r), r);
  }

  lemma {:induction false} AcceptWorks(size: int, st: State, s: int)
    requires size >= 2 && Inv(size, st) && CanAccept(size, st, s)
    ensures Work(size, DoAccept(size, st, s)) == Work(size, st) - 1
  {
    if s == 0 {
      ZeroMovesOn(size, st, DoAccept(size, st, s));
    } else {
      OneMoves(size, st, DoAccept(size, st, s), s);
    }
  }

  lemma {:induction false} IdentifyWorks(size: int, st: State, s: int)
    requires size >= 2 && Inv(size, st) && CanIdentify(size, st, s)
    ensures Work(size, DoIdentify(size, st, s)) == Work(size, st) - 1
  {
    if s == 0 {
      ZeroMovesOn(size, st, DoIdentify(size, st, s));
    } else {
      assert PcOk(size, st, s);
      OneMoves(size, st, DoIdentify(size, st, s), s);
    }
  }

  lemma {:induction false} TellWorks(size: int, st: State)
    requires size >= 2 && Inv(size, st) && CanTell(st)
    ensures Work(size, DoTell(size, st)) == Work(size, st) - 1
  {
    NextRow(size - st.zero.i, size - 1);
    ZeroMovesOn(size, st, DoTell(size, st));
  }

  /** Every step is one step less to take. */
  lemma {:induction false} StepWorks(size: int, room: nat, st: State, a: Step)
    requires size >= 2 && Inv(size, st) && Enabled(size, room, st, a)
    ensures Work(size, Apply(size, room, st, a)) == Work(size, st) - 1
  {
    match a
    case StepOpen(r) => OpenWorks(size, room, st, r);
    case StepSay(r) => SayWorks(size, st, r); OneMoves(size, st, DoSay(size, st, r), r);
    case StepLearn(r) => LearnWorks(size, st, r);
    case StepAccept(s) => AcceptWorks(size, st, s);
    case StepIdentify(s) => IdentifyWorks(size, st, s);
    case StepTell => TellWorks(size, st);
  }

  lemma {:induction false} SayWorks(size: int, st: State, r: int)
    requires size >= 2 && Inv(size, st) && CanSay(size, st, r)
    ensures PcWork(size, r, PcOf(DoSay(size, st, r), r)) == PcWork(size, r, PcOf(st, r)) - 1
  {
    assert PcOk(size, st, r);
  }

  lemma {:induction false} RunWorks(size: int, room: nat, from: State, steps: seq<Step>, to: State)
    requires size >= 2 && Inv(size, from) && Run(size, room, from, steps, to)
    ensures Work(size, to) == Work(size, from) - |steps|
    decreases |steps|
  {
    if steps != [] {
      StepWorks(size, room, from, steps[0]);
      StepKeepsInv(size, room, from, steps[0]);
      RunWorks(size, room, Apply(size, room, from, steps[0]), steps[1..], to);
    }
  }

  lemma {:induction false} WorkLeft(size: int, st: State)
    requires size >= 2 && Inv(size, st)
    ensures Work(size, st) >= 0
    ensures Work(size, st) == 0 ==> Finished(size, st)
  {
    forall r | r in Range(1, size)
      ensures PcWork(size, r, PcOf(st, r)) >= 0
    {
      assert PcOk(size, st, r);
    }
    ZeroWorkLeft(size, st);
    TotalNonNegative(Range(1, size), Works(size, st));
    if !Finished(size, st) && st.zero.Ready? {
      var r :| 1 <= r < size && !PcOf(st, r).Done?;
      assert Within(r, 1, size) && PcOk(size, st, r);
      TotalRemove(Range(1, size), Works(size, st), r);
      TotalNonNegative(Range(1, size) - {r}, Works(size, st));
    }
  }

  lemma {:induction false} ZeroWorkLeft(size: int, st: State)
    requires size >= 2 && Inv(size, st)
    ensures ZeroWork(size, st.zero) >= 0 && (ZeroWork(size, st.zero) == 0 ==> st.zero.Ready?)
  {
    if st.zero.Telling? {
      Rows(size - st.zero.i, size - 1);
    } else if st.zero.Accepting? {
      Rows(size - 1, size - 1);
    }
  }

  lemma {:induction false} Rows(a: int, b: int)
    requires a >= 1 && b >= 1
    ensures Product(a, b) >= b
  {
  }

  /**
    Every interleaving takes the same number of steps: a run that has taken them all is finished,
    and none can be longer.
  */
  lemma {:induction false} StartupTerminates(size: int, room: nat, steps: seq<Step>, st: State)
    requires size >= 1 && Run(size, room, Start(size), steps, st)
    ensures |steps| <= Work(size, Start(size))
    ensures |steps| == Work(size, Start(size)) ==> Finished(size, st)
  {
    if size == 1 {
      Alone(room, steps, st);
      assert Range(1, 1) == {};
      return;
    }
    StartInv(size);
    RunKeepsInv(size, room, Start(size), steps, st);
    RunWorks(size, room, Start(size), steps, st);
    WorkLeft(size, st);
  }
}
