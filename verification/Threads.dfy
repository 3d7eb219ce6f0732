/**
  The threads beside the main loop, as code over the state they share: filters that read and
  write, the end of a filter thread, the proxy writer and the two console threads.  Every turn of
  a thread is one step of the runtime, and a thread that runs on its own is a run of such steps.
*/
module Threads {
  import opened Topology
  import opened Network
  import opened Runtime

  /** n hops out of one place. */
  function Hops(pl: Place, n: nat): seq<Step> {
    if n == 0 then [] else Hops(pl, n - 1) + [DoHop(pl)]
  }

  /** A filter stops and tells n of its targets. */
  function Retires(g: int, n: nat): seq<Step> {
    if n == 0 then [DoStop(g)] else Retires(g, n - 1) + [DoRetire(g)]
  }

  /** Every waiting packet is where it belongs, as in every reachable state. */
  ghost predicate Orderly(c: Config, n: Net, pl: Place)
    requires Valid(c.clusters)
  {
    forall p :: p in Lookup(n.at, pl) ==> Addressed(c.clusters, p) && Fits(c.clusters, pl, p.dst)
  }

  /** A thread that is not the main loop can take the first packet of an orderly queue. */
  lemma {:induction false} OrderlyHop(c: Config, st: State, pl: Place)
    requires Valid(c.clusters) && (pl.ProxyQ? || pl == ConsoleQ)
    requires Orderly(c, st.net, pl) && Lookup(st.net.at, pl) != []
    ensures CanHop(c, st, pl)
    ensures Lookup(Hop(c, st, pl).net.at, pl) == Lookup(st.net.at, pl)[1..]
    ensures Orderly(c, Hop(c, st, pl).net, pl)
  {
    var q := Lookup(st.net.at, pl);
    assert q[0] in q;
    MoveAt(c.clusters, st.net, pl, pl);
  }

  class Shared {
    const c: Config
    var net: Net
    var life: map<int, Life>
    var loop: map<int, Loop>
    var consoleOpen: bool
    var store: Store
    var usage: map<Account, int>
    var tally: Tally

    function S(): State
      reads this
    {
      State(net, life, loop, consoleOpen, store, usage, tally)
    }

    constructor (c: Config)
      ensures this.c == c && S() == Init(c)
    {
      var st := Init(c);
      this.c := c;
      net, life, loop, consoleOpen, store, usage, tally := st.net, st.life, st.loop, true, st.store, st.usage, st.tally;
    }

    /** `MemUsage::accumulate` and `reduce` on the counter of an account. */
    method Account(a: Account, bytes: int)
      modifies this`usage
      ensures usage == Charge(old(usage), a, bytes)
    {
      usage := usage[a := (if a in usage then usage[a] else 0) + bytes];
    }

    /** `Queue::put`. */
    method PutPacket(pl: Place, p: Packet)
      modifies this`net
      ensures net == Put(old(net), pl, p)
    {
      net := net.(at := net.at[pl := Lookup(net.at, pl) + [p]], sent := Enqueue(net.sent, (p.src, p.dst), p));
    }

    /** The queue the main loop chooses for a connection to another rank. */
    method ChooseQueue(s: int, d: int) returns (pl: Place)
      requires ValidConfig(c) && IsRank(c.clusters, s) && IsRank(c.clusters, d)
      ensures pl == Origin(c.clusters, s, d)
    {
      var handlesConsole := s == 0;
      if s == -1 {
        pl := ConsoleOut;
      } else if d == -1 && handlesConsole {
        pl := ConsoleQ;
      } else if s - Offset(c.clusters.sizes, ClusterOf(c.clusters, s)) == 0 && ClusterOf(c.clusters, s) != ClusterOf(c.clusters, d) {
        pl := ProxyQ(ClusterOf(c.clusters, s));
      } else {
        pl := OutQ(s);
      }
    }

    /** `feed` of the writer for the k-th target: into the local queue, or as a packet. */
    method Feed(g: int, ip: InPort, body: Bytes)
      requires ValidConfig(c) && g in c.rankOf && ip.filter in c.rankOf
      modifies this`net, this`store
      ensures store == if IsLocal(c, g, ip) then PutArrival(old(store), ip, Arrival(g, body, WriterAccount(c, g)))
                       else old(store)
      ensures net == if IsLocal(c, g, ip) then old(net) else Send(c, old(net), g, ip, Buffer(body))
    {
      var s, d := c.rankOf[g], c.rankOf[ip.filter];
      if s == d {
        var x := Arrival(g, body, if s == -1 then ConsoleUse else FilterUse(s, g));
        store := store.(inbox := Enqueue(store.inbox, ip, x), arrived := Enqueue(store.arrived, ip, x));
      } else {
        var pl := ChooseQueue(s, d);
        PutPacket(pl, Packet(Buffer(body), d, ClusterOf(c.clusters, d), ip.filter, ip.port, s, ClusterOf(c.clusters, s), g));
      }
    }

    /** `DCFilter::write` once the target is selected: charge, copy, feed. */
    method WriteBuffer(g: int, k: nat, body: Bytes)
      requires ValidConfig(c) && CanWrite(c, S(), g, k, body)
      modifies this`net, this`store, this`usage
      ensures S() == Write(c, old(S()), g, k, body)
    {
      var ip := c.outs[g][k];
      if c.rankOf[g] != -1 {
        Account(FilterUse(c.rankOf[g], g), |body|);
      } else {
        Account(ConsoleUse, |body|);
      }
      store := store.(written := Enqueue(store.written, (g, ip), body));
      Feed(g, ip, body);
    }

    /** Waiting for room: the other threads go on meanwhile. */
    method Wait(k: nat, others: (nat, State) -> State)
      modifies this`net, this`life, this`loop, this`consoleOpen, this`store, this`usage, this`tally
      ensures S() == others(k, old(S()))
    {
      var st := others(k, S());
      net, life, loop, consoleOpen, store, usage, tally := st.net, st.life, st.loop, st.consoleOpen, st.store, st.usage, st.tally;
    }

    /**
      `write_broadcast` to count targets from the first-th on: before each copy the filter waits until
      the other threads have made room for it.  The states after each copy are noted; each comes from
      the one before by what the others did and the write step for its target.
    */
    method WriteBroadcast(g: int, body: Bytes, first: nat, count: nat, others: (nat, State) -> State)
      returns (ghost trace: seq<State>)
      requires ValidConfig(c) && LifeOf(S(), g) == Working && MakesRoom(c, g, body, first, count, others)
      modifies this`net, this`life, this`loop, this`consoleOpen, this`store, this`usage, this`tally
      ensures |trace| == count + 1 && trace[0] == old(S()) && trace[count] == S()
      ensures forall k :: 0 <= k < count ==> Writes(c, others(first + k, trace[k]), trace[k + 1], g, first + k, body)
    {
      var i := 0;
      trace := [S()];
      while i < count
        invariant 0 <= i <= count && LifeOf(S(), g) == Working
        invariant |trace| == i + 1 && trace[0] == old(S()) && trace[i] == S()
        invariant forall k :: 0 <= k < i ==> Writes(c, others(first + k, trace[k]), trace[k + 1], g, first + k, body)
      {
        WriteNext(g, body, first + i, others);
        trace := trace + [S()];
        i := i + 1;
      }
    }

    method WriteNext(g: int, body: Bytes, k: nat, others: (nat, State) -> State)
      requires ValidConfig(c) && CanWrite(c, others(k, S()), g, k, body)
      modifies this`net, this`life, this`loop, this`consoleOpen, this`store, this`usage, this`tally
      ensures Writes(c, others(k, old(S())), S(), g, k, body) && LifeOf(S(), g) == Working
    {
      Wait(k, others);
      WriteBuffer(g, k, body);
    }

    /** `DCFilter::read`: take the oldest buffer, and give its bytes back to its account. */
    method ReadBuffer(ip: InPort) returns (body: Bytes)
      requires CanRead(c, S(), ip)
      modifies this`store, this`usage
      ensures S() == Read(c, old(S()), ip) && body == Lookup(old(store).inbox, ip)[0].body
    {
      var q := Lookup(store.inbox, ip);
      body := q[0].body;
      store := store.(inbox := store.inbox[ip := q[1..]]);
      if q[0].account != Unmetered {
        Account(q[0].account, 0 - |body|);
      }
    }

    /** `remove_putter` of a writer: at once, or as a packet behind all buffers. */
    method RemovePutterAt(g: int, ip: InPort)
      requires ValidConfig(c) && g in c.rankOf && ip.filter in c.rankOf
      modifies this`net, this`store
      ensures store == if IsLocal(c, g, ip) then DropPutter(old(store), ip, g) else old(store)
      ensures net == if IsLocal(c, g, ip) then old(net) else Send(c, old(net), g, ip, RemovePutter)
    {
      var s, d := c.rankOf[g], c.rankOf[ip.filter];
      if s == d {
        store := store.(putters := store.putters[ip := Putters(store, ip) - {g}]);
      } else {
        var pl := ChooseQueue(s, d);
        PutPacket(pl, Packet(RemovePutter, d, ClusterOf(c.clusters, d), ip.filter, ip.port, s, ClusterOf(c.clusters, s), g));
      }
    }

    /** The end of `DCFilterThread::run`: all putters are removed before the filter counts as finished. */
    method FinishFilter(g: int)
      requires ValidConfig(c) && g in c.outs && LifeOf(S(), g) == Working
      modifies this`net, this`store, this`life
      ensures Run(c, old(S()), Retires(g, |c.outs[g]|) + [DoFinish(g)], S())
    {
      RunThen(c, S(), [], S(), DoStop(g));
      assert [] + [DoStop(g)] == [DoStop(g)];
      life := life[g := Retiring(0)];
      var i := 0;
      while i < |c.outs[g]|
        invariant 0 <= i <= |c.outs[g]| && LifeOf(S(), g) == Retiring(i)
        invariant Run(c, old(S()), Retires(g, i), S())
      {
        RetireNext(g, i, old(S()));
        i := i + 1;
      }
      RunThen(c, old(S()), Retires(g, i), S(), DoFinish(g));
      life := life[g := Finished];
    }

    method RetireNext(g: int, i: nat, ghost from: State)
      requires ValidConfig(c) && CanRetire(c, S(), g) && LifeOf(S(), g) == Retiring(i) && Run(c, from, Retires(g, i), S())
      modifies this`net, this`store, this`life
      ensures Run(c, from, Retires(g, i + 1), S()) && LifeOf(S(), g) == Retiring(i + 1)
    {
      RunThen(c, from, Retires(g, i), S(), DoRetire(g));
      RetireTurn(g, i);
    }

    method RetireTurn(g: int, i: nat)
      requires ValidConfig(c) && CanRetire(c, S(), g) && LifeOf(S(), g) == Retiring(i)
      modifies this`net, this`store, this`life
      ensures S() == Retire(c, old(S()), g)
    {
      RemovePutterAt(g, c.outs[g][i]);
      life := life[g := Retiring(i + 1)];
    }

    /** Get the first packet of a queue and write it to what is behind. */
    method PassOn(from: Place, to: Place) returns (p: Packet)
      requires Lookup(net.at, from) != []
      modifies this`net
      ensures p == Lookup(old(net).at, from)[0]
      ensures net == old(net).(at := Enqueue(old(net).at[from := Lookup(old(net).at, from)[1..]], to, p))
    {
      var q := Lookup(net.at, from);
      p := q[0];
      var rest := net.at[from := q[1..]];
      net := net.(at := rest[to := Lookup(rest, to) + [p]]);
    }

    /** One turn of `ProxyWriter::run` at the head of cluster k. */
    method ProxyWriterTurn(k: nat)
      requires ValidConfig(c) && CanHop(c, S(), ProxyQ(k))
      modifies this`net, this`usage
      ensures S() == Hop(c, old(S()), ProxyQ(k))
    {
      var p := PassOn(ProxyQ(k), Wire(k));
      var me := Offset(c.clusters.sizes, k);
      if p.kind.Buffer? {
        if p.src == me {
          Account(FilterUse(me, p.fromFilter), 0 - |p.kind.body|);
        } else {
          Account(RuntimeUse(me), 0 - |p.kind.body|);
        }
      }
    }

    /** `ProxyWriter::run` until its queue is empty. */
    method ProxyWriter(k: nat)
      requires ValidConfig(c) && k < |c.clusters.sizes| && Orderly(c, net, ProxyQ(k))
      modifies this`net, this`usage
      ensures Lookup(net.at, ProxyQ(k)) == []
      ensures Run(c, old(S()), Hops(ProxyQ(k), |Lookup(old(net).at, ProxyQ(k))|), S())
    {
      var pl := ProxyQ(k);
      ghost var from, all, n := S(), |Lookup(net.at, pl)|, 0;
      while Lookup(net.at, pl) != []
        invariant n + |Lookup(net.at, pl)| == all && Orderly(c, net, pl)
        invariant Run(c, from, Hops(pl, n), S())
        decreases |Lookup(net.at, pl)|
      {
        ProxyWriterNext(k, n, from);
        n := n + 1;
      }
    }

    method ProxyWriterNext(k: nat, ghost n: nat, ghost from: State)
      requires ValidConfig(c) && Orderly(c, net, ProxyQ(k)) && Lookup(net.at, ProxyQ(k)) != []
      requires Run(c, from, Hops(ProxyQ(k), n), S())
      modifies this`net, this`usage
      ensures Lookup(net.at, ProxyQ(k)) == Lookup(old(net).at, ProxyQ(k))[1..] && Orderly(c, net, ProxyQ(k))
      ensures Run(c, from, Hops(ProxyQ(k), n + 1), S())
    {
      OrderlyHop(c, S(), ProxyQ(k));
      RunThen(c, from, Hops(ProxyQ(k), n), S(), DoHop(ProxyQ(k)));
      ProxyWriterTurn(k);
    }

    /** One turn of the thread that writes to the console. */
    method ToConsoleTurn(localGftids: set<int>)
      requires ValidConfig(c) && CanHop(c, S(), ConsoleQ)
      requires forall g :: g in localGftids <==> g in c.rankOf && c.rankOf[g] == 0
      modifies this`net, this`usage
      ensures S() == Hop(c, old(S()), ConsoleQ)
    {
      var p := PassOn(ConsoleQ, ToConsole);
      if p.kind.Buffer? {
        var source := FilterUse(0, p.fromFilter);
        if p.fromFilter !in localGftids {
          source := RuntimeUse(0);
        }
        Account(source, 0 - |p.kind.body|);
      }
    }

    /** `MPIToConsoleThread::run` until its queue is empty. */
    method MPIToConsole()
      requires ValidConfig(c) && Orderly(c, net, ConsoleQ)
      modifies this`net, this`usage
      ensures Lookup(net.at, ConsoleQ) == []
      ensures Run(c, old(S()), Hops(ConsoleQ, |Lookup(old(net).at, ConsoleQ)|), S())
    {
      var localGftids := set g | g in c.rankOf && c.rankOf[g] == 0;
      ghost var from, all, n := S(), |Lookup(net.at, ConsoleQ)|, 0;
      while Lookup(net.at, ConsoleQ) != []
        invariant n + |Lookup(net.at, ConsoleQ)| == all && Orderly(c, net, ConsoleQ)
        invariant Run(c, from, Hops(ConsoleQ, n), S())
        decreases |Lookup(net.at, ConsoleQ)|
      {
        OrderlyHop(c, S(), ConsoleQ);
        MPIToConsoleNext(localGftids, n, from);
        n := n + 1;
      }
    }

    method MPIToConsoleNext(localGftids: set<int>, ghost n: nat, ghost from: State)
      requires ValidConfig(c) && CanHop(c, S(), ConsoleQ) && Run(c, from, Hops(ConsoleQ, n), S())
      requires forall g :: g in localGftids <==> g in c.rankOf && c.rankOf[g] == 0
      modifies this`net, this`usage
      ensures S() == Hop(c, old(S()), ConsoleQ) && Run(c, from, Hops(ConsoleQ, n + 1), S())
    {
      RunThen(c, from, Hops(ConsoleQ, n), S(), DoHop(ConsoleQ));
      ToConsoleTurn(localGftids);
    }

    /** One packet from the console: charged to the runtime before its body is read. */
    method FromConsoleTurn()
      requires ValidConfig(c) && CanHop(c, S(), FromSock)
      modifies this`net, this`usage
      ensures S() == Hop(c, old(S()), FromSock)
    {
      var p := PassOn(FromSock, FromConsoleQ);
      if p.kind.Buffer? {
        Account(RuntimeUse(0), |p.kind.body|);
      }
    }

    /** The closing packet: the console is no putter any more. */
    method ConsoleCloses()
      requires CanClose(c, S())
      modifies this`consoleOpen
      ensures S() == Close(old(S()))
    {
      consoleOpen := false;
    }
  }

  // ---------------------------------------------------------------------------
  // Broadcasts
  // ---------------------------------------------------------------------------

  /** However it stands, the others make room for the next copy in the end. */
  ghost predicate MakesRoom(c: Config, g: int, body: Bytes, first: nat, n: nat, others: (nat, State) -> State) {
    forall k: nat, st: State :: first <= k < first + n && LifeOf(st, g) == Working ==> CanWrite(c, others(k, st), g, k, body)
  }

  /** The state after is the state before with one buffer written to the k-th target. */
  ghost predicate Writes(c: Config, before: State, after: State, g: int, k: nat, body: Bytes)
    requires ValidConfig(c)
  {
    CanWrite(c, before, g, k, body) && after == Write(c, before, g, k, body)
  }
}
