/**
  Placement: hosts, ranks and global ids of the instances of a closed layout, and the resolved port
  tables from which the runtime builds its queues.
*/
module Placement {
  import opened Common
  import opened Layouts
  import T = Topology
  import N = Network
  import R = Runtime

  const CONSOLE := "<console>"

  datatype GftidPort = GftidPort(gftid: int, port: string)

  datatype Tables = Tables(
    gftid: map<Id, int>,
    host: map<Id, string>,                          // dcmpi_host
    rank: map<Id, int>,                             // dcmpi_rank
    runHosts: seq<string>,
    outs: map<Id, map<string, seq<GftidPort>>>,     // resolved_outports
    ins: map<Id, map<string, set<GftidPort>>>)      // resolved_inports

  /** What placement is given: the hosts to draw from, and which names mean this machine. */
  datatype Hosts = Hosts(pool: seq<string>, localhost: string, resembles: string -> bool)

  ghost predicate ValidHosts(h: Hosts) {
    h.resembles(h.localhost) && h.localhost != CONSOLE && !h.resembles(CONSOLE) && CONSOLE !in h.pool
  }

  predicate IsBound(x: Instance) {
    |x.bindHosts| > 0 && x.bindHosts[0] != ""
  }

  predicate OnConsole(x: Instance) {
    !IsBound(x) && x.filtername == CONSOLE
  }

  /** At most one host by now, and no host with the symbolic name of the console. */
  predicate Bindable(l: Layout) {
    forall a :: a in l.filters && a in l.heap && IsBound(l.heap[a]) ==>
      |l.heap[a].bindHosts| == 1 && l.heap[a].bindHosts[0] != CONSOLE
  }

  // ---------------------------------------------------------------------------
  // What the tables say
  // ---------------------------------------------------------------------------

  /** A host as it is named from then on. */
  function Local(h: Hosts, s: string): string {
    if h.resembles(s) then h.localhost else s
  }

  predicate Draws(l: Layout, a: Id) {
    a in l.heap && !IsBound(l.heap[a]) && !OnConsole(l.heap[a])
  }

  /** How many of the first n instances draw a host from the pool. */
  function Drawn(l: Layout, n: nat): nat
    requires n <= |l.filters|
  {
    if n == 0 then 0 else Drawn(l, n - 1) + if Draws(l, l.filters[n - 1]) then 1 else 0
  }

  /** The host of the k-th instance: its own, the console, or the next of the pool in turn. */
  predicate HostRight(h: Hosts, l: Layout, k: nat, host: string)
    requires k < |l.filters| && l.filters[k] in l.heap
  {
    var x := l.heap[l.filters[k]];
    if IsBound(x) then host == Local(h, x.bindHosts[0])
    else if x.filtername == CONSOLE then host == CONSOLE
    else h.pool != [] && host == Local(h, h.pool[Drawn(l, k) % |h.pool|])
  }

  /** Global ids are the positions in the list: a bijection onto 0 .. n - 1. */
  predicate GftidsRight(l: Layout, t: Tables) {
    forall k :: 0 <= k < |l.filters| ==> l.filters[k] in t.gftid && t.gftid[l.filters[k]] == k
  }

  predicate HostsRight(h: Hosts, l: Layout, t: Tables) {
    forall k :: 0 <= k < |l.filters| ==>
      var a := l.filters[k]; a in l.heap && a in t.host && HostRight(h, l, k, t.host[a])
  }

  predicate Hosting(l: Layout, t: Tables, s: string) {
    exists a :: a in l.filters && a in t.host && t.host[a] == s
  }

  /**
    The console has rank -1, this machine rank 0, and every other rank a host that some instance is
    on; the rank of an instance is that of its host.
  */
  predicate RanksRight(h: Hosts, l: Layout, t: Tables) {
    && |t.runHosts| >= 2 && t.runHosts[0] == CONSOLE && t.runHosts[1] == h.localhost
    && Distinct(t.runHosts)
    && (forall k :: 2 <= k < |t.runHosts| ==> Hosting(l, t, t.runHosts[k]))
    && (forall a :: a in l.filters ==>
         a in t.rank && a in t.host && -1 <= t.rank[a] < |t.runHosts| - 1 && t.runHosts[t.rank[a] + 1] == t.host[a])
  }

  function Resolve(remotes: seq<Remote>, gftid: map<Id, int>): seq<GftidPort>
    requires forall r :: r in remotes ==> r.instance in gftid
  {
    seq(|remotes|, k requires 0 <= k < |remotes| => GftidPort(gftid[remotes[k].instance], remotes[k].port))
  }

  /** The out-ports of a, resolved in order. */
  predicate OutsRight(l: Layout, t: Tables, a: Id) {
    && a in l.heap && a in t.outs && t.outs[a].Keys == l.heap[a].outports.Keys
    && forall p :: p in t.outs[a] ==>
         && (forall r :: r in l.heap[a].outports[p] ==> r.instance in t.gftid)
         && t.outs[a][p] == Resolve(l.heap[a].outports[p], t.gftid)
  }

  function InsOf(t: Tables, b: Id, q: string): set<GftidPort> {
    if b in t.ins && q in t.ins[b] then t.ins[b][q] else {}
  }

  /** An in-port knows exactly the out-ports that lead to it. */
  ghost predicate InsRight(l: Layout, t: Tables) {
    forall b, q, x :: b in l.filters ==> (x in InsOf(t, b, q) <==> Feeding(l, t, x, b, q))
  }

  predicate Feeding(l: Layout, t: Tables, x: GftidPort, b: Id, q: string) {
    0 <= x.gftid < |l.filters| && l.filters[x.gftid] in l.heap
    && Remote(b, q) in Remotes(l.heap[l.filters[x.gftid]], x.port)
  }

  ghost predicate PlacedRight(h: Hosts, l: Layout, t: Tables) {
    && GftidsRight(l, t) && HostsRight(h, l, t) && RanksRight(h, l, t)
    && (forall a :: a in l.filters ==> OutsRight(l, t, a))
    && InsRight(l, t)
  }

  // ---------------------------------------------------------------------------
  // Consequences
  // ---------------------------------------------------------------------------

  lemma {:induction false} GftidsBijective(l: Layout, t: Tables, a: Id, b: Id)
    requires Closed(l) && GftidsRight(l, t) && a in l.filters && b in l.filters
    ensures 0 <= t.gftid[a] < |l.filters| && l.filters[t.gftid[a]] == a
    ensures t.gftid[a] == t.gftid[b] ==> a == b
  {
  }

  /** The two port tables are converses of each other. */
  lemma {:induction false} TablesAreConverse(h: Hosts, l: Layout, t: Tables, a: Id, p: string, b: Id, q: string)
    requires Closed(l) && PlacedRight(h, l, t) && a in l.filters && b in l.filters && p in l.heap[a].outports
    ensures a in t.outs && p in t.outs[a]
    ensures GftidPort(t.gftid[b], q) in t.outs[a][p] <==> GftidPort(t.gftid[a], p) in InsOf(t, b, q)
  {
    var remotes := l.heap[a].outports[p];
    assert OutsRight(l, t, a);
    GftidsBijective(l, t, a, b);
    assert GftidPort(t.gftid[a], p) in InsOf(t, b, q) <==> Remote(b, q) in remotes;
    if Remote(b, q) in remotes {
      var k :| 0 <= k < |remotes| && remotes[k] == Remote(b, q);
      assert Resolve(remotes, t.gftid)[k] == GftidPort(t.gftid[b], q);
    }
    if GftidPort(t.gftid[b], q) in t.outs[a][p] {
      var k :| 0 <= k < |remotes| && Resolve(remotes, t.gftid)[k] == GftidPort(t.gftid[b], q);
      assert PointsInto(l.heap[a], l.filters) && remotes[k] in remotes;
      GftidsBijective(l, t, remotes[k].instance, b);
    }
  }

  /** The putters that `DCFilterExecutor::setup` installs for an in-port. */
  function SetupPutters(t: Tables, b: Id, q: string): set<int> {
    set x | x in InsOf(t, b, q) :: x.gftid
  }

  /** The targets of every filter in the runtime are those of its resolved out-ports. */
  ghost predicate PortsAs(l: Layout, t: Tables, c: R.Config) {
    && (forall g :: g in c.outs <==> 0 <= g < |l.filters|)
    && (forall g, ip :: g in c.outs ==> (ip in c.outs[g] <==> IsOutTarget(t, l.filters[g], ip)))
  }

  predicate IsOutTarget(t: Tables, a: Id, ip: R.InPort) {
    a in t.outs && exists p :: p in t.outs[a] && GftidPort(ip.filter, ip.port) in t.outs[a][p]
  }

  /**
    The putters of an in-port are exactly the filters that will later retire from it, so the queue
    starts as the runtime needs it.
  */
  lemma {:induction false} PuttersAreFeeders(h: Hosts, l: Layout, t: Tables, c: R.Config, b: Id, q: string)
    requires Closed(l) && PlacedRight(h, l, t) && PortsAs(l, t, c) && b in l.filters
    ensures SetupPutters(t, b, q) == R.Feeders(c, R.InPort(t.gftid[b], q))
  {
    var ip := R.InPort(t.gftid[b], q);
    forall g
      ensures g in SetupPutters(t, b, q) <==> g in R.Feeders(c, ip)
    {
      if g in SetupPutters(t, b, q) {
        var x :| x in InsOf(t, b, q) && x.gftid == g;
        assert Feeding(l, t, x, b, q);
        TablesAreConverse(h, l, t, l.filters[g], x.port, b, q);
        assert IsOutTarget(t, l.filters[g], ip);
      }
      if g in R.Feeders(c, ip) {
        assert IsOutTarget(t, l.filters[g], ip);
        var a := l.filters[g];
        var p :| p in t.outs[a] && GftidPort(ip.filter, ip.port) in t.outs[a][p];
        assert OutsRight(l, t, a);
        TablesAreConverse(h, l, t, a, p, b, q);
        GftidsBijective(l, t, a, a);
        assert GftidPort(g, p) in InsOf(t, b, q);
      }
    }
  }

  /** An instance is on the console's host exactly when it is meant to be. */
  lemma {:induction false} HostOfConsole(h: Hosts, l: Layout, t: Tables, a: Id)
    requires Closed(l) && HostsRight(h, l, t) && ValidHosts(h) && Bindable(l) && a in l.filters
    ensures a in t.host && (t.host[a] == CONSOLE <==> OnConsole(l.heap[a]))
  {
    var k :| 0 <= k < |l.filters| && l.filters[k] == a;
    assert HostRight(h, l, k, t.host[a]);
    if Draws(l, a) {
      var s := h.pool[Drawn(l, k) % |h.pool|];
      assert s in h.pool;
    }
  }

  // ---------------------------------------------------------------------------
  // The code
  // ---------------------------------------------------------------------------

  /** Hosts in the order the code draws them: each one goes to the back of the ring. */
  class Ring {
    var contents: seq<string>

    constructor (items: seq<string>)
      ensures contents == items
    {
      contents := items;
    }

    method Next() returns (s: string)
      requires contents != []
      modifies this
      ensures s == old(contents)[0] && contents == old(contents)[1..] + [s]
    {
      s := contents[0];
      contents := contents[1..] + [s];
    }
  }

  /** A ring from which n items have been drawn. */
  predicate Turned(contents: seq<string>, pool: seq<string>, n: nat) {
    |contents| == |pool| && forall j :: 0 <= j < |pool| ==> contents[j] == pool[(n + j) % |pool|]
  }

  lemma {:induction false} TurnedOnce(contents: seq<string>, pool: seq<string>, n: nat)
    requires Turned(contents, pool, n) && pool != []
    ensures contents[0] == pool[n % |pool|] && Turned(contents[1..] + [contents[0]], pool, n + 1)
  {
    var m := |pool|;
    assert contents[0] == pool[(n + 0) % m];
    forall j | 0 <= j < m
      ensures (contents[1..] + [contents[0]])[j] == pool[(n + 1 + j) % m]
    {
      if j == m - 1 {
        AroundOnce(n, m);
      } else {
        assert contents[j + 1] == pool[(n + (j + 1)) % m];
      }
    }
  }

  lemma {:induction false} AroundOnce(n: nat, m: nat)
    requires m > 0
    ensures (n + m) % m == n % m
  {
    var d := (n + m) / m - n / m - 1;
    assert n + m == m * ((n + m) / m) + (n + m) % m && n == m * (n / m) + n % m;
    assert m * d == m * ((n + m) / m) - m * (n / m) - m;
    Multiples(m, d);
  }

  lemma {:induction false} Multiples(m: nat, d: int)
    ensures d > 0 ==> m * d >= m
    ensures d < 0 ==> m * d <= 0 - m
  {
  }

  /** Nothing to draw an unbound instance's host from. */
  ghost predicate Stuck(h: Hosts, l: Layout) {
    h.pool == [] && exists a :: a in l.filters && a in l.heap && !IsBound(l.heap[a]) && !OnConsole(l.heap[a])
  }

  /** The hosts of the first n instances are those noted as given, or this machine's or the console. */
  ghost predicate Noted(h: Hosts, l: Layout, host: map<Id, string>, given: set<string>, n: nat) {
    && n <= |l.filters|
    && (forall k :: 0 <= k < n ==> HostNoted(h, l, host, given, k))
    && CONSOLE !in given
    && (forall s :: s in given && !h.resembles(s) ==> HostAmong(l, host, s, n))
  }

  ghost predicate HostNoted(h: Hosts, l: Layout, host: map<Id, string>, given: set<string>, k: nat)
    requires k < |l.filters|
  {
    var a := l.filters[k];
    && a in l.heap && a in host && HostRight(h, l, k, host[a])
    && (host[a] == CONSOLE || host[a] == h.localhost || (host[a] in given && !h.resembles(host[a])))
  }

  predicate HostAmong(l: Layout, host: map<Id, string>, s: string, n: nat)
    requires n <= |l.filters|
  {
    exists k :: 0 <= k < n && l.filters[k] in host && host[l.filters[k]] == s
  }

  predicate GftidsUpTo(l: Layout, gftid: map<Id, int>, n: nat) {
    n <= |l.filters| && forall k :: 0 <= k < n ==> l.filters[k] in gftid && gftid[l.filters[k]] == k
  }

  predicate NoneUnbound(l: Layout, n: nat) {
    n <= |l.filters| && forall k :: 0 <= k < n && l.filters[k] in l.heap ==>
      IsBound(l.heap[l.filters[k]]) || OnConsole(l.heap[l.filters[k]])
  }

  lemma {:induction false} GftidsMore(l: Layout, gftid: map<Id, int>, u: nat)
    requires Closed(l) && u < |l.filters| && GftidsUpTo(l, gftid, u)
    ensures GftidsUpTo(l, gftid[l.filters[u] := u], u + 1)
  {
  }

  /** Noting one more instance. */
  lemma {:induction false} NotedMore(h: Hosts, l: Layout, before: map<Id, string>, after: map<Id, string>,
                                     known: set<string>, given: set<string>, u: nat, s: string)
    requires Closed(l) && ValidHosts(h) && u < |l.filters| && Noted(h, l, before, known, u)
    requires var a := l.filters[u];
             && a in after && after == before[a := after[a]]
             && HostRight(h, l, u, after[a]) && after[a] == Local(h, s)
    requires given == known + if s == CONSOLE then {} else {s}
    ensures Noted(h, l, after, given, u + 1)
  {
    forall k | 0 <= k < u + 1
      ensures HostNoted(h, l, after, given, k)
    {
      if k < u {
        assert HostNoted(h, l, before, known, k);
      }
    }
    forall x | x in given && !h.resembles(x)
      ensures HostAmong(l, after, x, u + 1)
    {
      if x == s {
        assert after[l.filters[u]] == x;
      } else {
        assert HostAmong(l, before, x, u);
        var k :| 0 <= k < u && l.filters[k] in before && before[l.filters[k]] == x;
        assert after[l.filters[k]] == x;
      }
    }
  }

  /** What is settled about the first u instances. */
  ghost predicate Binding(h: Hosts, l: Layout, t: Tables, given: set<string>, u: nat, ring: seq<string>) {
    && GftidsUpTo(l, t.gftid, u) && t == Tables(t.gftid, t.host, map[], [], map[], map[])
    && Noted(h, l, t.host, given, u) && (h.pool != [] || NoneUnbound(l, u))
    && Turned(ring, h.pool, Drawn(l, u))
  }

  lemma {:induction false} BindingAtFirst(h: Hosts, l: Layout)
    requires ValidHosts(h)
    ensures Binding(h, l, Tables(map[], map[], map[], [], map[], map[]), {}, 0, h.pool)
  {
  }

  lemma {:induction false} BindingAtLast(h: Hosts, l: Layout, t: Tables, given: set<string>, ring: seq<string>)
    requires Binding(h, l, t, given, |l.filters|, ring)
    ensures !Stuck(h, l) && GftidsRight(l, t) && Noted(h, l, t.host, given, |l.filters|)
    ensures t.outs == map[] && t.ins == map[] && t.rank == map[]
  {
  }

  class Placer {
    const h: Hosts
    const l: Layout
    var t: Tables
    var fromPool: set<string>
    var notInPool: set<string>

    constructor (h: Hosts, l: Layout)
      ensures this.h == h && this.l == l && t == Tables(map[], map[], map[], [], map[], map[])
      ensures fromPool == {} && notInPool == {}
    {
      this.h, this.l := h, l;
      t := Tables(map[], map[], map[], [], map[], map[]);
      fromPool, notInPool := {}, {};
    }

    /** The next host of the pool in turn. */
    method Draw(u: nat, ring: Ring) returns (s: string)
      requires u < |l.filters| && Draws(l, l.filters[u]) && h.pool != []
      requires Turned(ring.contents, h.pool, Drawn(l, u))
      modifies ring
      ensures s == h.pool[Drawn(l, u) % |h.pool|] && Turned(ring.contents, h.pool, Drawn(l, u + 1))
    {
      TurnedOnce(ring.contents, h.pool, Drawn(l, u));
      s := ring.Next();
    }

    /** The host of the u-th instance; false if the program would end here. */
    method BindHost(u: nat, ring: Ring) returns (ok: bool, bh: string, ghost given: string)
      requires Closed(l) && ValidHosts(h) && Bindable(l) && u < |l.filters|
      requires Turned(ring.contents, h.pool, Drawn(l, u))
      modifies ring, this`fromPool, this`notInPool
      ensures ok ==> Turned(ring.contents, h.pool, Drawn(l, u + 1))
      ensures !ok <==> Draws(l, l.filters[u]) && h.pool == []
      ensures ok ==> HostRight(h, l, u, bh) && (given == CONSOLE <==> OnConsole(l.heap[l.filters[u]]))
      ensures ok ==> bh == Local(h, given)
      ensures ok ==> fromPool + notInPool == old(fromPool + notInPool) + if given == CONSOLE then {} else {given}
    {
      var a := l.filters[u];
      var x := l.heap[a];
      ok, given := true, CONSOLE;
      if |x.bindHosts| > 0 && x.bindHosts[0] != "" {
        bh := x.bindHosts[0];
        notInPool := notInPool + {bh};
        given := bh;
      } else if x.filtername == CONSOLE {
        bh := CONSOLE;
      } else if ring.contents == [] {
        return false, "", given;
      } else {
        bh := Draw(u, ring);
        fromPool := fromPool + {bh};
        given := bh;
      }
      if bh != CONSOLE && h.resembles(bh) {
        bh := h.localhost;
      }
    }

    /** Host and global id of the u-th instance. */
    method BindNext(u: nat, gftid: nat, ring: Ring) returns (ok: bool)
      requires Closed(l) && ValidHosts(h) && Bindable(l) && u == gftid < |l.filters| && Binding(h, l, t, fromPool + notInPool, u, ring.contents)
      modifies ring, this`t, this`fromPool, this`notInPool
      ensures if ok then Binding(h, l, t, fromPool + notInPool, u + 1, ring.contents) else Stuck(h, l) && t == old(t)
    {
      var a := l.filters[u];
      ghost var before, known, ids := t.host, fromPool + notInPool, t.gftid;
      var bh;
      ghost var given;
      ok, bh, given := BindHost(u, ring);
      if ok {
        t := t.(host := t.host[a := bh], gftid := t.gftid[a := gftid]);
        GftidsMore(l, ids, u);
        NotedMore(h, l, before, t.host, known, fromPool + notInPool, u, given);
      }
    }

    /** Hosts and global ids of all instances. */
    method BindHosts() returns (ok: bool)
      requires Closed(l) && ValidHosts(h) && Bindable(l)
      requires t == Tables(map[], map[], map[], [], map[], map[]) && fromPool == {} && notInPool == {}
      modifies this`t, this`fromPool, this`notInPool
      ensures !ok <==> Stuck(h, l)
      ensures ok ==> GftidsRight(l, t) && Noted(h, l, t.host, fromPool + notInPool, |l.filters|)
      ensures t.outs == map[] && t.ins == map[] && t.rank == map[]
    {
      var ring := new Ring(h.pool);
      BindingAtFirst(h, l);
      var u, gftid := 0, 0;
      while u < |l.filters|
        invariant 0 <= u == gftid <= |l.filters| && fresh(ring) && Binding(h, l, t, fromPool + notInPool, u, ring.contents)
      {
        var bound := BindNext(u, gftid, ring);
        if !bound {
          return false;
        }
        u, gftid := u + 1, gftid + 1;
      }
      BindingAtLast(h, l, t, fromPool + notInPool, ring.contents);
      return true;
    }

    /** The hosts of the run, without repetition: console, this machine, then the others. */
    method CollectRunHosts() returns (hosts: seq<string>)
      requires ValidHosts(h) && CONSOLE !in fromPool + notInPool
      ensures |hosts| >= 2 && hosts[0] == CONSOLE && hosts[1] == h.localhost && Distinct(hosts)
      ensures forall s :: s in hosts <==>
                s == CONSOLE || s == h.localhost || (s in fromPool + notInPool && !h.resembles(s))
    {
      var run := [h.localhost];
      var rest := fromPool;
      while rest != {}
        invariant rest <= fromPool && Distinct(run) && |run| > 0 && run[0] == h.localhost
        invariant forall s :: s in run <==> s == h.localhost || (s in fromPool - rest && !h.resembles(s))
        decreases |rest|
      {
        var s :| s in rest;
        if !h.resembles(s) {
          run := run + [s];
        }
        rest := rest - {s};
      }
      rest := notInPool;
      while rest != {}
        invariant rest <= notInPool && Distinct(run) && |run| > 0 && run[0] == h.localhost
        invariant forall s :: s in run <==> s == h.localhost || (s in fromPool + (notInPool - rest) && !h.resembles(s))
        decreases |rest|
      {
        var s :| s in rest;
        if s !in run && !h.resembles(s) {
          run := run + [s];
        }
        rest := rest - {s};
      }
      hosts := [CONSOLE] + run;
    }

    /** Ranks from the positions of the hosts, the console being at -1. */
    method AssignRanks()
      requires Closed(l) && ValidHosts(h) && GftidsRight(l, t)
      requires Noted(h, l, t.host, fromPool + notInPool, |l.filters|)
      modifies this`t
      ensures RanksRight(h, l, t) && HostsRight(h, l, t) && t == old(t).(rank := t.rank, runHosts := t.runHosts)
    {
      var hosts := CollectRunHosts();
      var hostRank: map<string, int>, k := map[], 0;
      while k < |hosts|
        invariant 0 <= k <= |hosts|
        invariant forall j :: 0 <= j < k ==> hosts[j] in hostRank && hostRank[hosts[j]] == j - 1
      {
        hostRank := hostRank[hosts[k] := k - 1];
        k := k + 1;
      }
      var rank: map<Id, int>, u := map[], 0;
      while u < |l.filters|
        invariant 0 <= u <= |l.filters|
        invariant forall j :: 0 <= j < u ==> RankOf(hosts, t.host, rank, l.filters[j])
      {
        var a := l.filters[u];
        assert HostNoted(h, l, t.host, fromPool + notInPool, u);
        assert t.host[a] in hosts;
        rank := rank[a := hostRank[t.host[a]]];
        u := u + 1;
      }
      t := t.(rank := rank, runHosts := hosts);
      RanksAreRight(h, l, t, fromPool + notInPool);
    }

    /** Note an out-port at one in-port. */
    method AddIn(b: Id, q: string, x: GftidPort)
      modifies this`t
      ensures t == old(t).(ins := t.ins)
      ensures InsPlus(old(t), t, [Remote(b, q)], x)
    {
      var ports := if b in t.ins then t.ins[b] else map[];
      var more := InsOf(t, b, q) + {x};
      t := t.(ins := t.ins[b := ports[q := more]]);
    }

    /** One out-port: its targets in order, and the out-port noted at each of them. */
    method ResolvePort(a: Id, p: string) returns (r: seq<GftidPort>)
      requires a in l.heap && p in l.heap[a].outports && a in t.gftid
      requires forall x :: x in l.heap[a].outports[p] ==> x.instance in t.gftid
      modifies this`t
      ensures t == old(t).(ins := t.ins)
      ensures r == Resolve(l.heap[a].outports[p], t.gftid)
      ensures InsPlus(old(t), t, l.heap[a].outports[p], GftidPort(t.gftid[a], p))
    {
      r := [];
      var remotes, u2, x := l.heap[a].outports[p], 0, GftidPort(t.gftid[a], p);
      ghost var t0 := t;
      while u2 < |remotes|
        invariant 0 <= u2 <= |remotes| && t == t0.(ins := t.ins)
        invariant |r| == u2 && forall k :: 0 <= k < u2 ==> r[k] == GftidPort(t.gftid[remotes[k].instance], remotes[k].port)
        invariant InsPlus(t0, t, remotes[..u2], x)
      {
        var ip := remotes[u2];
        ghost var t1 := t;
        r := r + [GftidPort(t.gftid[ip.instance], ip.port)];
        AddIn(ip.instance, ip.port, x);
        InsPlusMore(t0, t1, t, remotes[..u2], ip, x);
        assert remotes[..u2 + 1] == remotes[..u2] + [ip];
        u2 := u2 + 1;
      }
      assert remotes[..u2] == remotes;
    }

    /** All out-ports of one instance, in whatever order they come. */
    method ResolvePorts(a: Id) returns (resolved: map<string, seq<GftidPort>>)
      requires a in l.heap && a in t.gftid && Known(l.heap[a], t.gftid)
      modifies this`t
      ensures t == old(t).(ins := t.ins) && resolved.Keys == l.heap[a].outports.Keys
      ensures ResolvedPorts(l.heap[a], t.gftid, resolved)
      ensures InsWith(old(t), t, l.heap[a], t.gftid[a], resolved.Keys)
    {
      ghost var t0, gftid, x := t, t.gftid, l.heap[a];
      var keys := l.heap[a].outports.Keys;
      resolved := map[];
      while keys != {}
        invariant keys <= x.outports.Keys && resolved.Keys == x.outports.Keys - keys
        invariant t == t0.(ins := t.ins)
        invariant ResolvedPorts(x, gftid, resolved)
        invariant InsWith(t0, t, x, gftid[a], resolved.Keys)
        decreases |keys|
      {
        var p :| p in keys;
        ghost var t1 := t;
        var r := ResolvePort(a, p);
        InsMore(t0, t1, t, x, gftid[a], resolved.Keys, p);
        ResolvedMore(x, gftid, resolved, p, r);
        resolved := resolved[p := r];
        keys := keys - {p};
      }
    }

    method ResolveInstance(a: Id)
      requires a in l.heap && a in t.gftid && Known(l.heap[a], t.gftid)
      modifies this`t
      ensures t == old(t).(ins := t.ins, outs := t.outs)
      ensures OutsRight(l, t, a) && t.outs == old(t.outs)[a := t.outs[a]]
      ensures InsWith(old(t), t, l.heap[a], t.gftid[a], l.heap[a].outports.Keys)
    {
      ghost var t0 := t;
      var resolved := ResolvePorts(a);
      ghost var t1 := t;
      t := t.(outs := t.outs[a := resolved]);
      InsWithFrame(t0, t1, t, l.heap[a], t.gftid[a], resolved.Keys);
    }

    /** The port tables of all instances. */
    method ResolveAll()
      requires Closed(l) && GftidsRight(l, t) && t.ins == map[] && t.outs == map[]
      modifies this`t
      ensures t == old(t).(ins := t.ins, outs := t.outs)
      ensures InsRight(l, t) && forall a :: a in l.filters ==> OutsRight(l, t, a)
    {
      var u := 0;
      while u < |l.filters|
        invariant 0 <= u <= |l.filters| && t == old(t).(ins := t.ins, outs := t.outs)
        invariant forall k :: 0 <= k < u ==> OutsRight(l, t, l.filters[k])
        invariant forall b, q, x :: x in InsOf(t, b, q) <==> x.gftid < u && Feeding(l, t, x, b, q)
      {
        assert PointsInto(l.heap[l.filters[u]], l.filters);
        ghost var t1 := t;
        ResolveInstance(l.filters[u]);
        forall b, q, x
          ensures x in InsOf(t, b, q) <==> x.gftid < u + 1 && Feeding(l, t, x, b, q)
        {
          assert x in InsOf(t, b, q) <==>
            (x in InsOf(t1, b, q) || Leads(l.heap[l.filters[u]], u, l.heap[l.filters[u]].outports.Keys, b, q, x));
        }
        u := u + 1;
      }
    }

    /** `do_placement`: it fails only when an unbound instance has no host to go to. */
    method DoPlacement() returns (ok: bool)
      requires Closed(l) && ValidHosts(h) && Bindable(l)
      requires t == Tables(map[], map[], map[], [], map[], map[]) && fromPool == {} && notInPool == {}
      modifies this
      ensures !ok <==> Stuck(h, l)
      ensures ok ==> PlacedRight(h, l, t)
    {
      ok := BindHosts();
      if ok {
        AssignRanks();
        ResolveAll();
      }
    }
  }

  /** Out-port y is one of those of instance x, with id g, and leads to in-port q of b. */
  predicate Leads(x: Instance, g: int, keys: set<string>, b: Id, q: string, y: GftidPort) {
    y.gftid == g && y.port in keys && y.port in x.outports && Remote(b, q) in x.outports[y.port]
  }

  /** The in-ports know what they knew before, and the given out-ports of instance x. */
  ghost predicate InsWith(before: Tables, after: Tables, x: Instance, g: int, keys: set<string>) {
    forall b, q, y :: y in InsOf(after, b, q) <==> (y in InsOf(before, b, q) || Leads(x, g, keys, b, q, y))
  }

  /** The in-ports know what they knew before, and x wherever one of the remotes leads. */
  ghost predicate InsPlus(before: Tables, after: Tables, remotes: seq<Remote>, x: GftidPort) {
    forall b, q :: InsOf(after, b, q) == InsOf(before, b, q) + if Remote(b, q) in remotes then {x} else {}
  }

  lemma {:induction false} InsPlusMore(t0: Tables, t1: Tables, t2: Tables, remotes: seq<Remote>, r: Remote, x: GftidPort)
    requires InsPlus(t0, t1, remotes, x) && InsPlus(t1, t2, [r], x)
    ensures InsPlus(t0, t2, remotes + [r], x)
  {
  }

  lemma {:induction false} InsMore(t0: Tables, t1: Tables, t2: Tables, x: Instance, g: int, keys: set<string>, p: string)
    requires InsWith(t0, t1, x, g, keys) && p in x.outports && InsPlus(t1, t2, x.outports[p], GftidPort(g, p))
    ensures InsWith(t0, t2, x, g, keys + {p})
  {
  }

  /** Every target of x has its global id. */
  predicate Known(x: Instance, gftid: map<Id, int>) {
    forall p, r :: p in x.outports && r in x.outports[p] ==> r.instance in gftid
  }

  predicate ResolvedPorts(x: Instance, gftid: map<Id, int>, resolved: map<string, seq<GftidPort>>) {
    Known(x, gftid) && forall p :: p in resolved ==> p in x.outports && resolved[p] == Resolve(x.outports[p], gftid)
  }

  lemma {:induction false} ResolvedMore(x: Instance, gftid: map<Id, int>, resolved: map<string, seq<GftidPort>>, p: string,
                                        r: seq<GftidPort>)
    requires ResolvedPorts(x, gftid, resolved) && p in x.outports && r == Resolve(x.outports[p], gftid)
    ensures ResolvedPorts(x, gftid, resolved[p := r])
    ensures resolved[p := r].Keys == resolved.Keys + {p}
  {
  }

  lemma {:induction false} InsWithFrame(t0: Tables, t1: Tables, t2: Tables, x: Instance, g: int, keys: set<string>)
    requires InsWith(t0, t1, x, g, keys) && t2.ins == t1.ins
    ensures InsWith(t0, t2, x, g, keys)
  {
  }

  predicate RankOf(hosts: seq<string>, host: map<Id, string>, rank: map<Id, int>, a: Id) {
    a in rank && a in host && -1 <= rank[a] < |hosts| - 1 && hosts[rank[a] + 1] == host[a]
  }

  lemma {:induction false} RanksAreRight(h: Hosts, l: Layout, t: Tables, given: set<string>)
    requires Closed(l) && ValidHosts(h) && Noted(h, l, t.host, given, |l.filters|)
    requires |t.runHosts| >= 2 && t.runHosts[0] == CONSOLE && t.runHosts[1] == h.localhost && Distinct(t.runHosts)
    requires forall s :: s in t.runHosts <==> s == CONSOLE || s == h.localhost || (s in given && !h.resembles(s))
    requires forall j :: 0 <= j < |l.filters| ==> RankOf(t.runHosts, t.host, t.rank, l.filters[j])
    ensures RanksRight(h, l, t) && HostsRight(h, l, t)
  {
    forall k | 2 <= k < |t.runHosts|
      ensures Hosting(l, t, t.runHosts[k])
    {
      var s := t.runHosts[k];
      assert s != t.runHosts[0] && s != t.runHosts[1] && s in t.runHosts;
      assert HostAmong(l, t.host, s, |l.filters|);
      var j :| 0 <= j < |l.filters| && l.filters[j] in t.host && t.host[l.filters[j]] == s;
      assert l.filters[j] in l.filters;
    }
    forall j | 0 <= j < |l.filters|
      ensures var a := l.filters[j];
              a in l.heap && a in t.host && HostRight(h, l, j, t.host[a]) && RankOf(t.runHosts, t.host, t.rank, a)
    {
      assert HostNoted(h, l, t.host, given, j);
    }
  }
}
