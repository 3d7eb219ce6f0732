/**
  Ranks in a run over several clusters.  The hosts of the run are sorted into clusters, every remote
  cluster that has a member gets the next number, and the ranks are given out again, cluster by
  cluster.  The result is what the routing relies on: ranks are a bijection, every cluster owns one
  contiguous range, and a filter's cluster tag is the cluster of its rank.
*/
module ClusterRanks {
  import opened Common
  import opened Layouts
  import opened Placement
  import T = Topology
  import R = Runtime

  /** The configured remote clusters, in order, and which hosts their expressions match. */
  datatype RemoteClusters = RemoteClusters(count: nat, matches: (nat, string) -> bool)

  /** The first remote cluster, from the i-th on, that matches a host; -1 if none does. */
  function FirstMatch(rc: RemoteClusters, s: string, i: nat): (k: int)
    requires i <= rc.count
    ensures k == -1 || i <= k < rc.count
    decreases rc.count - i
  {
    if i == rc.count then -1 else if rc.matches(i, s) then i else FirstMatch(rc, s, i + 1)
  }

  function Matching(rc: RemoteClusters, s: string): (k: int)
    ensures -1 <= k < rc.count
  {
    FirstMatch(rc, s, 0)
  }

  /** The hosts, in order, that belong to cluster k of the configuration, or to none for -1. */
  function Belonging(rc: RemoteClusters, hosts: seq<string>, k: int): seq<string> {
    if hosts == [] then []
    else
      var s := hosts[|hosts| - 1];
      Belonging(rc, hosts[..|hosts| - 1], k) + if Matching(rc, s) == k then [s] else []
  }

  lemma {:induction false} BelongingMembers(rc: RemoteClusters, hosts: seq<string>, k: int)
    requires Distinct(hosts)
    ensures Distinct(Belonging(rc, hosts, k))
    ensures forall s :: s in Belonging(rc, hosts, k) <==> s in hosts && Matching(rc, s) == k
  {
    if hosts != [] {
      var n := |hosts| - 1;
      BelongingMembers(rc, hosts[..n], k);
      assert hosts == hosts[..n] + [hosts[n]];
      assert hosts[n] !in hosts[..n];
    }
  }

  // ---------------------------------------------------------------------------
  // Groups of hosts and their ranks
  // ---------------------------------------------------------------------------

  function Sizes(groups: seq<seq<string>>): (r: seq<nat>)
    ensures |r| == |groups|
  {
    seq(|groups|, k requires 0 <= k < |groups| => |groups[k]|)
  }

  lemma {:induction false} JoinedLength(groups: seq<seq<string>>, k: nat)
    requires k <= |groups|
    ensures |Joined(groups[..k])| == T.Offset(Sizes(groups), k)
    decreases k
  {
    if k > 0 {
      JoinedLength(groups, k - 1);
      assert groups[..k][..k - 1] == groups[..k - 1];
    }
  }

  /** Group k occupies the positions from Offset(k) to Offset(k + 1). */
  lemma {:induction false} JoinedAt(groups: seq<seq<string>>, k: nat, j: nat)
    requires k < |groups| && j < |groups[k]|
    ensures T.Offset(Sizes(groups), k) + j < T.Offset(Sizes(groups), k + 1) <= |Joined(groups)|
    ensures Joined(groups)[T.Offset(Sizes(groups), k) + j] == groups[k][j]
    decreases |groups|
  {
    var n := |groups| - 1;
    JoinedLength(groups, k);
    JoinedLength(groups, k + 1);
    if k < n {
      JoinedAt(groups[..n], k, j);
      JoinedLength(groups[..n], k);
      assert groups[..n][..k] == groups[..k];
    } else {
      assert groups[..k + 1] == groups;
    }
  }

  lemma {:induction false} JoinedMember(groups: seq<seq<string>>, r: nat) returns (k: nat)
    requires r < |Joined(groups)|
    ensures k < |groups| && T.Offset(Sizes(groups), k) <= r < T.Offset(Sizes(groups), k + 1)
    ensures Joined(groups)[r] in groups[k]
    decreases |groups|
  {
    var n := |groups| - 1;
    JoinedLength(groups, n);
    JoinedLength(groups, n + 1);
    assert groups[..n + 1] == groups;
    if r < |Joined(groups[..n])| {
      k := JoinedMember(groups[..n], r);
      JoinedLength(groups, k);
      JoinedLength(groups, k + 1);
      JoinedLength(groups[..n], k);
      JoinedLength(groups[..n], k + 1);
      assert groups[..n][..k] == groups[..k] && groups[..n][..k + 1] == groups[..k + 1];
    } else {
      k := n;
    }
  }

  /** The groups divide the hosts, and none is empty. */
  ghost predicate Grouped(hosts: seq<string>, groups: seq<seq<string>>) {
    && |groups| > 0 && (forall k :: 0 <= k < |groups| ==> groups[k] != [])
    && Distinct(Joined(groups)) && forall s :: s in Joined(groups) <==> s in hosts
  }

  /** The rank of every instance is the position of its host among all groups; the console's is -1. */
  ghost predicate Ranked(l: Layout, t: Tables, groups: seq<seq<string>>, rank: map<Id, int>) {
    forall a :: a in l.filters ==>
      && a in rank && a in t.host
      && if t.host[a] == CONSOLE then rank[a] == -1
         else 0 <= rank[a] < |Joined(groups)| && Joined(groups)[rank[a]] == t.host[a]
  }

  /** The clusters that the runtime is started with. */
  function ClustersOf(groups: seq<seq<string>>, console: bool): T.Clusters {
    T.Clusters(Sizes(groups), console)
  }

  lemma {:induction false} ClustersValid(hosts: seq<string>, groups: seq<seq<string>>, console: bool)
    requires Grouped(hosts, groups)
    ensures T.Valid(ClustersOf(groups, console)) && T.Processes(ClustersOf(groups, console)) == |Joined(groups)|
  {
    JoinedLength(groups, |groups|);
    assert groups[..|groups|] == groups;
  }

  /** Ranks and hosts determine each other. */
  lemma {:induction false} RanksBijective(hosts: seq<string>, groups: seq<seq<string>>, r: nat, q: nat)
    requires Grouped(hosts, groups) && r < |Joined(groups)| && q < |Joined(groups)|
    ensures Joined(groups)[r] in hosts && (Joined(groups)[r] == Joined(groups)[q] ==> r == q)
  {
    assert Joined(groups)[r] in Joined(groups);
  }

  /** Cluster k owns exactly the ranks of its hosts, and they are one range. */
  lemma {:induction false} GroupOwnsRange(hosts: seq<string>, groups: seq<seq<string>>, console: bool, k: nat, r: nat)
    requires Grouped(hosts, groups) && k < |groups| && r < |Joined(groups)|
    ensures Joined(groups)[r] in groups[k] <==> T.Offset(Sizes(groups), k) <= r < T.Offset(Sizes(groups), k + 1)
    ensures var t := ClustersOf(groups, console);
            T.Valid(t) && T.IsProcess(t, r) && (Joined(groups)[r] in groups[k] <==> T.ClusterOf(t, r) == k)
  {
    var t := ClustersOf(groups, console);
    ClustersValid(hosts, groups, console);
    var c := JoinedMember(groups, r);
    T.ClusterUnique(t, r, c);
    if Joined(groups)[r] in groups[k] {
      var j :| 0 <= j < |groups[k]| && groups[k][j] == Joined(groups)[r];
      JoinedAt(groups, k, j);
      assert T.Offset(Sizes(groups), k) + j == r;
      T.ClusterUnique(t, r, k);
    } else if T.Offset(Sizes(groups), k) <= r < T.Offset(Sizes(groups), k + 1) {
      T.ClusterUnique(t, r, k);
    }
  }

  // ---------------------------------------------------------------------------
  // The runtime's configuration
  // ---------------------------------------------------------------------------

  /** What the runtime is started with after a placement, over any number of clusters. */
  ghost predicate RunsAs(l: Layout, t: Tables, groups: seq<seq<string>>, rank: map<Id, int>, c: R.Config) {
    && PortsAs(l, t, c)
    && (exists console :: c.clusters == ClustersOf(groups, console))
    && (c.clusters.console <==> exists a :: a in l.filters && a in t.host && t.host[a] == CONSOLE)
    && c.rankOf.Keys == c.outs.Keys
    && (forall g :: g in c.rankOf && l.filters[g] in rank ==> c.rankOf[g] == rank[l.filters[g]])
  }

  /** No console filter is connected to a console filter: they are on one process, which has no queues of its own. */
  ghost predicate ConsoleApart(l: Layout) {
    forall a, b, p, q :: a in l.filters && b in l.filters && a in l.heap && b in l.heap
                         && OnConsole(l.heap[a]) && OnConsole(l.heap[b]) ==>
      Remote(b, q) !in Remotes(l.heap[a], p)
  }

  lemma {:induction false} RankOfConsole(h: Hosts, l: Layout, t: Tables, groups: seq<seq<string>>, rank: map<Id, int>, a: Id)
    requires Closed(l) && PlacedRight(h, l, t) && ValidHosts(h) && Bindable(l) && Ranked(l, t, groups, rank)
    requires a in l.filters
    ensures rank[a] == -1 <==> OnConsole(l.heap[a])
  {
    HostOfConsole(h, l, t, a);
  }

  lemma {:induction false} TargetIsFilter(h: Hosts, l: Layout, t: Tables, c: R.Config, g: int, ip: R.InPort) returns (b: Id)
    requires Closed(l) && PlacedRight(h, l, t) && PortsAs(l, t, c) && g in c.outs && ip in c.outs[g]
    ensures 0 <= ip.filter < |l.filters| && b == l.filters[ip.filter] && b in l.filters
    ensures exists p :: Remote(b, ip.port) in Remotes(l.heap[l.filters[g]], p)
  {
    var a := l.filters[g];
    assert IsOutTarget(t, a, ip) && OutsRight(l, t, a);
    var p :| p in t.outs[a] && GftidPort(ip.filter, ip.port) in t.outs[a][p];
    var remotes := l.heap[a].outports[p];
    var k :| 0 <= k < |remotes| && Resolve(remotes, t.gftid)[k] == GftidPort(ip.filter, ip.port);
    b := remotes[k].instance;
    assert PointsInto(l.heap[a], l.filters) && remotes[k] in remotes;
    GftidsBijective(l, t, b, b);
    assert Remote(b, ip.port) in Remotes(l.heap[a], p);
  }

  /** A placement, with its ranks given out over any number of clusters, is a configuration the runtime can start from. */
  lemma {:induction false} PlacementIsValid(h: Hosts, l: Layout, t: Tables, groups: seq<seq<string>>, rank: map<Id, int>,
                                            c: R.Config)
    requires Closed(l) && PlacedRight(h, l, t) && ValidHosts(h) && Bindable(l) && ConsoleApart(l)
    requires Grouped(t.runHosts[1..], groups) && Ranked(l, t, groups, rank) && RunsAs(l, t, groups, rank, c)
    ensures R.ValidConfig(c)
  {
    ClustersValid(t.runHosts[1..], groups, c.clusters.console);
    forall g | g in c.rankOf
      ensures T.IsRank(c.clusters, c.rankOf[g])
    {
      assert g in c.outs;
      var a := l.filters[g];
      assert a in l.filters && a in rank;
    }
    forall g, ip | g in c.outs && ip in c.outs[g]
      ensures ip.filter in c.rankOf && !(c.rankOf[g] == -1 && c.rankOf[ip.filter] == -1)
    {
      var b := TargetIsFilter(h, l, t, c, g, ip);
      var a := l.filters[g];
      assert a in l.filters && ip.filter in c.outs;
      var p :| Remote(b, ip.port) in Remotes(l.heap[a], p);
      RankOfConsole(h, l, t, groups, rank, a);
      RankOfConsole(h, l, t, groups, rank, b);
    }
  }

  // ---------------------------------------------------------------------------
  // The code
  // ---------------------------------------------------------------------------

  /** How hosts are sorted: the id of every remote cluster, its members, and the hosts that match none. */
  datatype Sorting = Sorting(ids: seq<int>, members: seq<seq<string>>, local: seq<string>, nextId: int)

  /** The number of the cluster a host is in; 0 for the local one. */
  function TagOf(rc: RemoteClusters, w: Sorting, s: string): int
    requires |w.ids| == rc.count
  {
    if Matching(rc, s) == -1 then 0 else w.ids[Matching(rc, s)]
  }

  ghost predicate Sorted(rc: RemoteClusters, hosts: seq<string>, w: Sorting) {
    && |w.ids| == |w.members| == rc.count && w.nextId >= 1
    && w.local == Belonging(rc, hosts, -1)
    && (forall i :: 0 <= i < rc.count ==> MemberOk(rc, hosts, w, i))
    && (forall i, j :: 0 <= i < j < rc.count && w.ids[i] == w.ids[j] ==> w.ids[i] == -1)
    && (forall k :: 1 <= k < w.nextId ==> k in w.ids)
  }

  predicate MemberOk(rc: RemoteClusters, hosts: seq<string>, w: Sorting, i: nat)
    requires i < |w.ids| && i < |w.members|
  {
    && w.members[i] == Belonging(rc, hosts, i)
    && (w.ids[i] == -1 <==> w.members[i] == [])
    && (w.ids[i] != -1 ==> 1 <= w.ids[i] < w.nextId)
  }

  /** One more host in the list of cluster k, which gets a number with its first member. */
  function Filed(w: Sorting, s: string, k: int): Sorting
    requires |w.ids| == |w.members| && -1 <= k < |w.ids|
  {
    if k == -1 then w.(local := w.local + [s])
    else
      var on := w.(members := w.members[k := w.members[k] + [s]]);
      if w.ids[k] == -1 then on.(ids := w.ids[k := w.nextId], nextId := w.nextId + 1) else on
  }

  lemma {:induction false} FiledSorted(rc: RemoteClusters, hosts: seq<string>, w: Sorting, s: string)
    requires Sorted(rc, hosts, w)
    ensures Sorted(rc, hosts + [s], Filed(w, s, Matching(rc, s)))
  {
    var k, r := Matching(rc, s), Filed(w, s, Matching(rc, s));
    assert (hosts + [s])[..|hosts|] == hosts;
    forall i | 0 <= i < rc.count
      ensures MemberOk(rc, hosts + [s], r, i)
    {
      assert MemberOk(rc, hosts, w, i);
    }
    forall i, j | 0 <= i < j < rc.count && r.ids[i] == r.ids[j]
      ensures r.ids[i] == -1
    {
      assert MemberOk(rc, hosts, w, i) && MemberOk(rc, hosts, w, j);
    }
    forall n | 1 <= n < r.nextId
      ensures n in r.ids
    {
      if n < w.nextId {
        assert n in w.ids;
        var i :| 0 <= i < |w.ids| && w.ids[i] == n;
        assert r.ids[i] == n;
      } else {
        assert r.ids[k] == n;
      }
    }
  }

  lemma {:induction false} SortedAtFirst(rc: RemoteClusters)
    ensures Sorted(rc, [], Sorting(seq(rc.count, _ => -1), seq(rc.count, _ => []), [], 1))
  {
  }

  /** The first k groups: the local hosts, and the members of clusters 1 .. k - 1. */
  ghost predicate GroupsOf(w: Sorting, groups: seq<seq<string>>) {
    && |w.ids| == |w.members| && 1 <= |groups| <= w.nextId && groups[0] == w.local
    && forall k :: 1 <= k < |groups| ==> IsCluster(w, k, groups[k])
  }

  predicate IsCluster(w: Sorting, k: int, group: seq<string>)
    requires |w.ids| == |w.members|
  {
    exists i :: 0 <= i < |w.ids| && w.ids[i] == k && group == w.members[i]
  }

  /** The hosts of the groups are those with their tags, each once. */
  lemma {:induction false} GroupsAreTagged(rc: RemoteClusters, hosts: seq<string>, w: Sorting, groups: seq<seq<string>>)
    requires Distinct(hosts) && Sorted(rc, hosts, w) && GroupsOf(w, groups)
    ensures Distinct(Joined(groups))
    ensures forall s :: s in Joined(groups) <==> s in hosts && 0 <= TagOf(rc, w, s) < |groups|
    decreases |groups|
  {
    var n := |groups| - 1;
    if n == 0 {
      BelongingMembers(rc, hosts, -1);
      assert groups[..0] == [] && [] + groups[0] == groups[0] && Joined(groups) == groups[0];
      forall s | s in hosts
        ensures TagOf(rc, w, s) == 0 <==> Matching(rc, s) == -1
      {
        TagIsId(rc, hosts, w, s);
      }
    } else {
      GroupsAreTagged(rc, hosts, w, groups[..n]);
      assert IsCluster(w, n, groups[n]);
      var i :| 0 <= i < |w.ids| && w.ids[i] == n && groups[n] == w.members[i];
      assert MemberOk(rc, hosts, w, i);
      BelongingMembers(rc, hosts, i);
      forall s | s in hosts
        ensures s in groups[n] <==> TagOf(rc, w, s) == n
      {
        TagIsId(rc, hosts, w, s);
      }
      DistinctJoin(Joined(groups[..n]), groups[n]);
    }
  }

  /** A host that matches a remote cluster has made it get a number. */
  lemma {:induction false} TagIsId(rc: RemoteClusters, hosts: seq<string>, w: Sorting, s: string)
    requires Distinct(hosts) && Sorted(rc, hosts, w) && s in hosts
    ensures if Matching(rc, s) == -1 then TagOf(rc, w, s) == 0 else 1 <= TagOf(rc, w, s) < w.nextId
  {
    var k := Matching(rc, s);
    if k >= 0 {
      assert MemberOk(rc, hosts, w, k);
      BelongingMembers(rc, hosts, k);
    }
  }

  /** With all groups there, the hosts are divided. */
  lemma {:induction false} AllGrouped(rc: RemoteClusters, hosts: seq<string>, w: Sorting, groups: seq<seq<string>>)
    requires Distinct(hosts) && Sorted(rc, hosts, w) && GroupsOf(w, groups) && |groups| == w.nextId && w.local != []
    ensures Grouped(hosts, groups)
  {
    GroupsAreTagged(rc, hosts, w, groups);
    forall k | 1 <= k < |groups|
      ensures groups[k] != []
    {
      assert IsCluster(w, k, groups[k]);
      var i :| 0 <= i < |w.ids| && w.ids[i] == k && groups[k] == w.members[i];
      assert MemberOk(rc, hosts, w, i);
    }
    forall s | s in hosts
      ensures s in Joined(groups)
    {
      TagIsId(rc, hosts, w, s);
    }
  }

  class Assigner {
    const rc: RemoteClusters
    var ids: seq<int>                        // RemoteCluster::id
    var members: seq<seq<string>>            // RemoteCluster::member_hosts
    var hostRemote: map<string, nat>         // host_remotecluster
    var local: seq<string>                   // non_remote_hosts
    var nextId: int                          // remote_cluster_nextid

    function S(): Sorting
      reads this
    {
      Sorting(ids, members, local, nextId)
    }

    ghost predicate Valid(hosts: seq<string>)
      reads this
    {
      && Sorted(rc, hosts, S())
      && (forall s :: s in hostRemote <==> s in hosts && Matching(rc, s) >= 0)
      && (forall s :: s in hostRemote ==> hostRemote[s] == Matching(rc, s))
    }

    constructor (rc: RemoteClusters)
      ensures this.rc == rc && Valid([])
    {
      this.rc := rc;
      ids, members := seq(rc.count, _ => -1), seq(rc.count, _ => []);
      hostRemote, local, nextId := map[], [], 1;
      new;
      SortedAtFirst(rc);
    }

    /** One host: it goes to the first remote cluster that matches it. */
    method SortHost(host: string, ghost hosts: seq<string>)
      requires Valid(hosts)
      modifies this
      ensures Valid(hosts + [host])
    {
      FiledSorted(rc, hosts, S(), host);
      var u2, matched := 0, false;
      ghost var before := S();
      while u2 < rc.count && !matched
        invariant 0 <= u2 <= rc.count && FirstMatch(rc, host, u2) == Matching(rc, host) && S() == before
        invariant matched ==> u2 < rc.count && rc.matches(u2, host)
        invariant hostRemote == old(hostRemote)
        decreases rc.count - u2, !matched
      {
        if rc.matches(u2, host) {
          matched := true;
        } else {
          u2 := u2 + 1;
        }
      }
      if matched {
        members := members[u2 := members[u2] + [host]];
        if ids[u2] == -1 {
          ids := ids[u2 := nextId];
          nextId := nextId + 1;
        }
        hostRemote := hostRemote[host := u2];
      } else {
        local := local + [host];
      }
    }

    method SortHosts(hosts: seq<string>)
      requires Valid([])
      modifies this
      ensures Valid(hosts)
    {
      var u := 0;
      while u < |hosts|
        invariant 0 <= u <= |hosts| && Valid(hosts[..u])
      {
        SortHost(hosts[u], hosts[..u]);
        assert hosts[..u + 1] == hosts[..u] + [hosts[u]];
        u := u + 1;
      }
      assert hosts[..u] == hosts;
    }

    /** The search for the cluster with a number; the code asserts that there is one. */
    method FindCluster(k: int, ghost hosts: seq<string>) returns (i: nat)
      requires Valid(hosts) && 1 <= k < nextId
      ensures i < |ids| && ids[i] == k
    {
      assert k in ids;
      i := 0;
      while ids[i] != k
        invariant i < |ids| && k !in ids[..i]
        decreases |ids| - i
      {
        i := i + 1;
        assert k in ids && ids == ids[..i] + ids[i..];
      }
    }

    /** The next ranks go to the hosts of one group. */
    method RankGroup(hostRank: map<string, int>, next: nat, group: seq<string>, ghost before: seq<string>)
      returns (r: map<string, int>, next': nat)
      requires Positions(hostRank, before) && next == |before| && Distinct(before + group)
      ensures Positions(r, before + group) && next' == |before + group|
      ensures SameOutside(group, hostRank, r)
    {
      r, next' := hostRank, next;
      var u := 0;
      while u < |group|
        invariant 0 <= u <= |group| && next' == |before| + u && Positions(r, before + group[..u])
        invariant SameOutside(group, hostRank, r)
      {
        var all := before + group;
        assert group[u] == all[|before| + u] && all[..|before| + u] == before + group[..u];
        r, next' := r[group[u] := next'], next' + 1;
        assert before + group[..u + 1] == (before + group[..u]) + [group[u]];
        u := u + 1;
      }
      assert group[..u] == group;
    }

    /** The ranks of one remote cluster follow those given out so far. */
    method RankCluster(hostRank: map<string, int>, next: nat, k: int, ghost hosts: seq<string>, ghost groups: seq<seq<string>>)
      returns (r: map<string, int>, next': nat, ghost group: seq<string>)
      requires Valid(hosts) && Distinct(hosts) && GroupsOf(S(), groups) && |groups| == k < nextId
      requires Positions(hostRank, Joined(groups)) && next == |Joined(groups)|
      ensures GroupsOf(S(), groups + [group])
      ensures Positions(r, Joined(groups + [group])) && next' == |Joined(groups + [group])|
      ensures SameOutside(hosts, hostRank, r)
    {
      var i2 := FindCluster(k, hosts);
      group := members[i2];
      ghost var all := groups + [group];
      assert all[..k] == groups;
      assert IsCluster(S(), k, group);
      forall n | 1 <= n < |all|
        ensures IsCluster(S(), n, all[n])
      {
        if n < k {
          assert IsCluster(S(), n, groups[n]);
        }
      }
      GroupsAreTagged(rc, hosts, S(), all);
      r, next' := RankGroup(hostRank, next, members[i2], Joined(groups));
      assert forall s :: s in group ==> s in Joined(all);
    }

    /** New ranks for all hosts: the local ones first, and then cluster by cluster. */
    method RankHosts(hostRank: map<string, int>, ghost hosts: seq<string>)
      returns (r: map<string, int>, ghost groups: seq<seq<string>>)
      requires Valid(hosts) && Distinct(hosts) && local != []
      ensures Grouped(hosts, groups) && GroupsOf(S(), groups) && |groups| == nextId && Positions(r, Joined(groups))
      ensures SameOutside(hosts, hostRank, r)
    {
      groups := [local];
      GroupsAreTagged(rc, hosts, S(), groups);
      JoinedOne(local);
      assert forall s :: s in local ==> s in hosts;
      var next;
      assert [] + local == local;
      r, next := RankGroup(hostRank, 0, local, []);
      var i := 1;
      while i < nextId
        invariant 1 <= i == |groups| <= nextId && GroupsOf(S(), groups)
        invariant Positions(r, Joined(groups)) && next == |Joined(groups)|
        invariant SameOutside(hosts, hostRank, r)
      {
        ghost var group;
        r, next, group := RankCluster(r, next, i, hosts, groups);
        groups := groups + [group];
        i := i + 1;
      }
      AllGrouped(rc, hosts, S(), groups);
    }

    method ClusterSize(k: int, ghost hosts: seq<string>, ghost groups: seq<seq<string>>) returns (n: nat)
      requires Valid(hosts) && GroupsOf(S(), groups) && 1 <= k < |groups|
      ensures n == |groups[k]|
    {
      var i2 := FindCluster(k, hosts);
      OneCluster(rc, hosts, S(), k, groups[k], i2);
      n := |members[i2]|;
    }

    /** The offsets that the clusters are started with. */
    method ClusterOffsets(ghost hosts: seq<string>, ghost groups: seq<seq<string>>) returns (offsets: seq<nat>)
      requires Valid(hosts) && GroupsOf(S(), groups) && |groups| == nextId
      ensures |offsets| == nextId && OffsetsRight(Sizes(groups), offsets)
    {
      ghost var sizes := Sizes(groups);
      var clusterOffset := 0;
      offsets := [clusterOffset];
      clusterOffset := clusterOffset + |local|;
      FirstOffsets(groups);
      var i := 1;
      while i < nextId
        invariant 1 <= i == |offsets| <= nextId && clusterOffset == T.Offset(sizes, i)
        invariant |sizes| == nextId && OffsetsRight(sizes, offsets)
      {
        var n := ClusterSize(i, hosts, groups);
        NextOffset(sizes, offsets, clusterOffset);
        offsets := offsets + [clusterOffset];
        clusterOffset := clusterOffset + n;
        i := i + 1;
      }
    }

    /** The filters get the ranks of their hosts and the numbers of their clusters. */
    method RankFilters(l: Layout, t: Tables, hostRank: map<string, int>, ghost hosts: seq<string>,
                       ghost groups: seq<seq<string>>)
      returns (rank: map<Id, int>, tag: map<Id, int>)
      requires Valid(hosts) && Distinct(hosts) && Grouped(hosts, groups)
      requires GroupsOf(S(), groups) && |groups| == nextId && Positions(hostRank, Joined(groups))
      requires CONSOLE in hostRank && hostRank[CONSOLE] == -1 && CONSOLE !in hosts
      requires forall a :: a in l.filters ==> a in t.host && (t.host[a] == CONSOLE || t.host[a] in hosts)
      ensures Ranked(l, t, groups, rank) && Tagged(l, t, groups, rank, tag)
    {
      rank, tag := map[], map[];
      var u := 0;
      while u < |l.filters|
        invariant 0 <= u <= |l.filters|
        invariant forall j :: 0 <= j < u ==> RankedOne(t, groups, rank, tag, l.filters[j])
      {
        var a := l.filters[u];
        var r, k := RankFilter(t.host[a], hostRank, hosts, groups);
        rank, tag := rank[a := r], tag[a := k];
        u := u + 1;
      }
      forall a | a in l.filters
        ensures RankedOne(t, groups, rank, tag, a)
      {
        var j :| 0 <= j < |l.filters| && l.filters[j] == a;
      }
    }

    /** Rank and cluster of a filter on the given host. */
    method RankFilter(host: string, hostRank: map<string, int>, ghost hosts: seq<string>, ghost groups: seq<seq<string>>)
      returns (rank: int, cluster: int)
      requires Valid(hosts) && Distinct(hosts) && Grouped(hosts, groups)
      requires GroupsOf(S(), groups) && |groups| == nextId && Positions(hostRank, Joined(groups))
      requires CONSOLE in hostRank && hostRank[CONSOLE] == -1 && CONSOLE !in hosts && (host == CONSOLE || host in hosts)
      ensures RankRight(groups, host, rank, cluster)
    {
      cluster := 0;
      if host in hostRemote {
        cluster := ids[hostRemote[host]];
      }
      if host != CONSOLE {
        HostPlaced(rc, hosts, S(), groups, hostRank, host);
      }
      rank := hostRank[host];
    }

    /**
      All of it, after a placement.  Without a remote member there is one cluster, and the ranks of the
      placement stay; the code ends the program if this machine matches a remote cluster.
    */
    method Assign(h: Hosts, l: Layout, t: Tables, hostRank: map<string, int>)
      returns (rank: map<Id, int>, tag: map<Id, int>, offsets: seq<nat>, ghost groups: seq<seq<string>>)
      requires Closed(l) && RanksRight(h, l, t) && Valid([]) && Matching(rc, h.localhost) == -1
      requires CONSOLE in hostRank && hostRank[CONSOLE] == -1
      modifies this
      ensures Grouped(t.runHosts[1..], groups) && Ranked(l, t, groups, rank) && Tagged(l, t, groups, rank, tag)
      ensures |offsets| == |groups| && OffsetsRight(Sizes(groups), offsets)
    {
      var hosts := t.runHosts[1..];
      HostsOfRun(h, l, t);
      SortHosts(hosts);
      BelongingMembers(rc, hosts, -1);
      assert hosts[0] == h.localhost && h.localhost in local;
      if |local| == |hosts| {
        groups := [hosts];
        StaysRanked(h, l, t);
        rank := t.rank;
        tag := map a | a in t.rank :: 0;
        offsets := [0];
        NoOneRemote(h, l, t, rank, tag);
      } else {
        var r;
        r, groups := RankHosts(hostRank, hosts);
        rank, tag := RankFilters(l, t, r, hosts, groups);
        offsets := ClusterOffsets(hosts, groups);
      }
    }
  }

  /** The cluster tag of a filter is the cluster of its rank; the console is in cluster 0. */
  ghost predicate Tagged(l: Layout, t: Tables, groups: seq<seq<string>>, rank: map<Id, int>, tag: map<Id, int>) {
    forall a :: a in l.filters ==> RankedOne(t, groups, rank, tag, a)
  }

  ghost predicate RankedOne(t: Tables, groups: seq<seq<string>>, rank: map<Id, int>, tag: map<Id, int>, a: Id) {
    a in rank && a in tag && a in t.host && RankRight(groups, t.host[a], rank[a], tag[a])
  }

  ghost predicate RankRight(groups: seq<seq<string>>, host: string, rank: int, cluster: int) {
    if host == CONSOLE then rank == -1 && cluster == 0
    else
      && 0 <= rank < |Joined(groups)| && Joined(groups)[rank] == host
      && var c := ClustersOf(groups, false);
         T.Valid(c) && T.IsProcess(c, rank) && cluster == T.ClusterOf(c, rank)
  }

  lemma {:induction false} JoinedOne<X>(s: seq<X>)
    ensures Joined([s]) == s
  {
    assert [s][..0] == [] && Joined<X>([]) == [] && [] + s == s;
  }

  /** The offset a cluster is started with is its first rank. */
  predicate OffsetsRight(sizes: seq<nat>, offsets: seq<nat>) {
    |offsets| <= |sizes| && forall k :: 0 <= k < |offsets| ==> offsets[k] == T.Offset(sizes, k)
  }

  lemma {:induction false} NextOffset(sizes: seq<nat>, offsets: seq<nat>, x: nat)
    requires OffsetsRight(sizes, offsets) && |offsets| < |sizes| && x == T.Offset(sizes, |offsets|)
    ensures OffsetsRight(sizes, offsets + [x]) && T.Offset(sizes, |offsets| + 1) == x + sizes[|offsets|]
  {
  }

  lemma {:induction false} FirstOffsets(groups: seq<seq<string>>)
    requires groups != []
    ensures T.Offset(Sizes(groups), 0) == 0 && T.Offset(Sizes(groups), 1) == |groups[0]|
  {
    assert T.Offset(Sizes(groups), 1) == T.Offset(Sizes(groups), 0) + Sizes(groups)[0];
  }

  /** Ranks of names that are no hosts do not change. */
  predicate SameOutside(hosts: seq<string>, a: map<string, int>, b: map<string, int>) {
    forall s :: s !in hosts && s in a ==> s in b && a[s] == b[s]
  }

  /** A number belongs to one cluster only. */
  lemma {:induction false} OneCluster(rc: RemoteClusters, hosts: seq<string>, w: Sorting, k: int, group: seq<string>, i: nat)
    requires Sorted(rc, hosts, w) && k >= 1 && IsCluster(w, k, group) && i < |w.ids| && w.ids[i] == k
    ensures group == w.members[i]
  {
    var j :| 0 <= j < |w.ids| && w.ids[j] == k && group == w.members[j];
    assert w.ids[i] == w.ids[j];
  }

  /** The rank of a host is in the range of the cluster whose number it carries. */
  lemma {:induction false} HostPlaced(rc: RemoteClusters, hosts: seq<string>, w: Sorting, groups: seq<seq<string>>,
                                      hostRank: map<string, int>, s: string)
    requires Distinct(hosts) && Sorted(rc, hosts, w) && Grouped(hosts, groups) && GroupsOf(w, groups) && |groups| == w.nextId
    requires Positions(hostRank, Joined(groups)) && s in hosts
    ensures s in hostRank && 0 <= hostRank[s] < |Joined(groups)| && Joined(groups)[hostRank[s]] == s
    ensures var c := ClustersOf(groups, false);
            T.Valid(c) && T.IsProcess(c, hostRank[s]) && TagOf(rc, w, s) == T.ClusterOf(c, hostRank[s])
  {
    var all := Joined(groups);
    assert s in all;
    var r :| 0 <= r < |all| && all[r] == s;
    var k := TagOf(rc, w, s);
    TagIsId(rc, hosts, w, s);
    InGroup(rc, hosts, w, groups, s);
    GroupOwnsRange(hosts, groups, false, k, r);
  }

  lemma {:induction false} InGroup(rc: RemoteClusters, hosts: seq<string>, w: Sorting, groups: seq<seq<string>>, s: string)
    requires Distinct(hosts) && Sorted(rc, hosts, w) && GroupsOf(w, groups) && |groups| == w.nextId && s in hosts
    ensures var k := TagOf(rc, w, s); 0 <= k < |groups| && s in groups[k]
  {
    var i, k := Matching(rc, s), TagOf(rc, w, s);
    TagIsId(rc, hosts, w, s);
    BelongingMembers(rc, hosts, i);
    if i >= 0 {
      assert MemberOk(rc, hosts, w, i) && IsCluster(w, k, groups[k]);
      OneCluster(rc, hosts, w, k, groups[k], i);
    }
  }

  lemma {:induction false} HostsOfRun(h: Hosts, l: Layout, t: Tables)
    requires Closed(l) && RanksRight(h, l, t)
    ensures Distinct(t.runHosts[1..]) && CONSOLE !in t.runHosts[1..]
    ensures forall a :: a in l.filters ==> a in t.host && (t.host[a] == CONSOLE || t.host[a] in t.runHosts[1..])
  {
    var hosts := t.runHosts[1..];
    forall i | 0 <= i < |hosts|
      ensures hosts[i] != CONSOLE
    {
      assert hosts[i] == t.runHosts[i + 1];
    }
    forall a | a in l.filters
      ensures a in t.host && (t.host[a] == CONSOLE || t.host[a] in hosts)
    {
      if t.rank[a] >= 0 {
        assert hosts[t.rank[a]] == t.host[a];
      }
    }
  }

  /** With one group, the ranks of the placement are already right. */
  lemma {:induction false} StaysRanked(h: Hosts, l: Layout, t: Tables)
    requires Closed(l) && RanksRight(h, l, t)
    ensures Grouped(t.runHosts[1..], [t.runHosts[1..]]) && Ranked(l, t, [t.runHosts[1..]], t.rank)
  {
    var hosts := t.runHosts[1..];
    JoinedOne(hosts);
    HostsOfRun(h, l, t);
    forall a | a in l.filters
      ensures if t.host[a] == CONSOLE then t.rank[a] == -1
              else 0 <= t.rank[a] < |hosts| && hosts[t.rank[a]] == t.host[a]
    {
      assert t.runHosts[t.rank[a] + 1] == t.host[a];
    }
  }

  lemma {:induction false} NoOneRemote(h: Hosts, l: Layout, t: Tables, rank: map<Id, int>, tag: map<Id, int>)
    requires Closed(l) && RanksRight(h, l, t) && rank == t.rank && tag == map a | a in t.rank :: 0
    ensures Tagged(l, t, [t.runHosts[1..]], rank, tag)
  {
    var hosts := t.runHosts[1..];
    StaysRanked(h, l, t);
    JoinedOne(hosts);
    forall a | a in l.filters
      ensures RankedOne(t, [hosts], rank, tag, a)
    {
      if t.host[a] != CONSOLE {
        assert t.host[a] in hosts;
        GroupOwnsRange(hosts, [hosts], false, 0, rank[a]);
      }
    }
  }

  /** Every host of the list has its position as its rank. */
  predicate Positions(hostRank: map<string, int>, all: seq<string>) {
    forall k :: 0 <= k < |all| ==> all[k] in hostRank && hostRank[all[k]] == k
  }
}
