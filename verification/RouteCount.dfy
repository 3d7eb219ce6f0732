/**
  How many "all my filters are done" messages the head of a cluster forwards for other ranks,
  and why the number the main loop computes is exactly that.
*/
module RouteCount {
  import opened Topology

  // ---------------------------------------------------------------------------
  // Cardinalities
  // ---------------------------------------------------------------------------

  ghost function Pick<T>(s: set<T>): (x: T)
    requires s != {}
    ensures x in s
  {
    var x :| x in s;
    x
  }

  predicate Within(r: int, a: int, b: int) {
    a <= r < b
  }

  ghost function Range(a: int, b: int): set<int> {
    set r | a <= r < b && Within(r, a, b)
  }

  lemma {:induction false} RangeSize(a: int, b: int)
    requires a <= b
    ensures |Range(a, b)| == b - a
    decreases b - a
  {
    if a < b {
      RangeSize(a, b - 1);
      assert Range(a, b) == Range(a, b - 1) + {b - 1};
    } else {
      assert Range(a, b) == {};
    }
  }

  ghost function Pairs(a: set<int>, b: set<int>): set<(int, int)> {
    set x, y | x in a && y in b :: (x, y)
  }

  lemma {:induction false} RowSize(x: int, b: set<int>)
    ensures |Pairs({x}, b)| == |b|
    decreases b
  {
    if b != {} {
      var y := Pick(b);
      RowSize(x, b - {y});
      assert Pairs({x}, b) == Pairs({x}, b - {y}) + {(x, y)};
    } else {
      assert Pairs({x}, b) == {};
    }
  }

  lemma {:induction false} PairsSize(a: set<int>, b: set<int>)
    ensures |Pairs(a, b)| == |a| * |b|
    decreases a
  {
    if a != {} {
      var x := Pick(a);
      PairsSize(a - {x}, b);
      RowSize(x, b);
      assert Pairs(a, b) == Pairs(a - {x}, b) + Pairs({x}, b);
      assert Pairs(a - {x}, b) !! Pairs({x}, b);
      assert |a| * |b| == (|a| - 1) * |b| + |b|;
    } else {
      assert Pairs(a, b) == {};
    }
  }

  lemma {:induction false} SubsetSize<T>(a: set<T>, b: set<T>)
    requires a <= b
    ensures |a| <= |b|
  {
    if a != {} {
      var x := Pick(a);
      SubsetSize(a - {x}, b - {x});
    }
  }

  /** A subset as large as the whole is the whole. */
  lemma {:induction false} SameSize<T>(a: set<T>, b: set<T>)
    requires a <= b && |a| == |b|
    ensures a == b
  {
    forall x | x in b
      ensures x in a
    {
      if x !in a {
        SubsetSize(a, b - {x});
      }
    }
  }

  // ---------------------------------------------------------------------------
  // The messages a process relays
  // ---------------------------------------------------------------------------

  ghost function Ranks(t: Clusters): set<int> {
    set r | -1 <= r < Processes(t) && IsRank(t, r)
  }

  /** (s, d) for which process h takes the packet out of one link and puts it on another. */
  ghost predicate IsRelayed(t: Clusters, h: int, s: int, d: int)
    requires Valid(t)
  {
    IsRank(t, s) && IsRank(t, d) && s != d && h != d && h in Relays(t, s, d)
  }

  ghost function RelayedPairs(t: Clusters, h: int): set<(int, int)>
    requires Valid(t)
  {
    set s, d | s in Ranks(t) && d in Ranks(t) && IsRelayed(t, h, s, d) :: (s, d)
  }

  /** `all_filter_done_messages_to_route` of process h. */
  function MessagesToRoute(t: Clusters, h: int): int
    requires Valid(t) && IsProcess(t, h)
  {
    var c := ClusterOf(t, h);
    if h != Head(t, c) then
      0
    else
      var withConsole := c == 0 && t.console;
      var others := t.sizes[c] - 1 + if withConsole then 1 else 0;
      (if withConsole then 2 * (t.sizes[c] - 1) else 0) + others * (TotalRanks(t) - (others + 1)) * 2
  }

  ghost function Outside(t: Clusters, c: nat): set<int>
    requires Valid(t)
  {
    set r | r in Ranks(t) && ClusterOf(t, r) != c
  }

  ghost function Behind(t: Clusters, c: nat): set<int>
    requires Valid(t) && c < |t.sizes|
  {
    set r | r in Ranks(t) && ClusterOf(t, r) == c && r != Head(t, c)
  }

  ghost function ConsolePairs(t: Clusters, c: nat): set<(int, int)>
    requires Valid(t) && c < |t.sizes|
  {
    if c == 0 && t.console then
      Pairs({-1}, Behind(t, c) - {-1}) + Pairs(Behind(t, c) - {-1}, {-1})
    else
      {}
  }

  lemma {:induction false} RanksSize(t: Clusters)
    requires Valid(t)
    ensures |Ranks(t)| == TotalRanks(t)
  {
    RangeSize(0, Processes(t));
    if t.console {
      assert Ranks(t) == Range(0, Processes(t)) + {-1};
    } else {
      assert Ranks(t) == Range(0, Processes(t));
    }
  }

  lemma {:induction false} BehindMembers(t: Clusters, c: nat)
    requires Valid(t) && c < |t.sizes|
    ensures var h := Head(t, c);
            forall r :: r in Behind(t, c) <==> h < r < h + t.sizes[c] || (r == -1 && c == 0 && t.console)
  {
    var h := Head(t, c);
    HeadIsProcess(t, c);
    OffsetMonotone(t.sizes, c + 1, |t.sizes|);
    forall r | h < r < h + t.sizes[c]
      ensures r in Behind(t, c)
    {
      ClusterUnique(t, r, c);
    }
  }

  lemma {:induction false} BehindSize(t: Clusters, c: nat)
    requires Valid(t) && c < |t.sizes|
    ensures |Behind(t, c) - {-1}| == t.sizes[c] - 1
    ensures |Behind(t, c)| == t.sizes[c] - 1 + if c == 0 && t.console then 1 else 0
  {
    var h, b := Head(t, c), Behind(t, c);
    BehindMembers(t, c);
    RangeSize(h + 1, h + t.sizes[c]);
    if c == 0 && t.console {
      assert b == Range(h + 1, h + t.sizes[c]) + {-1};
      assert b - {-1} == Range(h + 1, h + t.sizes[c]);
    } else {
      assert b == Range(h + 1, h + t.sizes[c]);
      assert b - {-1} == b;
    }
  }

  lemma {:induction false} OutsideSize(t: Clusters, c: nat)
    requires Valid(t) && c < |t.sizes|
    ensures |Outside(t, c)| == TotalRanks(t) - |Behind(t, c)| - 1
  {
    RanksSize(t);
    HeadIsProcess(t, c);
    assert Ranks(t) == Outside(t, c) + Behind(t, c) + {Head(t, c)};
  }

  /** What a head relays: traffic into and out of its cluster, and between its cluster and the console. */
  lemma {:induction false} RelayedByHead(t: Clusters, c: nat, s: int, d: int)
    requires Valid(t) && c < |t.sizes| && IsRank(t, s) && IsRank(t, d) && s != d
    ensures IsRelayed(t, Head(t, c), s, d) <==>
      && s != Head(t, c) && d != Head(t, c)
      && (if ClusterOf(t, s) == c then s == -1 || d == -1 || ClusterOf(t, d) != c
          else ClusterOf(t, d) == c)
  {
    RelaysShape(t, s, d);
    HeadIsProcess(t, c);
    HeadIsProcess(t, ClusterOf(t, s));
    HeadIsProcess(t, ClusterOf(t, d));
  }

  lemma {:induction false} RelayedPairsOfHead(t: Clusters, c: nat)
    requires Valid(t) && c < |t.sizes|
    ensures RelayedPairs(t, Head(t, c))
         == Pairs(Behind(t, c), Outside(t, c)) + Pairs(Outside(t, c), Behind(t, c)) + ConsolePairs(t, c)
  {
    var h := Head(t, c);
    HeadIsProcess(t, c);
    var all := Pairs(Behind(t, c), Outside(t, c)) + Pairs(Outside(t, c), Behind(t, c)) + ConsolePairs(t, c);
    forall s, d | s in Ranks(t) && d in Ranks(t) && s != d
      ensures (s, d) in RelayedPairs(t, h) <==> (s, d) in all
    {
      RelayedByHead(t, c, s, d);
    }
  }

  /** Only heads relay. */
  lemma {:induction false} NonHeadsRelayNothing(t: Clusters, h: int)
    requires Valid(t) && IsProcess(t, h) && !IsHead(t, h)
    ensures RelayedPairs(t, h) == {}
  {
    forall s, d | IsRank(t, s) && IsRank(t, d) && s != d && h != d
      ensures !IsRelayed(t, h, s, d)
    {
      HeadIsProcess(t, ClusterOf(t, s));
      HeadIsProcess(t, ClusterOf(t, d));
    }
  }

  lemma {:induction false} DisjointPairs(a: set<int>, b: set<int>, c: set<int>, d: set<int>)
    requires a !! c || b !! d
    ensures Pairs(a, b) !! Pairs(c, d)
  {
  }

  lemma {:induction false} UnionSize<T>(a: set<T>, b: set<T>)
    requires a !! b
    ensures |a + b| == |a| + |b|
  {
  }

  lemma {:induction false} ConsolePairsSize(t: Clusters, c: nat)
    requires Valid(t) && c < |t.sizes|
    ensures |ConsolePairs(t, c)| == if c == 0 && t.console then 2 * |Behind(t, c) - {-1}| else 0
  {
    var l := Behind(t, c) - {-1};
    PairsSize({-1}, l);
    PairsSize(l, {-1});
    DisjointPairs({-1}, l, l, {-1});
    UnionSize(Pairs({-1}, l), Pairs(l, {-1}));
  }

  lemma {:induction false} ConsolePairsInside(t: Clusters, c: nat)
    requires Valid(t) && c < |t.sizes|
    ensures ConsolePairs(t, c) !! Pairs(Behind(t, c), Outside(t, c)) + Pairs(Outside(t, c), Behind(t, c))
  {
    var b, o := Behind(t, c), Outside(t, c);
    assert b !! o;
    if c == 0 && t.console {
      BehindMembers(t, c);
      assert b - {-1} !! o && {-1} !! o;
      DisjointPairs({-1}, b - {-1}, b, o);
      DisjointPairs({-1}, b - {-1}, o, b);
      DisjointPairs(b - {-1}, {-1}, b, o);
      DisjointPairs(b - {-1}, {-1}, o, b);
    }
  }

  lemma {:induction false} PairCounts(t: Clusters, c: nat)
    requires Valid(t) && c < |t.sizes|
    ensures |RelayedPairs(t, Head(t, c))|
         == 2 * (|Behind(t, c)| * |Outside(t, c)|) + |ConsolePairs(t, c)|
  {
    var b, o := Behind(t, c), Outside(t, c);
    RelayedPairsOfHead(t, c);
    PairsSize(b, o);
    PairsSize(o, b);
    assert |o| * |b| == |b| * |o|;
    DisjointPairs(b, o, o, b);
    UnionSize(Pairs(b, o), Pairs(o, b));
    ConsolePairsInside(t, c);
    UnionSize(Pairs(b, o) + Pairs(o, b), ConsolePairs(t, c));
  }

  /**
    The number each process waits for before it leaves its main loop is the number of ordered
    pairs of other ranks whose messages it relays, for every number and size of clusters.
  */
  lemma {:induction false} MessagesToRouteExact(t: Clusters, h: int)
    requires Valid(t) && IsProcess(t, h)
    ensures |RelayedPairs(t, h)| == MessagesToRoute(t, h)
  {
    if !IsHead(t, h) {
      NonHeadsRelayNothing(t, h);
    } else {
      var c := ClusterOf(t, h);
      PairCounts(t, c);
      ConsolePairsSize(t, c);
      BehindSize(t, c);
      OutsideSize(t, c);
      var b := |Behind(t, c)|;
      assert 2 * (b * (TotalRanks(t) - b - 1)) == b * (TotalRanks(t) - (b + 1)) * 2;
    }
  }
}
