/**
  Transparent copies.  A filter with n copies is replaced by n instances, and every port that led
  to it now leads to each of them.  The result is the full product of the original connections
  exactly when no filter that is expanded has a port leading back to itself.
*/
module Transparent {
  import opened Common
  import opened Layouts

  predicate Expandable(x: Instance) {
    x.numCopies > 1 && !x.expanded
  }

  /** The assertion in the code: several hosts are given only one for each copy. */
  predicate HostsGiven(l: Layout) {
    forall a :: a in l.filters && a in l.heap && Expandable(l.heap[a]) && |l.heap[a].bindHosts| > 1 ==>
      |l.heap[a].bindHosts| == l.heap[a].numCopies
  }

  // ---------------------------------------------------------------------------
  // Expanding one filter
  // ---------------------------------------------------------------------------

  /** The expanded instance keeps the first host and the first labels. */
  function First(x: Instance): Instance {
    x.(expanded := true,
       bindHosts := if |x.bindHosts| > 1 then [x.bindHosts[0]] else x.bindHosts,
       labels := if x.labels != [] then [x.labels[0]] else [])
  }

  /** Copy k gets the k-th host and the k-th labels, as far as there are any. */
  function CopyOf(x: Instance, k: nat): Instance
    requires |x.bindHosts| > 1 ==> k < |x.bindHosts|
  {
    First(x).(copyRank := k,
              bindHosts := if |x.bindHosts| > 1 then [x.bindHosts[k]] else x.bindHosts,
              labels := if k < |x.labels| then [x.labels[k]] else First(x).labels)
  }

  function ToAll(copies: seq<Id>, port: string): (r: seq<Remote>)
    ensures |r| == |copies|
  {
    seq(|copies|, i requires 0 <= i < |copies| => Remote(copies[i], port))
  }

  /** What is appended to a port: for each remote that leads to b, one to every copy. */
  function Added(remotes: seq<Remote>, b: Id, copies: seq<Id>): seq<Remote> {
    if remotes == [] then []
    else
      var k := |remotes| - 1;
      Added(remotes[..k], b, copies) + if remotes[k].instance == b then ToAll(copies, remotes[k].port) else []
  }

  function Rewired(x: Instance, b: Id, copies: seq<Id>): Instance {
    x.(outports := map p | p in x.outports :: x.outports[p] + Added(x.outports[p], b, copies))
  }

  function NewIds(from: Id, n: nat): (s: seq<Id>)
    ensures |s| == n
  {
    seq(n, i requires 0 <= i < n => from + i)
  }

  ghost predicate CanExpand(l: Layout, u: nat) {
    Closed(l) && HostsGiven(l) && u < |l.filters| && Expandable(l.heap[l.filters[u]])
  }

  function Copies(l: Layout, u: nat): seq<Id>
    requires u < |l.filters| && l.filters[u] in l.heap && Expandable(l.heap[l.filters[u]])
  {
    NewIds(l.next, l.heap[l.filters[u]].numCopies - 1)
  }

  /** One turn of `expand_transparents`: the copies go in front of the instance at position u. */
  ghost function ExpandAt(l: Layout, u: nat): Layout
    requires CanExpand(l, u)
  {
    var b, copies := l.filters[u], Copies(l, u);
    Layout(l.filters[..u] + copies + l.filters[u..],
           map a | a in l.heap.Keys + Ids(copies) :: ExpandedInstance(l, u, a),
           l.next + |copies|)
  }

  ghost function ExpandedInstance(l: Layout, u: nat, a: Id): Instance
    requires CanExpand(l, u) && (a in l.heap || a in Copies(l, u))
  {
    var b, copies := l.filters[u], Copies(l, u);
    if a in copies then CopyOf(l.heap[b], a - l.next + 1)
    else if a in l.filters then Rewired(if a == b then First(l.heap[b]) else l.heap[a], b, copies)
    else l.heap[a]
  }

  /** A run of expansions, in whatever order the positions say. */
  ghost predicate Expands(l: Layout, order: seq<nat>, r: Layout)
    decreases |order|
  {
    if order == [] then l == r
    else CanExpand(l, order[0]) && Expands(ExpandAt(l, order[0]), order[1..], r)
  }

  /** Nothing is left to expand. */
  predicate Done(l: Layout) {
    forall a :: a in l.filters && a in l.heap ==> !Expandable(l.heap[a])
  }

  // ---------------------------------------------------------------------------
  // What one expansion does to the connections
  // ---------------------------------------------------------------------------

  lemma {:induction false} ToAllCount(copies: seq<Id>, port: string, c: Id, q: string)
    requires Distinct(copies)
    ensures multiset(ToAll(copies, port))[Remote(c, q)] == if c in copies && q == port then 1 else 0
    decreases |copies|
  {
    if copies != [] {
      var k := |copies| - 1;
      assert ToAll(copies, port) == ToAll(copies[..k], port) + [Remote(copies[k], port)];
      ToAllCount(copies[..k], port, c, q);
      assert copies == copies[..k] + [copies[k]];
    }
  }

  lemma {:induction false} AddedCount(remotes: seq<Remote>, b: Id, copies: seq<Id>, c: Id, q: string)
    requires Distinct(copies)
    ensures multiset(Added(remotes, b, copies))[Remote(c, q)]
         == if c in copies then multiset(remotes)[Remote(b, q)] else 0
    decreases |remotes|
  {
    if remotes != [] {
      var k := |remotes| - 1;
      AddedCount(remotes[..k], b, copies, c, q);
      ToAllCount(copies, remotes[k].port, c, q);
      assert remotes == remotes[..k] + [remotes[k]];
    }
  }

  lemma {:induction false} NewIdsFresh(from: Id, n: nat)
    ensures Distinct(NewIds(from, n)) && forall a :: a in NewIds(from, n) <==> from <= a < from + n
  {
    forall a | from <= a < from + n
      ensures a in NewIds(from, n)
    {
      assert NewIds(from, n)[a - from] == a;
    }
  }

  /** The connections after one expansion, for old instances and for the copies. */
  lemma {:induction false} ExpandEdges(l: Layout, u: nat, a: Id, p: string, c: Id, q: string)
    requires CanExpand(l, u) && (a in l.filters || a in Copies(l, u))
    ensures var b, copies := l.filters[u], Copies(l, u);
            && a in ExpandAt(l, u).heap
            && Edges(ExpandAt(l, u), a, p, c, q)
            == if a !in l.filters then Edges(l, b, p, c, q)
               else if c in copies then Edges(l, a, p, b, q)
               else Edges(l, a, p, c, q)
  {
    var b, copies := l.filters[u], Copies(l, u);
    NewIdsFresh(l.next, l.heap[b].numCopies - 1);
    if a in l.filters {
      AddedCount(Remotes(l.heap[a], p), b, copies, c, q);
      if c in copies {
        EdgeInside(l, a, p, c, q);
      }
    }
  }

  lemma {:induction false} InsertDistinct(s: seq<Id>, u: nat, added: seq<Id>)
    requires u <= |s| && Distinct(s) && Distinct(added) && forall a :: a in added ==> a !in s
    ensures var r := s[..u] + added + s[u..];
            Distinct(r) && forall a :: a in r <==> a in s || a in added
  {
    assert s == s[..u] + s[u..];
    DistinctJoin(s[..u], added);
    forall x | x in s[..u] + added
      ensures x !in s[u..]
    {
    }
    DistinctJoin(s[..u] + added, s[u..]);
  }

  lemma {:induction false} ExpandFilters(l: Layout, u: nat)
    requires CanExpand(l, u)
    ensures var r := ExpandAt(l, u);
            && Distinct(r.filters)
            && forall a :: a in r.filters <==> a in l.filters || a in Copies(l, u)
  {
    NewIdsFresh(l.next, |Copies(l, u)|);
    InsertDistinct(l.filters, u, Copies(l, u));
  }

  lemma {:induction false} ExpandPointsInto(l: Layout, u: nat, a: Id)
    requires CanExpand(l, u) && (a in l.filters || a in Copies(l, u))
    ensures a in ExpandAt(l, u).heap && PointsInto(ExpandAt(l, u).heap[a], ExpandAt(l, u).filters)
  {
    var b, copies, r := l.filters[u], Copies(l, u), ExpandAt(l, u);
    ExpandFilters(l, u);
    NewIdsFresh(l.next, |copies|);
    forall p, x | p in r.heap[a].outports && x in r.heap[a].outports[p]
      ensures x.instance in r.filters
    {
      ExpandEdges(l, u, a, p, x.instance, x.port);
      EdgeInside(l, if a in l.filters then a else b, p, x.instance, x.port);
    }
  }

  /** An expansion keeps every port target inside the layout. */
  lemma {:induction false} ExpandClosed(l: Layout, u: nat)
    requires CanExpand(l, u)
    ensures Closed(ExpandAt(l, u)) && HostsGiven(ExpandAt(l, u))
  {
    var r := ExpandAt(l, u);
    ExpandFilters(l, u);
    NewIdsFresh(l.next, |Copies(l, u)|);
    forall a | a in r.filters
      ensures a in r.heap && a < r.next && PointsInto(r.heap[a], r.filters)
    {
      ExpandPointsInto(l, u, a);
    }
  }

  // ---------------------------------------------------------------------------
  // Whole runs
  // ---------------------------------------------------------------------------

  /** Which filter of the first layout every instance stands for. */
  type Origins = map<Id, Id>

  function AllOrigins(l: Layout): Origins {
    map a | a in l.filters :: a
  }

  ghost function StepOrigins(l: Layout, u: nat, o: Origins): Origins
    requires CanExpand(l, u) && l.filters[u] in o
  {
    map a | a in o.Keys + Ids(Copies(l, u)) :: if a in Copies(l, u) then o[l.filters[u]] else o[a]
  }

  /** The connections of l are the full product of those of l0. */
  ghost predicate Product(l0: Layout, l: Layout, o: Origins) {
    forall a, b, p, q :: a in l.filters && b in l.filters ==> SameEdges(l0, l, o, a, p, b, q)
  }

  predicate SameEdges(l0: Layout, l: Layout, o: Origins, a: Id, p: string, b: Id, q: string) {
    && a in l.heap && a in o && o[a] in l0.heap && b in o
    && Edges(l, a, p, b, q) == Edges(l0, o[a], p, o[b], q)
  }

  ghost predicate SelfEdge(l: Layout, a: Id)
    requires a in l.heap
  {
    exists p, q :: p in l.heap[a].outports && Remote(a, q) in l.heap[a].outports[p]
  }

  /** No filter that will be expanded leads to itself. */
  ghost predicate NoSelfEdges(l: Layout) {
    forall a :: a in l.filters && a in l.heap && Expandable(l.heap[a]) ==> !SelfEdge(l, a)
  }

  /** How instance a, copy k of an original x, differs from it. */
  predicate Placed(x: Instance, y: Instance) {
    && y.filtername == x.filtername && y.numCopies == x.numCopies
    && y.inbound == x.inbound && y.outbound == x.outbound
    && if Expandable(x) && y.expanded then
         && 0 <= y.copyRank < x.numCopies
         && y.bindHosts == (if |x.bindHosts| == x.numCopies then [x.bindHosts[y.copyRank]] else x.bindHosts)
         && y.labels == (if y.copyRank < |x.labels| then [x.labels[y.copyRank]]
                         else if x.labels != [] then [x.labels[0]] else [])
       else
         y == x.(outports := y.outports)
  }

  /** Instance a stands for an original, which is expanded exactly when a is. */
  predicate StandsFor(l0: Layout, l: Layout, o: Origins, a: Id) {
    && a in o && a in l.heap && o[a] in l0.filters && o[a] in l0.heap && o[a] in l.heap
    && Placed(l0.heap[o[a]], l.heap[a])
    && l.heap[a].expanded == l.heap[o[a]].expanded
    && (!l.heap[a].expanded ==> o[a] == a)
  }

  predicate HasCopy(l: Layout, o: Origins, a: Id, k: int) {
    exists c :: c in l.filters && c in o && o[c] == a && c in l.heap && l.heap[c].copyRank == k
  }

  /** The number of instances that an original has become. */
  function CopyCount(l0: Layout, l: Layout, a: Id): int
    requires a in l0.heap && a in l.heap
  {
    if Expandable(l0.heap[a]) && l.heap[a].expanded then l0.heap[a].numCopies else 1
  }

  ghost predicate CopiesOf(l0: Layout, l: Layout, o: Origins, a: Id) {
    && a in l.filters && a in l.heap && a in l0.heap && a in o && o[a] == a
    && (CopyCount(l0, l, a) > 1 ==> forall k :: 0 <= k < CopyCount(l0, l, a) ==> HasCopy(l, o, a, k))
  }

  predicate Twins(l: Layout, o: Origins, a: Id, b: Id) {
    a in o && b in o && o[a] == o[b] && a in l.heap && b in l.heap && l.heap[a].copyRank == l.heap[b].copyRank
  }

  /**
    Every instance stands for an original; the copies of an expanded original are numbered from
    zero without gaps, and each number is given once.
  */
  ghost predicate Numbered(l0: Layout, l: Layout, o: Origins) {
    && o.Keys == Ids(l.filters)
    && AllStand(l0, l, o)
    && NoTwins(l, o)
    && AllCopied(l0, l, o)
  }

  ghost predicate AllStand(l0: Layout, l: Layout, o: Origins) {
    forall a :: a in l.filters ==> StandsFor(l0, l, o, a)
  }

  ghost predicate AllCopied(l0: Layout, l: Layout, o: Origins) {
    forall a :: a in l0.filters ==> CopiesOf(l0, l, o, a)
  }

  ghost predicate NoTwins(l: Layout, o: Origins) {
    forall a, b :: a in l.filters && b in l.filters && Twins(l, o, a, b) ==> a == b
  }

  /** Filters that are still to be expanded have copy number zero. */
  predicate Unnumbered(l: Layout) {
    forall a :: a in l.filters && a in l.heap && Expandable(l.heap[a]) ==> l.heap[a].copyRank == 0
  }

  lemma {:induction false} NumberedAtFirst(l: Layout)
    requires Closed(l)
    ensures Numbered(l, l, AllOrigins(l)) && Product(l, l, AllOrigins(l))
  {
    assert AllOrigins(l).Keys == Ids(l.filters);
  }

  /** The instance about to be expanded is an original, as it was at first. */
  lemma {:induction false} ExpandsOriginal(l0: Layout, l: Layout, o: Origins, u: nat)
    requires CanExpand(l, u) && Numbered(l0, l, o) && Unnumbered(l0)
    ensures var b := l.filters[u];
            && b in l0.filters && b in l0.heap && b in o && o[b] == b
            && l.heap[b] == l0.heap[b].(outports := l.heap[b].outports) && l.heap[b].copyRank == 0
            && forall a :: a in l.filters && o[a] == b ==> a == b
  {
    var b := l.filters[u];
    assert StandsFor(l0, l, o, b);
    forall a | a in l.filters && o[a] == b
      ensures a == b
    {
      assert StandsFor(l0, l, o, a);
    }
  }

  lemma {:induction false} StepStandsFor(l0: Layout, l: Layout, o: Origins, u: nat, a: Id)
    requires CanExpand(l, u) && Numbered(l0, l, o) && Unnumbered(l0)
    requires a in l.filters || a in Copies(l, u)
    ensures l.filters[u] in o && StandsFor(l0, ExpandAt(l, u), StepOrigins(l, u, o), a)
  {
    var b, copies := l.filters[u], Copies(l, u);
    ExpandsOriginal(l0, l, o, u);
    NewIdsFresh(l.next, |copies|);
    if a in l.filters {
      assert StandsFor(l0, l, o, a);
      assert CopiesOf(l0, l, o, o[a]);
    }
  }

  lemma {:induction false} StepTwins(l0: Layout, l: Layout, o: Origins, u: nat, a: Id, c: Id)
    requires CanExpand(l, u) && Numbered(l0, l, o) && Unnumbered(l0) && l.filters[u] in o
    requires a in l.filters || a in Copies(l, u)
    requires c in l.filters || c in Copies(l, u)
    requires Twins(ExpandAt(l, u), StepOrigins(l, u, o), a, c)
    ensures a == c
  {
    var b, copies := l.filters[u], Copies(l, u);
    ExpandsOriginal(l0, l, o, u);
    NewIdsFresh(l.next, |copies|);
    if a in l.filters && c in l.filters {
      assert Twins(l, o, a, c);
    }
  }

  lemma {:induction false} StepKeepsCopy(l0: Layout, l: Layout, o: Origins, u: nat, a: Id, k: int)
    requires CanExpand(l, u) && Numbered(l0, l, o) && Unnumbered(l0) && l.filters[u] in o
    requires a != l.filters[u] && HasCopy(l, o, a, k)
    ensures HasCopy(ExpandAt(l, u), StepOrigins(l, u, o), a, k)
  {
    ExpandFilters(l, u);
    NewIdsFresh(l.next, |Copies(l, u)|);
    var c :| c in l.filters && c in o && o[c] == a && c in l.heap && l.heap[c].copyRank == k;
    assert ExpandAt(l, u).heap[c].copyRank == k && StepOrigins(l, u, o)[c] == a;
  }

  lemma {:induction false} StepMakesCopy(l0: Layout, l: Layout, o: Origins, u: nat, k: nat)
    requires CanExpand(l, u) && Numbered(l0, l, o) && Unnumbered(l0) && l.filters[u] in o
    requires k < l.heap[l.filters[u]].numCopies
    ensures HasCopy(ExpandAt(l, u), StepOrigins(l, u, o), l.filters[u], k)
  {
    var b := l.filters[u];
    ExpandsOriginal(l0, l, o, u);
    ExpandFilters(l, u);
    CopyRankAt(l, u, k);
    var c := if k == 0 then b else l.next + k - 1;
    assert StepOrigins(l, u, o)[c] == b;
  }

  /** Copy 0 is the expanded instance itself; the others are the new ones in order. */
  lemma {:induction false} CopyRankAt(l: Layout, u: nat, k: nat)
    requires CanExpand(l, u) && k < l.heap[l.filters[u]].numCopies && l.heap[l.filters[u]].copyRank == 0
    ensures var b := l.filters[u];
            var c := if k == 0 then b else l.next + k - 1;
            && (if k == 0 then c in l.filters && c !in Copies(l, u) else c in Copies(l, u))
            && c in ExpandAt(l, u).heap && ExpandAt(l, u).heap[c].copyRank == k
  {
    NewIdsFresh(l.next, |Copies(l, u)|);
  }

  lemma {:induction false} StepCopiesOf(l0: Layout, l: Layout, o: Origins, u: nat, a: Id)
    requires CanExpand(l, u) && Numbered(l0, l, o) && Unnumbered(l0) && l.filters[u] in o && a in l0.filters
    ensures CopiesOf(l0, ExpandAt(l, u), StepOrigins(l, u, o), a)
  {
    var b, r, o' := l.filters[u], ExpandAt(l, u), StepOrigins(l, u, o);
    ExpandsOriginal(l0, l, o, u);
    ExpandFilters(l, u);
    NewIdsFresh(l.next, |Copies(l, u)|);
    assert CopiesOf(l0, l, o, a);
    if CopyCount(l0, r, a) > 1 {
      forall k | 0 <= k < CopyCount(l0, r, a)
        ensures HasCopy(r, o', a, k)
      {
        if a == b {
          StepMakesCopy(l0, l, o, u, k);
        } else {
          StepKeepsCopy(l0, l, o, u, a, k);
        }
      }
    }
  }

  lemma {:induction false} StepNoTwins(l0: Layout, l: Layout, o: Origins, u: nat)
    requires CanExpand(l, u) && Numbered(l0, l, o) && Unnumbered(l0) && l.filters[u] in o
    ensures NoTwins(ExpandAt(l, u), StepOrigins(l, u, o))
  {
    var r, o' := ExpandAt(l, u), StepOrigins(l, u, o);
    ExpandFilters(l, u);
    forall a, c | a in r.filters && c in r.filters && Twins(r, o', a, c)
      ensures a == c
    {
      StepTwins(l0, l, o, u, a, c);
    }
  }

  lemma {:induction false} StepAllStand(l0: Layout, l: Layout, o: Origins, u: nat)
    requires CanExpand(l, u) && Numbered(l0, l, o) && Unnumbered(l0) && l.filters[u] in o
    ensures AllStand(l0, ExpandAt(l, u), StepOrigins(l, u, o))
  {
    ExpandFilters(l, u);
    forall a | a in ExpandAt(l, u).filters
      ensures StandsFor(l0, ExpandAt(l, u), StepOrigins(l, u, o), a)
    {
      StepStandsFor(l0, l, o, u, a);
    }
  }

  lemma {:induction false} StepKeys(l: Layout, o: Origins, u: nat)
    requires CanExpand(l, u) && o.Keys == Ids(l.filters) && l.filters[u] in o
    ensures StepOrigins(l, u, o).Keys == Ids(ExpandAt(l, u).filters)
  {
    ExpandFilters(l, u);
    assert Ids(ExpandAt(l, u).filters) == Ids(l.filters) + Ids(Copies(l, u));
  }

  lemma {:induction false} StepAllCopied(l0: Layout, l: Layout, o: Origins, u: nat)
    requires CanExpand(l, u) && Numbered(l0, l, o) && Unnumbered(l0) && l.filters[u] in o
    ensures AllCopied(l0, ExpandAt(l, u), StepOrigins(l, u, o))
  {
    forall a | a in l0.filters
      ensures CopiesOf(l0, ExpandAt(l, u), StepOrigins(l, u, o), a)
    {
      StepCopiesOf(l0, l, o, u, a);
    }
  }

  lemma {:induction false} StepNumbered(l0: Layout, l: Layout, o: Origins, u: nat)
    requires CanExpand(l, u) && Numbered(l0, l, o) && Unnumbered(l0)
    ensures l.filters[u] in o && Numbered(l0, ExpandAt(l, u), StepOrigins(l, u, o))
  {
    ExpandsOriginal(l0, l, o, u);
    StepKeys(l, o, u);
    StepAllStand(l0, l, o, u);
    StepNoTwins(l0, l, o, u);
    StepAllCopied(l0, l, o, u);
  }

  // ---------------------------------------------------------------------------
  // The product
  // ---------------------------------------------------------------------------

  lemma {:induction false} StepSameEdges(l0: Layout, l: Layout, o: Origins, u: nat, a: Id, p: string, c: Id, q: string)
    requires CanExpand(l, u) && Numbered(l0, l, o) && Unnumbered(l0) && l.filters[u] in o
    requires Product(l0, l, o) && Edges(l, l.filters[u], p, l.filters[u], q) == 0
    requires a in l.filters || a in Copies(l, u)
    requires c in l.filters || c in Copies(l, u)
    ensures SameEdges(l0, ExpandAt(l, u), StepOrigins(l, u, o), a, p, c, q)
  {
    var b := l.filters[u];
    ExpandsOriginal(l0, l, o, u);
    ExpandEdges(l, u, a, p, c, q);
    NewIdsFresh(l.next, |Copies(l, u)|);
    var a0, c0 := if a in l.filters then a else b, if c in l.filters then c else b;
    assert SameEdges(l0, l, o, a0, p, c0, q);
    if c !in l.filters {
      EdgeInside(l, a0, p, c, q);
    }
  }

  /** A filter leads to itself in l as often as in the first layout. */
  lemma {:induction false} OwnEdges(l0: Layout, l: Layout, o: Origins, u: nat, p: string, q: string)
    requires CanExpand(l, u) && Numbered(l0, l, o) && Unnumbered(l0) && Product(l0, l, o) && NoSelfEdges(l0)
    ensures Edges(l, l.filters[u], p, l.filters[u], q) == 0
  {
    var b := l.filters[u];
    ExpandsOriginal(l0, l, o, u);
    assert SameEdges(l0, l, o, b, p, b, q);
    assert !SelfEdge(l0, b);
  }

  lemma {:induction false} StepProduct(l0: Layout, l: Layout, o: Origins, u: nat)
    requires CanExpand(l, u) && Numbered(l0, l, o) && Unnumbered(l0) && Product(l0, l, o) && NoSelfEdges(l0)
    ensures l.filters[u] in o && Product(l0, ExpandAt(l, u), StepOrigins(l, u, o))
  {
    var r, o' := ExpandAt(l, u), StepOrigins(l, u, o);
    ExpandFilters(l, u);
    forall a, c, p, q | a in r.filters && c in r.filters
      ensures SameEdges(l0, r, o', a, p, c, q)
    {
      OwnEdges(l0, l, o, u, p, q);
      StepSameEdges(l0, l, o, u, a, p, c, q);
    }
  }

  /** The instances of a pair of originals that are not connected as the originals are. */
  ghost predicate Broken(l0: Layout, l: Layout, o: Origins) {
    exists a, b, p, q :: a in l.filters && b in l.filters && !SameEdges(l0, l, o, a, p, b, q)
  }

  lemma {:induction false} StepStaysBroken(l0: Layout, l: Layout, o: Origins, u: nat)
    requires CanExpand(l, u) && Numbered(l0, l, o) && Unnumbered(l0) && Broken(l0, l, o)
    ensures l.filters[u] in o && Broken(l0, ExpandAt(l, u), StepOrigins(l, u, o))
  {
    var a, b, p, q :| a in l.filters && b in l.filters && !SameEdges(l0, l, o, a, p, b, q);
    ExpandFilters(l, u);
    NewIdsFresh(l.next, |Copies(l, u)|);
    ExpandEdges(l, u, a, p, b, q);
    assert StandsFor(l0, l, o, a) && StandsFor(l0, l, o, b);
    assert !SameEdges(l0, ExpandAt(l, u), StepOrigins(l, u, o), a, p, b, q);
  }

  /** Expanding a filter that leads to itself leaves its copies without the connections among them. */
  lemma {:induction false} SelfEdgeBreaks(l0: Layout, l: Layout, o: Origins, u: nat)
    requires CanExpand(l, u) && Numbered(l0, l, o) && Unnumbered(l0)
    requires l.filters[u] in l0.heap && SelfEdge(l0, l.filters[u])
    ensures l.filters[u] in o && Broken(l0, ExpandAt(l, u), StepOrigins(l, u, o))
  {
    var b, c := l.filters[u], l.next;
    ExpandsOriginal(l0, l, o, u);
    ExpandFilters(l, u);
    NewIdsFresh(l.next, |Copies(l, u)|);
    var p, q :| p in l0.heap[b].outports && Remote(b, q) in l0.heap[b].outports[p];
    assert c in Copies(l, u);
    ExpandEdges(l, u, c, p, c, q);
    EdgeInside(l, b, p, c, q);
    assert !SameEdges(l0, ExpandAt(l, u), StepOrigins(l, u, o), c, p, c, q);
  }

  ghost function RunOrigins(l: Layout, order: seq<nat>, r: Layout, o: Origins): Origins
    requires Expands(l, order, r)
    decreases |order|
  {
    if order == [] || l.filters[order[0]] !in o then o
    else RunOrigins(ExpandAt(l, order[0]), order[1..], r, StepOrigins(l, order[0], o))
  }

  lemma {:induction false} RunNumbered(l0: Layout, l: Layout, o: Origins, order: seq<nat>, r: Layout)
    requires Closed(l) && HostsGiven(l) && Expands(l, order, r) && Numbered(l0, l, o) && Unnumbered(l0)
    ensures Closed(r) && Numbered(l0, r, RunOrigins(l, order, r, o))
    ensures NoSelfEdges(l0) && Product(l0, l, o) ==> Product(l0, r, RunOrigins(l, order, r, o))
    ensures Broken(l0, l, o) ==> Broken(l0, r, RunOrigins(l, order, r, o))
    decreases |order|
  {
    if order != [] {
      var u := order[0];
      ExpandClosed(l, u);
      StepNumbered(l0, l, o, u);
      if NoSelfEdges(l0) && Product(l0, l, o) {
        StepProduct(l0, l, o, u);
      }
      if Broken(l0, l, o) {
        StepStaysBroken(l0, l, o, u);
      }
      RunNumbered(l0, ExpandAt(l, u), StepOrigins(l, u, o), order[1..], r);
    }
  }

  /** A filter that leads to itself is expanded some time, and from then on the product is broken. */
  lemma {:induction false} RunBreaks(l0: Layout, l: Layout, o: Origins, order: seq<nat>, r: Layout, a: Id)
    requires Closed(l) && HostsGiven(l) && Expands(l, order, r) && Numbered(l0, l, o) && Unnumbered(l0) && Done(r)
    requires a in l0.heap && SelfEdge(l0, a) && a in l.filters && Expandable(l.heap[a])
    ensures Broken(l0, r, RunOrigins(l, order, r, o))
    decreases |order|
  {
    if order != [] {
      var u := order[0];
      ExpandClosed(l, u);
      StepNumbered(l0, l, o, u);
      if l.filters[u] == a {
        SelfEdgeBreaks(l0, l, o, u);
        RunNumbered(l0, ExpandAt(l, u), StepOrigins(l, u, o), order[1..], r);
      } else {
        ExpandFilters(l, u);
        NewIdsFresh(l.next, |Copies(l, u)|);
        RunBreaks(l0, ExpandAt(l, u), StepOrigins(l, u, o), order[1..], r, a);
      }
    }
  }

  /**
    Whatever the order of the expansions: the layout stays closed, the copies of a filter are
    numbered 0 .. n - 1 with the host and labels of their number, and every original connection has
    become one from every copy to every copy, with its multiplicity, if and only if no filter with
    several copies leads to itself.
  */
  lemma {:induction false} ExpansionIsProduct(l: Layout, order: seq<nat>, r: Layout)
    requires Closed(l) && HostsGiven(l) && Unnumbered(l) && Expands(l, order, r) && Done(r)
    ensures var o := RunOrigins(l, order, r, AllOrigins(l));
            && Closed(r) && Numbered(l, r, o)
            && (Product(l, r, o) <==> NoSelfEdges(l))
  {
    var o := AllOrigins(l);
    NumberedAtFirst(l);
    RunNumbered(l, l, o, order, r);
    if !NoSelfEdges(l) {
      var a :| a in l.filters && a in l.heap && Expandable(l.heap[a]) && SelfEdge(l, a);
      RunBreaks(l, l, o, order, r, a);
    }
  }

  // ---------------------------------------------------------------------------
  // The order of the instances
  // ---------------------------------------------------------------------------

  /** a is listed before b. */
  predicate Before(l: Layout, a: Id, b: Id) {
    exists i, j :: 0 <= i < j < |l.filters| && l.filters[i] == a && l.filters[j] == b
  }

  /** Copies 1, 2, ... come first and copy 0, the expanded instance itself, comes last. */
  predicate CopyBefore(x: int, y: int) {
    x != 0 && (y == 0 || x < y)
  }

  /** a may come before b: its original does, or it is the earlier copy of the same original. */
  predicate InOrder(l0: Layout, l: Layout, o: Origins, a: Id, b: Id) {
    && a in o && b in o && a in l.heap && b in l.heap
    && if o[a] == o[b] then CopyBefore(l.heap[a].copyRank, l.heap[b].copyRank) else Before(l0, o[a], o[b])
  }

  /** The list is sorted by the relation. */
  ghost predicate Sorted(s: seq<Id>, less: (Id, Id) -> bool) {
    forall i, j :: 0 <= i < j < |s| ==> less(s[i], s[j])
  }

  ghost function Less(l0: Layout, l: Layout, o: Origins): (Id, Id) -> bool {
    (a: Id, b: Id) => InOrder(l0, l, o, a, b)
  }

  ghost predicate Ordered(l0: Layout, l: Layout, o: Origins) {
    Sorted(l.filters, Less(l0, l, o))
  }

  lemma {:induction false} OrderedAtFirst(l: Layout)
    requires Closed(l)
    ensures Ordered(l, l, AllOrigins(l))
  {
    forall i, j | 0 <= i < j < |l.filters|
      ensures InOrder(l, l, AllOrigins(l), l.filters[i], l.filters[j])
    {
      assert Before(l, l.filters[i], l.filters[j]);
    }
  }

  /** Elements inserted at position u keep the list sorted if they fit there. */
  lemma {:induction false} InsertSorted(s: seq<Id>, u: nat, added: seq<Id>, less: (Id, Id) -> bool)
    requires u <= |s| && Sorted(s, less) && Sorted(added, less)
    requires forall i, c :: 0 <= i < u && c in added ==> less(s[i], c)
    requires forall c, j :: c in added && u <= j < |s| ==> less(c, s[j])
    ensures Sorted(s[..u] + added + s[u..], less)
  {
    var r, n := s[..u] + added + s[u..], |added|;
    forall i, j | 0 <= i < j < |r|
      ensures less(r[i], r[j])
    {
      assert u <= i < u + n ==> r[i] in added;
      assert u <= j < u + n ==> r[j] in added;
      if u + n <= i {
        assert r[i] == s[i - n];
      }
      if u + n <= j {
        assert r[j] == s[j - n];
      }
    }
  }

  lemma {:induction false} OldSorted(l0: Layout, l: Layout, o: Origins, u: nat)
    requires CanExpand(l, u) && l.filters[u] in o && Ordered(l0, l, o)
    ensures Sorted(l.filters, Less(l0, ExpandAt(l, u), StepOrigins(l, u, o)))
  {
    NewIdsFresh(l.next, |Copies(l, u)|);
    forall i, j | 0 <= i < j < |l.filters|
      ensures InOrder(l0, ExpandAt(l, u), StepOrigins(l, u, o), l.filters[i], l.filters[j])
    {
      assert Less(l0, l, o)(l.filters[i], l.filters[j]);
    }
  }

  lemma {:induction false} CopiesSorted(l0: Layout, l: Layout, o: Origins, u: nat)
    requires CanExpand(l, u) && l.filters[u] in o
    ensures Sorted(Copies(l, u), Less(l0, ExpandAt(l, u), StepOrigins(l, u, o)))
  {
    NewIdsFresh(l.next, |Copies(l, u)|);
    forall i, j | 0 <= i < j < |Copies(l, u)|
      ensures InOrder(l0, ExpandAt(l, u), StepOrigins(l, u, o), Copies(l, u)[i], Copies(l, u)[j])
    {
    }
  }

  lemma {:induction false} OldThenCopy(l0: Layout, l: Layout, o: Origins, u: nat, i: nat, c: Id)
    requires CanExpand(l, u) && Numbered(l0, l, o) && Unnumbered(l0) && l.filters[u] in o && Ordered(l0, l, o)
    requires i < u && c in Copies(l, u)
    ensures InOrder(l0, ExpandAt(l, u), StepOrigins(l, u, o), l.filters[i], c)
  {
    NewIdsFresh(l.next, |Copies(l, u)|);
    ExpandsOriginal(l0, l, o, u);
    assert Less(l0, l, o)(l.filters[i], l.filters[u]);
  }

  lemma {:induction false} CopyThenOld(l0: Layout, l: Layout, o: Origins, u: nat, c: Id, j: nat)
    requires CanExpand(l, u) && Numbered(l0, l, o) && Unnumbered(l0) && l.filters[u] in o && Ordered(l0, l, o)
    requires u <= j < |l.filters| && c in Copies(l, u)
    ensures InOrder(l0, ExpandAt(l, u), StepOrigins(l, u, o), c, l.filters[j])
  {
    NewIdsFresh(l.next, |Copies(l, u)|);
    ExpandsOriginal(l0, l, o, u);
    if j > u {
      assert Less(l0, l, o)(l.filters[u], l.filters[j]);
    }
  }

  lemma {:induction false} StepOrdered(l0: Layout, l: Layout, o: Origins, u: nat)
    requires CanExpand(l, u) && Numbered(l0, l, o) && Unnumbered(l0) && l.filters[u] in o && Ordered(l0, l, o)
    ensures Ordered(l0, ExpandAt(l, u), StepOrigins(l, u, o))
  {
    var s, copies, less := l.filters, Copies(l, u), Less(l0, ExpandAt(l, u), StepOrigins(l, u, o));
    OldSorted(l0, l, o, u);
    CopiesSorted(l0, l, o, u);
    forall i, c | 0 <= i < u && c in copies
      ensures less(s[i], c)
    {
      OldThenCopy(l0, l, o, u, i, c);
    }
    forall c, j | c in copies && u <= j < |s|
      ensures less(c, s[j])
    {
      CopyThenOld(l0, l, o, u, c, j);
    }
    InsertSorted(s, u, copies, less);
  }

  lemma {:induction false} RunOrdered(l0: Layout, l: Layout, o: Origins, order: seq<nat>, r: Layout)
    requires Closed(l) && HostsGiven(l) && Expands(l, order, r) && Numbered(l0, l, o) && Unnumbered(l0) && Ordered(l0, l, o)
    ensures Ordered(l0, r, RunOrigins(l, order, r, o))
    decreases |order|
  {
    if order != [] {
      var u := order[0];
      ExpandClosed(l, u);
      StepNumbered(l0, l, o, u);
      StepOrdered(l0, l, o, u);
      RunOrdered(l0, ExpandAt(l, u), StepOrigins(l, u, o), order[1..], r);
    }
  }

  /**
    Whatever the order of the expansions, the result lists the originals in their first order, each
    one directly preceded by its copies 1, 2, ... in the order of their numbers.
  */
  lemma {:induction false} ExpansionKeepsOrder(l: Layout, order: seq<nat>, r: Layout)
    requires Closed(l) && HostsGiven(l) && Unnumbered(l) && Expands(l, order, r)
    ensures Ordered(l, r, RunOrigins(l, order, r, AllOrigins(l)))
  {
    NumberedAtFirst(l);
    OrderedAtFirst(l);
    RunOrdered(l, l, AllOrigins(l), order, r);
  }

  // ---------------------------------------------------------------------------
  // Termination
  // ---------------------------------------------------------------------------

  /** The filters still to be expanded. */
  ghost function Pending(l: Layout): set<Id> {
    set a | a in l.filters && a in l.heap && Expandable(l.heap[a])
  }

  lemma {:induction false} StepPending(l: Layout, u: nat)
    requires CanExpand(l, u)
    ensures Pending(ExpandAt(l, u)) == Pending(l) - {l.filters[u]} && l.filters[u] in Pending(l)
  {
    ExpandFilters(l, u);
    NewIdsFresh(l.next, |Copies(l, u)|);
  }

  lemma {:induction false} ExpandsMore(l: Layout, order: seq<nat>, r: Layout, u: nat)
    requires Expands(l, order, r) && CanExpand(r, u)
    ensures Expands(l, order + [u], ExpandAt(r, u))
    decreases |order|
  {
    if order != [] {
      assert (order + [u])[1..] == order[1..] + [u];
      ExpandsMore(ExpandAt(l, order[0]), order[1..], r, u);
    }
  }

  // ---------------------------------------------------------------------------
  // The code
  // ---------------------------------------------------------------------------

  /** A remote to be appended to a port: the code keeps a pointer to the port. */
  datatype Mapping = Mapping(owner: Id, key: string, remote: Remote)

  /** What a list of mappings appends to one port. */
  function Chosen(m: seq<Mapping>, a: Id, p: string): seq<Remote> {
    if m == [] then []
    else
      var e := m[|m| - 1];
      Chosen(m[..|m| - 1], a, p) + if e.owner == a && e.key == p then [e.remote] else []
  }

  lemma {:induction false} ChosenAppend(m: seq<Mapping>, e: Mapping, a: Id, p: string)
    ensures Chosen(m + [e], a, p) == if e.owner == a && e.key == p then Chosen(m, a, p) + [e.remote] else Chosen(m, a, p)
  {
    assert (m + [e])[..|m|] == m;
  }

  lemma {:induction false} ChosenNone(m: seq<Mapping>, a: Id, p: string)
    requires forall e :: e in m ==> e.owner != a || e.key != p
    ensures Chosen(m, a, p) == []
  {
    if m != [] {
      assert m[|m| - 1] in m;
      ChosenNone(m[..|m| - 1], a, p);
    }
  }

  /** The mappings of one port, among others, are those the standard rule adds. */
  predicate PortDone(m: seq<Mapping>, heap: map<Id, Instance>, a: Id, p: string, b: Id, copies: seq<Id>) {
    a in heap && p in heap[a].outports && Chosen(m, a, p) == Added(heap[a].outports[p], b, copies)
  }

  /** From m to r only mappings of port p of a were added. */
  ghost predicate OnlyAdds(m: seq<Mapping>, r: seq<Mapping>, a: Id, p: string) {
    && (forall x, q :: x != a || q != p ==> Chosen(r, x, q) == Chosen(m, x, q))
    && (forall e :: e in r ==> e in m || (e.owner == a && e.key == p))
  }

  lemma {:induction false} AddOne(m: seq<Mapping>, r: seq<Mapping>, a: Id, p: string, x: Remote)
    requires OnlyAdds(m, r, a, p)
    ensures OnlyAdds(m, r + [Mapping(a, p, x)], a, p)
    ensures Chosen(r + [Mapping(a, p, x)], a, p) == Chosen(r, a, p) + [x]
  {
    forall y, q
      ensures Chosen(r + [Mapping(a, p, x)], y, q) == if a == y && p == q then Chosen(r, y, q) + [x] else Chosen(r, y, q)
    {
      ChosenAppend(r, Mapping(a, p, x), y, q);
    }
  }

  /** The mappings of the given owners are complete; there are no others. */
  ghost predicate Covers(m: seq<Mapping>, heap: map<Id, Instance>, owners: set<Id>, b: Id, copies: seq<Id>) {
    && (forall x, p :: x in owners && x in heap && p in heap[x].outports ==> PortDone(m, heap, x, p, b, copies))
    && (forall e :: e in m ==> e.owner in owners && e.owner in heap && e.key in heap[e.owner].outports)
  }

  class Builder {
    var filters: seq<Id>
    var heap: map<Id, Instance>
    var next: Id

    constructor (l: Layout)
      ensures State() == l
    {
      filters, heap, next := l.filters, l.heap, l.next;
    }

    function State(): Layout
      reads this
    {
      Layout(filters, heap, next)
    }

    method CollectCopies(m: seq<Mapping>, a: Id, p: string, port: string, copies: seq<Id>) returns (r: seq<Mapping>)
      ensures OnlyAdds(m, r, a, p)
      ensures Chosen(r, a, p) == Chosen(m, a, p) + ToAll(copies, port)
    {
      r := m;
      var u4 := 0;
      while u4 < |copies|
        invariant 0 <= u4 <= |copies| && OnlyAdds(m, r, a, p)
        invariant Chosen(r, a, p) == Chosen(m, a, p) + ToAll(copies[..u4], port)
      {
        var x := Remote(copies[u4], port);
        AddOne(m, r, a, p, x);
        assert ToAll(copies[..u4 + 1], port) == ToAll(copies[..u4], port) + [x];
        r, u4 := r + [Mapping(a, p, x)], u4 + 1;
      }
      assert copies[..u4] == copies;
    }

    /** The mappings of one port, after those in m. */
    method CollectPort(m: seq<Mapping>, a: Id, p: string, b: Id, copies: seq<Id>) returns (r: seq<Mapping>)
      requires a in heap && p in heap[a].outports && Chosen(m, a, p) == []
      ensures OnlyAdds(m, r, a, p) && PortDone(r, heap, a, p, b, copies)
    {
      r := m;
      var remotes, u3 := heap[a].outports[p], 0;
      while u3 < |remotes|
        invariant 0 <= u3 <= |remotes| && OnlyAdds(m, r, a, p)
        invariant Chosen(r, a, p) == Added(remotes[..u3], b, copies)
      {
        if remotes[u3].instance == b {
          r := CollectCopies(r, a, p, remotes[u3].port, copies);
        }
        assert remotes[..u3 + 1][..u3] == remotes[..u3];
        u3 := u3 + 1;
      }
      assert remotes[..u3] == remotes;
    }

    /** The mappings of all ports of one instance, in whatever order the ports come. */
    method CollectInstance(m: seq<Mapping>, a: Id, b: Id, copies: seq<Id>, ghost owners: set<Id>) returns (r: seq<Mapping>)
      requires a in heap && a !in owners && Covers(m, heap, owners, b, copies)
      ensures Covers(r, heap, owners + {a}, b, copies)
    {
      r := m;
      var keys := heap[a].outports.Keys;
      while keys != {}
        invariant keys <= heap[a].outports.Keys
        invariant forall x, p :: x in owners && x in heap && p in heap[x].outports ==> PortDone(r, heap, x, p, b, copies)
        invariant forall p :: p in heap[a].outports && p !in keys ==> PortDone(r, heap, a, p, b, copies)
        invariant forall e :: e in r ==>
          (e.owner in owners || (e.owner == a && e.key !in keys)) && e.owner in heap && e.key in heap[e.owner].outports
        decreases |keys|
      {
        var p :| p in keys;
        ChosenNone(r, a, p);
        r := CollectPort(r, a, p, b, copies);
        keys := keys - {p};
      }
    }

    method CollectMappings(b: Id, copies: seq<Id>) returns (m: seq<Mapping>)
      requires Distinct(filters) && forall a :: a in filters ==> a in heap
      ensures Covers(m, heap, Ids(filters), b, copies)
    {
      m := [];
      var u2 := 0;
      while u2 < |filters|
        invariant 0 <= u2 <= |filters| && Covers(m, heap, Ids(filters[..u2]), b, copies)
      {
        m := CollectInstance(m, filters[u2], b, copies, Ids(filters[..u2]));
        assert Ids(filters[..u2 + 1]) == Ids(filters[..u2]) + {filters[u2]};
        u2 := u2 + 1;
      }
      assert filters[..u2] == filters;
    }

    /** Append what the mappings say to the ports they point to. */
    method ApplyMappings(m: seq<Mapping>)
      requires forall e :: e in m ==> e.owner in heap && e.key in heap[e.owner].outports
      modifies this`heap
      ensures heap == Extended(old(heap), m)
    {
      var u2 := 0;
      ExtendedByNone(heap);
      while u2 < |m|
        invariant 0 <= u2 <= |m| && heap == Extended(old(heap), m[..u2])
      {
        var e := m[u2];
        ExtendedByOne(old(heap), m[..u2], e);
        var x := heap[e.owner];
        heap := heap[e.owner := x.(outports := x.outports[e.key := x.outports[e.key] + [e.remote]])];
        assert m[..u2 + 1] == m[..u2] + [e];
        u2 := u2 + 1;
      }
      assert m[..u2] == m;
    }

    method NextCopy(fi: Instance, ghost x: Instance, n: nat, hosts: seq<string>, labels: seq<seq<string>>)
      returns (newval: Instance, hosts': seq<string>, labels': seq<seq<string>>)
      requires fi == First(x) && 0 < n && (|x.bindHosts| > 1 ==> n < |x.bindHosts|)
      requires hosts == if |x.bindHosts| > 1 then x.bindHosts[n..] else []
      requires labels == if n < |x.labels| then x.labels[n..] else []
      ensures newval == CopyOf(x, n)
      ensures hosts' == if |x.bindHosts| > 1 then x.bindHosts[n + 1..] else []
      ensures labels' == if n + 1 < |x.labels| then x.labels[n + 1..] else []
    {
      newval, hosts', labels' := fi.(copyRank := n), hosts, labels;
      if hosts' != [] {
        newval := newval.(bindHosts := [hosts'[0]]);
        hosts' := hosts'[1..];
      }
      if labels' != [] {
        newval := newval.(labels := [labels'[0]]);
        labels' := labels'[1..];
      }
      CopyIs(x, n, newval);
    }

    /** The new instances, each a copy of the expanded one with its own number, host and labels. */
    method MakeCopies(b: Id, ghost x: Instance, hosts: seq<string>, labels: seq<seq<string>>) returns (copies: seq<Id>)
      requires b in heap && b < next && x.numCopies > 1 && heap[b] == First(x)
      requires |x.bindHosts| > 1 ==> |x.bindHosts| == x.numCopies
      requires hosts == if |x.bindHosts| > 1 then x.bindHosts[1..] else []
      requires labels == if x.labels != [] then x.labels[1..] else []
      modifies this`heap, this`next
      ensures copies == NewIds(old(next), x.numCopies - 1) && next == old(next) + x.numCopies - 1
      ensures heap == WithCopies(old(heap), x, old(next), x.numCopies - 1)
    {
      ghost var h0, from := heap, next;
      copies := [];
      var hostList, remaining, n := hosts, labels, 1;
      while n < heap[b].numCopies
        invariant 1 <= n <= x.numCopies && next == from + n - 1
        invariant |copies| == n - 1 && forall i :: 0 <= i < n - 1 ==> copies[i] == from + i
        invariant b in heap && heap[b] == First(x) && b < from
        invariant heap == WithCopies(h0, x, from, n - 1)
        invariant hostList == if |x.bindHosts| > 1 then x.bindHosts[n..] else []
        invariant remaining == if n < |x.labels| then x.labels[n..] else []
      {
        copies := copies + [next];
        hostList, remaining := AddCopy(b, x, n, hostList, remaining, h0, from);
        n := n + 1;
      }
      AreNewIds(copies, from);
    }

    /** One more copy with its number. */
    method AddCopy(b: Id, ghost x: Instance, n: nat, hosts: seq<string>, labels: seq<seq<string>>,
                   ghost h0: map<Id, Instance>, ghost from: Id)
      returns (hosts': seq<string>, labels': seq<seq<string>>)
      requires b in heap && heap[b] == First(x) && 0 < n && (|x.bindHosts| > 1 ==> n < |x.bindHosts|)
      requires hosts == if |x.bindHosts| > 1 then x.bindHosts[n..] else []
      requires labels == if n < |x.labels| then x.labels[n..] else []
      requires b < from && next == from + n - 1 && heap == WithCopies(h0, x, from, n - 1)
      modifies this`heap, this`next
      ensures next == old(next) + 1 && heap == WithCopies(h0, x, from, n)
      ensures b in heap && heap[b] == First(x)
      ensures hosts' == if |x.bindHosts| > 1 then x.bindHosts[n + 1..] else []
      ensures labels' == if n + 1 < |x.labels| then x.labels[n + 1..] else []
    {
      var newval;
      newval, hosts', labels' := NextCopy(heap[b], x, n, hosts, labels);
      Allocate(newval);
    }

    method Allocate(x: Instance)
      modifies this`heap, this`next
      ensures heap == old(heap)[old(next) := x] && next == old(next) + 1
    {
      heap := heap[next := x];
      next := next + 1;
    }

    method Find(a: Id) returns (i: nat)
      requires a in filters
      ensures i < |filters| && filters[i] == a && a !in filters[..i]
    {
      i := 0;
      while filters[i] != a
        invariant i < |filters| && a in filters[i..] && a !in filters[..i]
        decreases |filters| - i
      {
        assert filters[i..] == [filters[i]] + filters[i + 1..];
        assert filters[..i + 1] == filters[..i] + [filters[i]];
        i := i + 1;
      }
    }

    /** The code looks up position u again for every copy, and so finds the first copy there. */
    method InsertCopies(u: nat, copies: seq<Id>)
      requires u < |filters| && Distinct(filters) && Distinct(copies) && forall c :: c in copies ==> c !in filters
      modifies this`filters
      ensures filters == old(filters)[..u] + copies + old(filters)[u..]
    {
      var nci := 0;
      while nci < |copies|
        invariant 0 <= nci <= |copies| && filters == old(filters)[..u] + copies[..nci] + old(filters)[u..]
      {
        InsertDistinct(old(filters), u, copies[..nci]);
        var i := Find(filters[u]);
        assert i == u;
        filters := filters[..i + nci] + [copies[nci]] + filters[i + nci..];
        assert copies[..nci + 1] == copies[..nci] + [copies[nci]];
        nci := nci + 1;
      }
      assert copies[..nci] == copies;
    }

    /** The expanded instance keeps its first host and labels; the rest is for the copies. */
    method KeepFirst(b: Id) returns (hosts: seq<string>, labels: seq<seq<string>>)
      requires b in heap
      modifies this`heap
      ensures heap == old(heap)[b := First(old(heap)[b])]
      ensures var x := old(heap)[b];
              && hosts == (if |x.bindHosts| > 1 then x.bindHosts[1..] else [])
              && labels == if x.labels != [] then x.labels[1..] else []
    {
      var fi := heap[b].(expanded := true);
      hosts, labels := [], [];
      if |fi.bindHosts| > 1 {
        hosts := fi.bindHosts;
        fi := fi.(bindHosts := [hosts[0]]);
        hosts := hosts[1..];
      }
      if fi.labels != [] {
        labels := fi.labels;
        fi := fi.(labels := [labels[0]]);
        labels := labels[1..];
      }
      heap := heap[b := fi];
    }

    /** The expanded instance and its copies, with the ports they had before. */
    method Grow(u: nat) returns (copies: seq<Id>)
      requires CanExpand(State(), u)
      modifies this`heap, this`next
      ensures copies == Copies(old(State()), u) && next == old(next) + |copies|
      ensures var l, b := old(State()), filters[u];
              heap == WithCopies(l.heap[b := First(l.heap[b])], l.heap[b], l.next, |copies|)
    {
      ghost var x := heap[filters[u]];
      var hosts, labels := KeepFirst(filters[u]);
      copies := MakeCopies(filters[u], x, hosts, labels);
    }

    /** One turn of the loop, for the filter found at position u. */
    method ExpandOne(u: nat)
      requires CanExpand(State(), u)
      modifies this
      ensures State() == ExpandAt(old(State()), u)
    {
      ghost var l := State();
      var copies := Grow(u);
      NewIdsFresh(l.next, |copies|);
      WithCopiesAt(l.heap[filters[u] := First(l.heap[filters[u]])], l.heap[filters[u]], l.next, |copies|);
      var mappings := CollectMappings(filters[u], copies);
      ExtendedIsExpanded(l, u, heap, mappings);
      ApplyMappings(mappings);
      InsertCopies(u, copies);
    }

    /** `expand_transparents`. */
    method ExpandTransparents() returns (ghost order: seq<nat>)
      requires Closed(State()) && HostsGiven(State())
      modifies this
      ensures Expands(old(State()), order, State()) && Done(State())
    {
      order := [];
      while true
        invariant Expands(old(State()), order, State()) && Closed(State()) && HostsGiven(State())
        decreases Pending(State())
      {
        var u := 0;
        while u < |filters| && !(heap[filters[u]].numCopies > 1 && !heap[filters[u]].expanded)
          invariant 0 <= u <= |filters|
          invariant forall i :: 0 <= i < u ==> !Expandable(heap[filters[i]])
        {
          u := u + 1;
        }
        if u == |filters| {
          return;
        }
        StepPending(State(), u);
        ExpandClosed(State(), u);
        ExpandsMore(old(State()), order, State(), u);
        ExpandOne(u);
        order := order + [u];
      }
    }
  }

  // ---------------------------------------------------------------------------
  // The heap of the code and that of the rule
  // ---------------------------------------------------------------------------

  ghost function Extended(heap: map<Id, Instance>, m: seq<Mapping>): map<Id, Instance> {
    map a | a in heap :: ExtendedInstance(heap[a], m, a)
  }

  ghost function ExtendedInstance(x: Instance, m: seq<Mapping>, a: Id): Instance {
    x.(outports := map p | p in x.outports :: x.outports[p] + Chosen(m, a, p))
  }

  lemma {:induction false} ExtendedByNone(heap: map<Id, Instance>)
    ensures Extended(heap, []) == heap
  {
    forall a | a in heap
      ensures ExtendedInstance(heap[a], [], a) == heap[a]
    {
      SamePorts(heap[a], [], a);
    }
  }

  lemma {:induction false} SamePorts(x: Instance, m: seq<Mapping>, a: Id)
    requires forall p :: p in x.outports ==> Chosen(m, a, p) == []
    ensures ExtendedInstance(x, m, a) == x
  {
    var y := ExtendedInstance(x, m, a);
    forall p | p in x.outports
      ensures y.outports[p] == x.outports[p]
    {
      assert x.outports[p] + [] == x.outports[p];
    }
    assert y.outports == x.outports;
  }

  lemma {:induction false} ExtendedByOne(heap: map<Id, Instance>, m: seq<Mapping>, e: Mapping)
    requires e.owner in heap && e.key in heap[e.owner].outports
    ensures var h := Extended(heap, m);
            var x := h[e.owner];
            Extended(heap, m + [e])
            == h[e.owner := x.(outports := x.outports[e.key := x.outports[e.key] + [e.remote]])]
  {
    var h := Extended(heap, m);
    var x := h[e.owner];
    var r := h[e.owner := x.(outports := x.outports[e.key := x.outports[e.key] + [e.remote]])];
    forall a | a in heap
      ensures ExtendedInstance(heap[a], m + [e], a) == r[a]
    {
      InstanceByOne(heap[a], m, e, a);
    }
  }

  lemma {:induction false} InstanceByOne(x: Instance, m: seq<Mapping>, e: Mapping, a: Id)
    requires a == e.owner ==> e.key in x.outports
    ensures var y := ExtendedInstance(x, m, a);
            ExtendedInstance(x, m + [e], a)
            == if a == e.owner then y.(outports := y.outports[e.key := y.outports[e.key] + [e.remote]]) else y
  {
    var y, z := ExtendedInstance(x, m, a), ExtendedInstance(x, m + [e], a);
    forall p | p in x.outports
      ensures z.outports[p] == if a == e.owner && p == e.key then y.outports[p] + [e.remote] else y.outports[p]
    {
      ChosenAppend(m, e, a, p);
    }
    if a == e.owner {
      assert z.outports == y.outports[e.key := y.outports[e.key] + [e.remote]];
    } else {
      assert z.outports == y.outports;
    }
  }

  lemma {:induction false} AreNewIds(copies: seq<Id>, from: Id)
    requires forall i :: 0 <= i < |copies| ==> copies[i] == from + i
    ensures copies == NewIds(from, |copies|)
  {
  }

  ghost function WithCopies(heap: map<Id, Instance>, x: Instance, from: Id, n: nat): map<Id, Instance>
    requires |x.bindHosts| > 1 ==> n < |x.bindHosts|
  {
    if n == 0 then heap else WithCopies(heap, x, from, n - 1)[from + n - 1 := CopyOf(x, n)]
  }

  lemma {:induction false} WithCopiesAt(heap: map<Id, Instance>, x: Instance, from: Id, n: nat)
    requires |x.bindHosts| > 1 ==> n < |x.bindHosts|
    ensures var r := WithCopies(heap, x, from, n);
            forall a ::
              && (a in r <==> a in heap || from <= a < from + n)
              && (a in r ==> r[a] == if from <= a < from + n then CopyOf(x, a - from + 1) else heap[a])
  {
    if n > 0 {
      WithCopiesAt(heap, x, from, n - 1);
    }
  }

  lemma {:induction false} CopyIs(x: Instance, n: nat, y: Instance)
    requires |x.bindHosts| > 1 ==> n < |x.bindHosts|
    requires y.bindHosts == if |x.bindHosts| > 1 then [x.bindHosts[n]] else First(x).bindHosts
    requires y.labels == if n < |x.labels| then [x.labels[n]] else First(x).labels
    requires y == First(x).(copyRank := n, bindHosts := y.bindHosts, labels := y.labels)
    ensures y == CopyOf(x, n)
  {
  }

  lemma {:induction false} RewiredIs(m: seq<Mapping>, heap: map<Id, Instance>, a: Id, b: Id, copies: seq<Id>)
    requires a in heap && forall p :: p in heap[a].outports ==> PortDone(m, heap, a, p, b, copies)
    ensures ExtendedInstance(heap[a], m, a) == Rewired(heap[a], b, copies)
  {
    assert ExtendedInstance(heap[a], m, a).outports == Rewired(heap[a], b, copies).outports;
  }

  lemma {:induction false} UntouchedIs(m: seq<Mapping>, x: Instance, a: Id)
    requires forall e :: e in m ==> e.owner != a
    ensures ExtendedInstance(x, m, a) == x
  {
    forall p
      ensures Chosen(m, a, p) == []
    {
      ChosenNone(m, a, p);
    }
    SamePorts(x, m, a);
  }

  lemma {:induction false} InstanceIsExpanded(l: Layout, u: nat, grown: map<Id, Instance>, m: seq<Mapping>, a: Id)
    requires CanExpand(l, u) && a in grown && Covers(m, grown, Ids(l.filters), l.filters[u], Copies(l, u))
    requires var b := l.filters[u];
             && (a in l.heap || a in Copies(l, u)) && !(a in l.filters && a in Copies(l, u))
             && grown[a] == if a in Copies(l, u) then CopyOf(l.heap[b], a - l.next + 1)
                            else if a == b then First(l.heap[b]) else l.heap[a]
    ensures ExtendedInstance(grown[a], m, a) == ExpandedInstance(l, u, a)
  {
    if a in l.filters {
      RewiredIs(m, grown, a, l.filters[u], Copies(l, u));
    } else {
      UntouchedIs(m, grown[a], a);
    }
  }

  /** Once all mappings are applied, every instance is as the rule says. */
  lemma {:induction false} ExtendedIsExpanded(l: Layout, u: nat, grown: map<Id, Instance>, m: seq<Mapping>)
    requires CanExpand(l, u)
    requires var b := l.filters[u];
             var x := l.heap[b];
             && grown == WithCopies(l.heap[b := First(x)], x, l.next, x.numCopies - 1)
             && Covers(m, grown, Ids(l.filters), b, Copies(l, u))
    ensures Extended(grown, m) == ExpandAt(l, u).heap
  {
    var b, copies := l.filters[u], Copies(l, u);
    WithCopiesAt(l.heap[b := First(l.heap[b])], l.heap[b], l.next, |copies|);
    NewIdsFresh(l.next, |copies|);
    forall a | a in grown
      ensures (a in l.heap || a in copies) && Extended(grown, m)[a] == ExpandedInstance(l, u, a)
    {
      InstanceIsExpanded(l, u, grown, m, a);
    }
    assert Extended(grown, m).Keys == ExpandAt(l, u).heap.Keys;
  }
}
