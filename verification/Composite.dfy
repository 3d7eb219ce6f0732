/**
  Composite filters.  An instance whose filter is itself a layout is replaced by the instances of
  that layout: ports that led to it now lead to the inbound designate, and its own ports become
  those of the outbound designate.
*/
module Composite {
  import opened Common
  import opened Layouts

  predicate IsInbound(sub: Layout, a: Id) {
    a in sub.filters && a in sub.heap && sub.heap[a].inbound
  }

  predicate IsOutbound(sub: Layout, a: Id) {
    a in sub.filters && a in sub.heap && sub.heap[a].outbound
  }

  /** The composite's own layout: closed, made of new instances, with one designate each way. */
  ghost predicate Inner(l: Layout, sub: Layout, i: Id, o: Id) {
    && Closed(sub) && l.next <= sub.next && (forall a :: a in sub.filters ==> l.next <= a)
    && IsInbound(sub, i) && (forall a :: IsInbound(sub, a) ==> a == i)
    && IsOutbound(sub, o) && (forall a :: IsOutbound(sub, a) ==> a == o)
  }

  /** The code asserts that the outbound designate has no ports when it is given some. */
  ghost predicate CanCompose(l: Layout, u: nat, sub: Layout, i: Id, o: Id) {
    && Closed(l) && u < |l.filters| && Inner(l, sub, i, o)
    && (l.heap[l.filters[u]].outports != map[] ==> sub.heap[o].outports == map[])
  }

  function Redirect(remotes: seq<Remote>, e: Id, i: Id): (r: seq<Remote>)
    ensures |r| == |remotes|
  {
    seq(|remotes|, k requires 0 <= k < |remotes| =>
      if remotes[k].instance == e then remotes[k].(instance := i) else remotes[k])
  }

  function Redirected(x: Instance, e: Id, i: Id): Instance {
    x.(outports := map p | p in x.outports :: Redirect(x.outports[p], e, i))
  }

  /** A member without hosts of its own inherits those of the composite. */
  function Inherit(x: Instance, e: Instance): Instance {
    if |e.bindHosts| > 0 && |x.bindHosts| == 0 then x.(bindHosts := e.bindHosts) else x
  }

  /** Adding ports one remote at a time leaves out a port without remotes. */
  function Linked(x: Instance, ports: map<string, seq<Remote>>): Instance {
    x.(outports := map p | p in ports && ports[p] != [] :: ports[p])
  }

  ghost function ComposedInstance(l: Layout, u: nat, sub: Layout, i: Id, o: Id, a: Id): Instance
    requires CanCompose(l, u, sub, i, o) && (a in l.heap || a in sub.filters)
  {
    var e := l.filters[u];
    if a in sub.filters then
      var x := Inherit(sub.heap[a], l.heap[e]);
      if a == o && l.heap[e].outports != map[] then Linked(x, Redirected(l.heap[e], e, i).outports) else x
    else if a in l.filters then Redirected(l.heap[a], e, i)
    else l.heap[a]
  }

  /** One turn of `expand_composites`. */
  ghost function ComposeAt(l: Layout, u: nat, sub: Layout, i: Id, o: Id): Layout
    requires CanCompose(l, u, sub, i, o)
  {
    Layout(l.filters[..u] + l.filters[u + 1..] + sub.filters,
           map a | a in l.heap.Keys + Ids(sub.filters) :: ComposedInstance(l, u, sub, i, o, a),
           sub.next)
  }

  // ---------------------------------------------------------------------------
  // What one turn does to the connections
  // ---------------------------------------------------------------------------

  lemma {:induction false} RedirectCount(remotes: seq<Remote>, e: Id, i: Id, b: Id, q: string)
    requires e != i
    ensures multiset(Redirect(remotes, e, i))[Remote(b, q)]
         == if b == e then 0
            else multiset(remotes)[Remote(b, q)] + if b == i then multiset(remotes)[Remote(e, q)] else 0
    decreases |remotes|
  {
    if remotes != [] {
      var k := |remotes| - 1;
      RedirectCount(remotes[..k], e, i, b, q);
      assert remotes == remotes[..k] + [remotes[k]];
      assert Redirect(remotes, e, i) == Redirect(remotes[..k], e, i)
        + [if remotes[k].instance == e then remotes[k].(instance := i) else remotes[k]];
    }
  }

  lemma {:induction false} ComposeFilters(l: Layout, u: nat, sub: Layout, i: Id, o: Id)
    requires CanCompose(l, u, sub, i, o)
    ensures var r := ComposeAt(l, u, sub, i, o);
            && Distinct(r.filters)
            && (forall a :: a in r.filters <==> (a in l.filters && a != l.filters[u]) || a in sub.filters)
            && (forall a :: a in sub.filters ==> a !in l.filters)
            && forall a :: a in r.filters ==> a in r.heap && a < r.next
  {
    var e, rest, r := l.filters[u], l.filters[..u] + l.filters[u + 1..], ComposeAt(l, u, sub, i, o);
    assert l.filters == l.filters[..u] + [e] + l.filters[u + 1..];
    forall a
      ensures a in rest <==> a in l.filters && a != e
    {
    }
    assert Distinct(rest);
    forall j, k | 0 <= j < k < |r.filters|
      ensures r.filters[j] != r.filters[k]
    {
      if j < |rest| <= k {
        assert r.filters[j] in rest && r.filters[k] in sub.filters;
      }
    }
  }

  /**
    What one turn does to every connection: those to the composite go to the inbound designate,
    its own come from the outbound designate, and all others stay.
  */
  lemma {:induction false} ComposeEdges(l: Layout, u: nat, sub: Layout, i: Id, o: Id, a: Id, p: string, b: Id, q: string)
    requires CanCompose(l, u, sub, i, o)
    requires (a in l.filters && a != l.filters[u]) || a in sub.filters
    ensures var e, r := l.filters[u], ComposeAt(l, u, sub, i, o);
            && a in r.heap
            && Edges(r, a, p, b, q)
            == if a in sub.filters && !(a == o && l.heap[e].outports != map[]) then Edges(sub, a, p, b, q)
               else
                 var from := if a == o then e else a;
                 if b == e then 0 else if b == i then Edges(l, from, p, e, q) else Edges(l, from, p, b, q)
  {
    var e, r := l.filters[u], ComposeAt(l, u, sub, i, o);
    ComposeFilters(l, u, sub, i, o);
    assert i !in l.filters;
    if a !in sub.filters || (a == o && l.heap[e].outports != map[]) {
      var from := if a == o then e else a;
      RedirectCount(Remotes(l.heap[from], p), e, i, b, q);
      EdgeInside(l, from, p, i, q);
    }
  }

  /** a is listed before b. */
  predicate Before(filters: seq<Id>, a: Id, b: Id) {
    exists j, k :: 0 <= j < k < |filters| && filters[j] == a && filters[k] == b
  }

  /** After one turn the remaining instances come first, in their order, and the members last, in theirs. */
  lemma {:induction false} ComposeOrder(l: Layout, u: nat, sub: Layout, i: Id, o: Id, a: Id, b: Id)
    requires CanCompose(l, u, sub, i, o) && Before(ComposeAt(l, u, sub, i, o).filters, a, b)
    ensures || (a in sub.filters && b in sub.filters && Before(sub.filters, a, b))
            || (a in l.filters && b in l.filters && Before(l.filters, a, b))
            || (a in l.filters && b in sub.filters)
  {
    var rest, all := l.filters[..u] + l.filters[u + 1..], ComposeAt(l, u, sub, i, o).filters;
    var n := |rest|;
    var j, k :| 0 <= j < k < |all| && all[j] == a && all[k] == b;
    if n <= j {
      assert sub.filters[j - n] == a && sub.filters[k - n] == b;
    } else {
      var j' := if j < u then j else j + 1;
      assert l.filters[j'] == a;
      if k < n {
        assert l.filters[if k < u then k else k + 1] == b;
      } else {
        assert sub.filters[k - n] == b;
      }
    }
  }

  lemma {:induction false} ComposePointsInto(l: Layout, u: nat, sub: Layout, i: Id, o: Id, a: Id)
    requires CanCompose(l, u, sub, i, o)
    requires (a in l.filters && a != l.filters[u]) || a in sub.filters
    ensures var r := ComposeAt(l, u, sub, i, o); a in r.heap && PointsInto(r.heap[a], r.filters)
  {
    var e, r := l.filters[u], ComposeAt(l, u, sub, i, o);
    ComposeFilters(l, u, sub, i, o);
    forall p, x | p in r.heap[a].outports && x in r.heap[a].outports[p]
      ensures x.instance in r.filters
    {
      ComposeEdges(l, u, sub, i, o, a, p, x.instance, x.port);
      if a in sub.filters && !(a == o && l.heap[e].outports != map[]) {
        EdgeInside(sub, a, p, x.instance, x.port);
      } else {
        EdgeInside(l, if a == o then e else a, p, x.instance, x.port);
      }
    }
  }

  /** Every port target stays inside the layout. */
  lemma {:induction false} ComposeClosed(l: Layout, u: nat, sub: Layout, i: Id, o: Id)
    requires CanCompose(l, u, sub, i, o)
    ensures Closed(ComposeAt(l, u, sub, i, o))
  {
    var r := ComposeAt(l, u, sub, i, o);
    ComposeFilters(l, u, sub, i, o);
    forall a | a in r.filters
      ensures PointsInto(r.heap[a], r.filters)
    {
      ComposePointsInto(l, u, sub, i, o, a);
    }
  }

  // ---------------------------------------------------------------------------
  // Whole runs
  // ---------------------------------------------------------------------------

  datatype Turn = Turn(u: nat, sub: Layout, i: Id, o: Id)

  /** A run of expansions. */
  ghost predicate Composes(l: Layout, turns: seq<Turn>, r: Layout)
    decreases |turns|
  {
    if turns == [] then l == r
    else
      var t := turns[0];
      && CanCompose(l, t.u, t.sub, t.i, t.o)
      && Composes(ComposeAt(l, t.u, t.sub, t.i, t.o), turns[1..], r)
  }

  /** The instance that receives for a, or the one that sends for a, after the turns. */
  ghost function Follow(a: Id, l: Layout, turns: seq<Turn>, r: Layout, inward: bool): Id
    requires Composes(l, turns, r)
    decreases |turns|
  {
    if turns == [] then a
    else
      var t := turns[0];
      Follow(Successor(a, l.filters[t.u], t, inward), ComposeAt(l, t.u, t.sub, t.i, t.o), turns[1..], r, inward)
  }

  function Successor(a: Id, e: Id, t: Turn, inward: bool): Id {
    if a == e then (if inward then t.i else t.o) else a
  }

  /** a sends to b as often as its successor to b's. */
  predicate KeptEdge(l: Layout, t: Turn, m: Layout, a: Id, p: string, b: Id, q: string)
    requires t.u < |l.filters| && a in l.heap
  {
    var e := l.filters[t.u];
    var from, to := Successor(a, e, t, false), Successor(b, e, t, true);
    from in m.heap && Edges(m, from, p, to, q) == Edges(l, a, p, b, q)
  }

  /** The outbound designate does not feed the inbound one inside the composite. */
  ghost predicate Straight(t: Turn) {
    t.o in t.sub.heap && forall p, q :: Edges(t.sub, t.o, p, t.i, q) == 0
  }

  lemma {:induction false} TurnEdge(l: Layout, t: Turn, a: Id, p: string, b: Id, q: string)
    requires CanCompose(l, t.u, t.sub, t.i, t.o) && a in l.filters && b in l.filters
    ensures var e := l.filters[t.u];
            KeptEdge(l, t, ComposeAt(l, t.u, t.sub, t.i, t.o), a, p, b, q)
            <==> !(a == e && b == e && l.heap[e].outports == map[] && Edges(t.sub, t.o, p, t.i, q) > 0)
  {
    var e := l.filters[t.u];
    ComposeFilters(l, t.u, t.sub, t.i, t.o);
    ComposeEdges(l, t.u, t.sub, t.i, t.o, Successor(a, e, t, false), p, Successor(b, e, t, true), q);
    if Edges(t.sub, t.o, p, b, q) > 0 {
      EdgeInside(t.sub, t.o, p, b, q);
    }
  }

  /**
    One turn: what a sends to b is what their successors exchange, for all instances and ports, if and
    only if the outbound designate does not feed the inbound one.
  */
  lemma {:induction false} TurnKeepsEdges(l: Layout, t: Turn)
    requires CanCompose(l, t.u, t.sub, t.i, t.o)
    ensures var m := ComposeAt(l, t.u, t.sub, t.i, t.o);
            (forall a, p, b, q :: a in l.filters && b in l.filters ==> KeptEdge(l, t, m, a, p, b, q)) <==> Straight(t)
  {
    var e, m := l.filters[t.u], ComposeAt(l, t.u, t.sub, t.i, t.o);
    forall a, p, b, q | a in l.filters && b in l.filters && Straight(t)
      ensures KeptEdge(l, t, m, a, p, b, q)
    {
      TurnEdge(l, t, a, p, b, q);
    }
    if !Straight(t) {
      var p, q :| Edges(t.sub, t.o, p, t.i, q) != 0;
      TurnEdge(l, t, e, p, e, q);
      assert !KeptEdge(l, t, m, e, p, e, q);
    }
  }

  /** Every port target stays inside the layout, over the whole run. */
  lemma {:induction false} CompositionClosed(l: Layout, turns: seq<Turn>, r: Layout)
    requires Closed(l) && Composes(l, turns, r)
    ensures Closed(r)
    decreases |turns|
  {
    if turns != [] {
      var t := turns[0];
      ComposeClosed(l, t.u, t.sub, t.i, t.o);
      CompositionClosed(ComposeAt(l, t.u, t.sub, t.i, t.o), turns[1..], r);
    }
  }

  /**
    However deep the composites are nested, the connections of the original instances are those
    between the instances that end up sending and receiving for them, with their multiplicity.
  */
  lemma {:induction false} CompositionKeepsEdges(l: Layout, turns: seq<Turn>, r: Layout, a: Id, p: string, b: Id, q: string)
    requires Closed(l) && Composes(l, turns, r) && a in l.filters && b in l.filters
    requires forall k :: 0 <= k < |turns| ==> Straight(turns[k])
    ensures var from, to := Follow(a, l, turns, r, false), Follow(b, l, turns, r, true);
            && from in r.filters && to in r.filters
            && from in r.heap && Edges(r, from, p, to, q) == Edges(l, a, p, b, q)
    decreases |turns|
  {
    if turns != [] {
      var t := turns[0];
      var e := l.filters[t.u];
      ComposeFilters(l, t.u, t.sub, t.i, t.o);
      ComposeClosed(l, t.u, t.sub, t.i, t.o);
      TurnEdge(l, t, a, p, b, q);
      assert Edges(t.sub, t.o, p, t.i, q) == 0;
      CompositionKeepsEdges(ComposeAt(l, t.u, t.sub, t.i, t.o), turns[1..], r,
                            Successor(a, e, t, false), p, Successor(b, e, t, true), q);
    }
  }

  lemma {:induction false} ComposesMore(l: Layout, turns: seq<Turn>, m: Layout, t: Turn)
    requires Composes(l, turns, m) && CanCompose(m, t.u, t.sub, t.i, t.o)
    ensures Composes(l, turns + [t], ComposeAt(m, t.u, t.sub, t.i, t.o))
    decreases |turns|
  {
    if turns == [] {
      assert [] + [t] == [t] && [t][1..] == [];
    } else {
      var x := turns[0];
      assert (turns + [t])[1..] == turns[1..] + [t];
      ComposesMore(ComposeAt(l, x.u, x.sub, x.i, x.o), turns[1..], m, t);
    }
  }

  // ---------------------------------------------------------------------------
  // What an instance is when all turns are over
  // ---------------------------------------------------------------------------

  /** An instance as its layout wrote it, and the composite that the layout stood for, if any. */
  datatype Birth = Birth(own: Instance, composite: Option<Id>)

  ghost function Originals(l: Layout): map<Id, Birth>
    requires Closed(l)
  {
    map a | a in Ids(l.filters) :: Birth(l.heap[a], None)
  }

  /** The composite e is replaced by the instances of sub. */
  ghost function Born(births: map<Id, Birth>, e: Id, sub: Layout): map<Id, Birth>
    requires Closed(sub)
  {
    births + map a | a in Ids(sub.filters) :: Birth(sub.heap[a], Some(e))
  }

  ghost function BirthsOf(l: Layout, turns: seq<Turn>, r: Layout, births: map<Id, Birth>): map<Id, Birth>
    requires Composes(l, turns, r)
    decreases |turns|
  {
    if turns == [] then births
    else
      var t := turns[0];
      BirthsOf(ComposeAt(l, t.u, t.sub, t.i, t.o), turns[1..], r, Born(births, l.filters[t.u], t.sub))
  }

  /** c begins with an instance and goes on with the composites around it, from the inside out. */
  ghost predicate Around(births: map<Id, Birth>, c: seq<Id>) {
    && c != [] && (forall k :: 0 <= k < |c| ==> c[k] in births)
    && (forall k :: 0 <= k < |c| - 1 ==> births[c[k]].composite == Some(c[k + 1]))
    && births[c[|c| - 1]].composite == None
  }

  /** The hosts written for the first of these that has any; otherwise none. */
  ghost predicate FirstHosts(births: map<Id, Birth>, c: seq<Id>, hosts: seq<string>)
    requires Around(births, c)
  {
    || (exists k :: 0 <= k < |c| && hosts == births[c[k]].own.bindHosts && hosts != []
                    && forall j :: 0 <= j < k ==> births[c[j]].own.bindHosts == [])
    || (hosts == [] && forall j :: 0 <= j < |c| ==> births[c[j]].own.bindHosts == [])
  }

  /** All else that is kept of an instance besides its ports. */
  predicate SameMember(x: Instance, own: Instance) {
    && x.filtername == own.filtername && x.labels == own.labels
    && x.copyRank == own.copyRank && x.numCopies == own.numCopies && x.expanded == own.expanded
    && x.inbound == own.inbound && x.outbound == own.outbound
  }

  ghost predicate Inherits(births: map<Id, Birth>, a: Id, x: Instance) {
    && a in births && SameMember(x, births[a].own)
    && exists c :: Around(births, c) && c[0] == a && FirstHosts(births, c, x.bindHosts)
  }

  ghost predicate AllInherit(l: Layout, births: map<Id, Birth>) {
    && (forall a :: a in births ==> a < l.next)
    && forall a :: a in l.filters ==> a in l.heap && Inherits(births, a, l.heap[a])
  }

  lemma {:induction false} OriginalsInherit(l: Layout)
    requires Closed(l)
    ensures AllInherit(l, Originals(l))
  {
    var births := Originals(l);
    forall a | a in l.filters
      ensures Inherits(births, a, l.heap[a])
    {
      assert Around(births, [a]) && FirstHosts(births, [a], l.heap[a].bindHosts);
    }
  }

  /** New births leave what an old instance inherits as it was. */
  lemma {:induction false} StillInherits(births: map<Id, Birth>, e: Id, sub: Layout, a: Id, x: Instance)
    requires Closed(sub) && (forall k :: k in sub.filters ==> k !in births) && Inherits(births, a, x)
    ensures Inherits(Born(births, e, sub), a, x)
  {
    var c :| Around(births, c) && c[0] == a && FirstHosts(births, c, x.bindHosts);
    var more := Born(births, e, sub);
    assert forall k :: 0 <= k < |c| ==> c[k] in more && more[c[k]] == births[c[k]];
    assert Around(more, c) && FirstHosts(more, c, x.bindHosts);
  }

  /** A member of the composite e. */
  lemma {:induction false} MemberInherits(births: map<Id, Birth>, e: Id, y: Instance, sub: Layout, a: Id, x: Instance)
    requires Closed(sub) && a in sub.filters && (forall k :: k in sub.filters ==> k !in births)
    requires Inherits(births, e, y) && SameMember(x, sub.heap[a])
    requires x.bindHosts == if sub.heap[a].bindHosts != [] then sub.heap[a].bindHosts else y.bindHosts
    ensures Inherits(Born(births, e, sub), a, x)
  {
    var more := Born(births, e, sub);
    StillInherits(births, e, sub, e, y);
    var c :| Around(more, c) && c[0] == e && FirstHosts(more, c, y.bindHosts);
    AroundMember(more, a, c);
    MemberHosts(more, a, c, y.bindHosts, x.bindHosts);
  }

  lemma {:induction false} AroundMember(births: map<Id, Birth>, a: Id, c: seq<Id>)
    requires Around(births, c) && a in births && births[a].composite == Some(c[0])
    ensures Around(births, [a] + c)
  {
  }

  lemma {:induction false} MemberHosts(births: map<Id, Birth>, a: Id, c: seq<Id>, outer: seq<string>, hosts: seq<string>)
    requires Around(births, c) && a in births && Around(births, [a] + c) && FirstHosts(births, c, outer)
    requires hosts == if births[a].own.bindHosts != [] then births[a].own.bindHosts else outer
    ensures FirstHosts(births, [a] + c, hosts)
  {
    var all := [a] + c;
    if births[a].own.bindHosts != [] {
      assert all[0] == a;
    } else if k :| 0 <= k < |c| && outer == births[c[k]].own.bindHosts && outer != []
                   && forall j :: 0 <= j < k ==> births[c[j]].own.bindHosts == [] {
      assert all[k + 1] == c[k];
    }
  }

  lemma {:induction false} MemberFields(l: Layout, t: Turn, a: Id)
    requires CanCompose(l, t.u, t.sub, t.i, t.o) && a in t.sub.filters
    ensures var m, own := ComposeAt(l, t.u, t.sub, t.i, t.o), t.sub.heap[a];
            && a in m.heap && SameMember(m.heap[a], own)
            && m.heap[a].bindHosts == if own.bindHosts != [] then own.bindHosts else l.heap[l.filters[t.u]].bindHosts
  {
  }

  lemma {:induction false} OtherFields(l: Layout, t: Turn, a: Id)
    requires CanCompose(l, t.u, t.sub, t.i, t.o) && a in l.filters && a !in t.sub.filters
    ensures var m := ComposeAt(l, t.u, t.sub, t.i, t.o);
            a in m.heap && SameMember(m.heap[a], l.heap[a]) && m.heap[a].bindHosts == l.heap[a].bindHosts
  {
  }

  lemma {:induction false} InheritsToo(births: map<Id, Birth>, a: Id, x: Instance, y: Instance)
    requires Inherits(births, a, x) && SameMember(y, x) && y.bindHosts == x.bindHosts
    ensures Inherits(births, a, y)
  {
  }

  lemma {:induction false} TurnInherits(l: Layout, t: Turn, births: map<Id, Birth>)
    requires CanCompose(l, t.u, t.sub, t.i, t.o) && AllInherit(l, births)
    ensures AllInherit(ComposeAt(l, t.u, t.sub, t.i, t.o), Born(births, l.filters[t.u], t.sub))
  {
    var e, m := l.filters[t.u], ComposeAt(l, t.u, t.sub, t.i, t.o);
    ComposeFilters(l, t.u, t.sub, t.i, t.o);
    forall a | a in m.filters
      ensures Inherits(Born(births, e, t.sub), a, m.heap[a])
    {
      if a in t.sub.filters {
        MemberFields(l, t, a);
        MemberInherits(births, e, l.heap[e], t.sub, a, m.heap[a]);
      } else {
        OtherFields(l, t, a);
        StillInherits(births, e, t.sub, a, l.heap[a]);
        InheritsToo(Born(births, e, t.sub), a, l.heap[a], m.heap[a]);
      }
    }
  }

  lemma {:induction false} RunInherits(l: Layout, turns: seq<Turn>, r: Layout, births: map<Id, Birth>)
    requires Composes(l, turns, r) && AllInherit(l, births)
    ensures AllInherit(r, BirthsOf(l, turns, r, births))
    decreases |turns|
  {
    if turns != [] {
      var t := turns[0];
      TurnInherits(l, t, births);
      RunInherits(ComposeAt(l, t.u, t.sub, t.i, t.o), turns[1..], r, Born(births, l.filters[t.u], t.sub));
    }
  }

  /**
    However deep the composites are nested, each instance of the result is what its own layout wrote,
    bound to the hosts written there, or, if there are none, to those of the nearest composite
    around it that has some, and to none if no composite around it has any.
  */
  lemma {:induction false} CompositionInherits(l: Layout, turns: seq<Turn>, r: Layout, a: Id)
    requires Closed(l) && Composes(l, turns, r) && a in r.filters
    ensures var births := BirthsOf(l, turns, r, Originals(l));
            && a in r.heap && a in births && SameMember(r.heap[a], births[a].own)
            && exists c :: Around(births, c) && c[0] == a && FirstHosts(births, c, r.heap[a].bindHosts)
  {
    OriginalsInherit(l);
    RunInherits(l, turns, r, Originals(l));
  }

  // ---------------------------------------------------------------------------
  // The code
  // ---------------------------------------------------------------------------

  predicate OnlyInbound(sub: Layout, i: Id) {
    IsInbound(sub, i) && forall a :: a in sub.filters && IsInbound(sub, a) ==> a == i
  }

  predicate OnlyOutbound(sub: Layout, o: Id) {
    IsOutbound(sub, o) && forall a :: a in sub.filters && IsOutbound(sub, a) ==> a == o
  }

  /** Count the designates; anything but one each way ends the program. */
  method FindDesignates(sub: Layout) returns (ok: bool, i: Id, o: Id)
    requires Closed(sub)
    ensures ok ==> OnlyInbound(sub, i) && OnlyOutbound(sub, o)
    ensures (exists x, y :: OnlyInbound(sub, x) && OnlyOutbound(sub, y)) ==> ok
  {
    var ins, outs, k := 0, 0, 0;
    i, o := 0, 0;
    while k < |sub.filters|
      invariant 0 <= k <= |sub.filters| && 0 <= ins && 0 <= outs
      invariant ins == 0 ==> forall j :: 0 <= j < k ==> !IsInbound(sub, sub.filters[j])
      invariant ins > 0 ==> IsInbound(sub, i)
      invariant ins == 1 ==> forall j :: 0 <= j < k ==> IsInbound(sub, sub.filters[j]) ==> sub.filters[j] == i
      invariant ins > 1 ==> exists x, y :: x != y && IsInbound(sub, x) && IsInbound(sub, y)
      invariant outs == 0 ==> forall j :: 0 <= j < k ==> !IsOutbound(sub, sub.filters[j])
      invariant outs > 0 ==> IsOutbound(sub, o)
      invariant outs == 1 ==> forall j :: 0 <= j < k ==> IsOutbound(sub, sub.filters[j]) ==> sub.filters[j] == o
      invariant outs > 1 ==> exists x, y :: x != y && IsOutbound(sub, x) && IsOutbound(sub, y)
      invariant ins > 0 ==> i in sub.filters[..k]
      invariant outs > 0 ==> o in sub.filters[..k]
    {
      var a := sub.filters[k];
      assert a !in sub.filters[..k] && sub.filters[..k + 1] == sub.filters[..k] + [a];
      if sub.heap[a].inbound {
        ins := ins + 1;
        if ins == 1 {
          i := a;
        } else {
          assert i != a && IsInbound(sub, i) && IsInbound(sub, a);
        }
      }
      if sub.heap[a].outbound {
        outs := outs + 1;
        if outs == 1 {
          o := a;
        } else {
          assert o != a && IsOutbound(sub, o) && IsOutbound(sub, a);
        }
      }
      k := k + 1;
    }
    ok := ins == 1 && outs == 1;
  }

  method RedirectRemotes(remotes: seq<Remote>, e: Id, i: Id) returns (r: seq<Remote>)
    ensures r == Redirect(remotes, e, i)
  {
    r := remotes;
    var k := 0;
    while k < |remotes|
      invariant 0 <= k <= |remotes| == |r|
      invariant r[..k] == Redirect(remotes, e, i)[..k] && r[k..] == remotes[k..]
    {
      if r[k].instance == e {
        r := r[k := r[k].(instance := i)];
      }
      k := k + 1;
    }
  }

  method RedirectPorts(x: Instance, e: Id, i: Id) returns (r: Instance)
    ensures r == Redirected(x, e, i)
  {
    var ports, keys := x.outports, x.outports.Keys;
    while keys != {}
      invariant keys <= x.outports.Keys == ports.Keys
      invariant forall p :: p in ports ==> ports[p] == if p in keys then x.outports[p] else Redirect(x.outports[p], e, i)
      decreases |keys|
    {
      var p :| p in keys;
      var remotes := RedirectRemotes(ports[p], e, i);
      ports := ports[p := remotes];
      keys := keys - {p};
    }
    assert ports == Redirected(x, e, i).outports;
    r := x.(outports := ports);
  }

  /** `add_port` for every remote of one port. */
  method AddRemotes(x: Instance, p: string, remotes: seq<Remote>) returns (r: Instance)
    requires p !in x.outports
    ensures r == if remotes == [] then x else x.(outports := x.outports[p := remotes])
  {
    r := x;
    var k := 0;
    while k < |remotes|
      invariant 0 <= k <= |remotes|
      invariant r == if k == 0 then x else x.(outports := x.outports[p := remotes[..k]])
    {
      var more := Remotes(r, p) + [remotes[k]];
      r := r.(outports := r.outports[p := more]);
      assert remotes[..k + 1] == remotes[..k] + [remotes[k]];
      k := k + 1;
    }
    assert remotes[..k] == remotes;
  }

  /** The ports of the composite, in whatever order they come, on an instance without ports. */
  method LinkPorts(x: Instance, ports: map<string, seq<Remote>>) returns (r: Instance)
    requires x.outports == map[]
    ensures r == Linked(x, ports)
  {
    r := x;
    var keys := ports.Keys;
    while keys != {}
      invariant keys <= ports.Keys && r == x.(outports := r.outports)
      invariant forall p :: p in r.outports <==> p in ports && p !in keys && ports[p] != []
      invariant forall p :: p in r.outports ==> r.outports[p] == ports[p]
      decreases |keys|
    {
      var p :| p in keys;
      r := AddRemotes(r, p, ports[p]);
      keys := keys - {p};
    }
    assert r.outports == Linked(x, ports).outports;
  }

  datatype Outcome = Expanded | BadDesignates(u: nat) | StillNested(u: nat)

  /** Layouts of composites are closed and made of new instances; the code asserts the last line. */
  ghost predicate Sensible(oracle: (Layout, nat) -> Option<Layout>) {
    forall l, u: nat :: Closed(l) && u < |l.filters| && oracle(l, u).Some? ==> SensibleAt(l, u, oracle(l, u).value)
  }

  ghost predicate SensibleAt(l: Layout, u: nat, sub: Layout)
    requires Closed(l) && u < |l.filters|
  {
    && Closed(sub) && l.next <= sub.next && (forall a :: a in sub.filters ==> l.next <= a)
    && (l.heap[l.filters[u]].outports != map[] ==> forall o :: OnlyOutbound(sub, o) ==> sub.heap[o].outports == map[])
  }

  class Expansion {
    var filters: seq<Id>
    var heap: map<Id, Instance>
    var next: Id

    constructor (l: Layout)
      ensures State() == l
    {
      filters, heap, next := l.filters, l.heap, l.next;
    }

    function State(): Layout
      reads this
    {
      Layout(filters, heap, next)
    }

    method AdoptMembers(e: Id, sub: Layout)
      requires Closed(sub) && e in heap && e !in sub.filters
      modifies this`heap
      ensures heap == Adopted(old(heap), e, sub)
    {
      var k := 0;
      ghost var h := heap;
      assert forall a :: a in sub.filters ==> a in sub.heap;
      while k < |sub.filters|
        invariant 0 <= k <= |sub.filters| && e in heap && heap[e] == h[e]
        invariant forall a :: a in heap <==> a in h || a in sub.filters[..k]
        invariant forall a :: a in heap ==>
          heap[a] == if a in sub.filters[..k] then Inherit(sub.heap[a], h[e]) else h[a]
      {
        var a := sub.filters[k];
        var x := sub.heap[a];
        if |heap[e].bindHosts| > 0 && |x.bindHosts| > 0 {
        } else if |heap[e].bindHosts| > 0 {
          x := x.(bindHosts := heap[e].bindHosts);
        }
        assert sub.filters[..k + 1] == sub.filters[..k] + [a];
        heap := heap[a := x];
        k := k + 1;
      }
      assert sub.filters[..k] == sub.filters;
    }

    method RedirectAll(e: Id, i: Id)
      requires Distinct(filters) && forall a :: a in filters ==> a in heap
      modifies this`heap
      ensures heap == AllRedirected(old(heap), filters, e, i)
    {
      var k := 0;
      ghost var h := heap;
      while k < |filters|
        invariant 0 <= k <= |filters| && heap.Keys == h.Keys
        invariant forall a :: a in heap ==> heap[a] == if a in filters[..k] then Redirected(h[a], e, i) else h[a]
      {
        var a := filters[k];
        var x := RedirectPorts(heap[a], e, i);
        assert filters[..k + 1] == filters[..k] + [a];
        heap := heap[a := x];
        k := k + 1;
      }
      assert filters[..k] == filters;
    }

    /** Push back the members, then find the composite and erase it. */
    method ReplaceInList(u: nat, members: seq<Id>)
      requires Distinct(filters) && u < |filters|
      modifies this`filters
      ensures filters == old(filters)[..u] + old(filters)[u + 1..] + members
    {
      var e, k := filters[u], 0;
      while k < |members|
        invariant 0 <= k <= |members| && filters == old(filters) + members[..k]
      {
        filters := filters + [members[k]];
        k := k + 1;
      }
      assert members[..k] == members;
      var it := 0;
      while filters[it] != e
        invariant it <= u && filters == old(filters) + members
        decreases u - it
      {
        it := it + 1;
      }
      filters := filters[..it] + filters[it + 1..];
    }

    /** Members in, ports redirected, and the ports of the composite handed on. */
    method ReplaceInHeap(u: nat, sub: Layout, i: Id, o: Id)
      requires CanCompose(State(), u, sub, i, o)
      modifies this`heap
      ensures heap == ComposeAt(old(State()), u, sub, i, o).heap
    {
      ghost var l := State();
      var e := filters[u];
      ComposeFilters(l, u, sub, i, o);
      AdoptMembers(e, sub);
      RedirectAll(e, i);
      RedirectedAt(l, u, sub, i, o, heap);
      if heap[e].outports.Keys != {} {
        var x := LinkPorts(heap[o], heap[e].outports);
        heap := heap[o := x];
      }
      ComposedIs(l, u, sub, i, o, heap);
    }

    /** One turn of the loop: the filter at position u turned out to be a composite. */
    method ExpandComposite(u: nat, sub: Layout) returns (ok: bool, i: Id, o: Id)
      requires Closed(State()) && u < |filters|
      requires Closed(sub) && next <= sub.next && forall a :: a in sub.filters ==> next <= a
      requires heap[filters[u]].outports != map[] ==>
                 forall o :: OnlyOutbound(sub, o) ==> sub.heap[o].outports == map[]
      modifies this
      ensures (exists x, y :: OnlyInbound(sub, x) && OnlyOutbound(sub, y)) ==> ok
      ensures if ok then CanCompose(old(State()), u, sub, i, o) && State() == ComposeAt(old(State()), u, sub, i, o)
              else State() == old(State())
    {
      ok, i, o := FindDesignates(sub);
      if ok {
        ReplaceInHeap(u, sub, i, o);
        ReplaceInList(u, sub.filters);
        next := sub.next;
      }
    }

    /** The first filter that is a composite, with its layout. */
    method FindComposite(oracle: (Layout, nat) -> Option<Layout>) returns (found: bool, u: nat)
      ensures if found then u < |filters| && oracle(State(), u).Some?
              else forall k :: 0 <= k < |filters| ==> oracle(State(), k).None?
    {
      u := 0;
      while u < |filters|
        invariant 0 <= u <= |filters| && forall k :: 0 <= k < u ==> oracle(State(), k).None?
      {
        if oracle(State(), u).Some? {
          return true, u;
        }
        u := u + 1;
      }
      return false, u;
    }

    /**
      `expand_composites`: start again after every expansion until no composite is left.  The oracle
      says which filters are composites and what they consist of; as a layout may nest for ever, the
      number of turns is bounded.
    */
    method ExpandComposites(oracle: (Layout, nat) -> Option<Layout>, bound: nat) returns (end: Outcome, ghost turns: seq<Turn>)
      requires Closed(State()) && Sensible(oracle)
      modifies this
      ensures Composes(old(State()), turns, State()) && |turns| <= bound
      ensures match end
              case Expanded => forall u :: 0 <= u < |filters| ==> oracle(State(), u).None?
              case BadDesignates(u) =>
                && u < |filters| && oracle(State(), u).Some?
                && !exists x, y :: OnlyInbound(oracle(State(), u).value, x) && OnlyOutbound(oracle(State(), u).value, y)
              case StillNested(u) => |turns| == bound && u < |filters| && oracle(State(), u).Some?
    {
      turns := [];
      var left := bound;
      while true
        invariant Closed(State()) && Composes(old(State()), turns, State()) && |turns| + left == bound
        decreases left
      {
        var found, u := FindComposite(oracle);
        if !found {
          return Expanded, turns;
        }
        if left == 0 {
          return StillNested(u), turns;
        }
        var sub := oracle(State(), u).value;
        ghost var m := State();
        var ok, i, o := ExpandComposite(u, sub);
        if !ok {
          return BadDesignates(u), turns;
        }
        ComposeClosed(m, u, sub, i, o);
        ComposesMore(old(State()), turns, m, Turn(u, sub, i, o));
        turns := turns + [Turn(u, sub, i, o)];
        left := left - 1;
      }
    }
  }

  ghost function Adopted(heap: map<Id, Instance>, e: Id, sub: Layout): map<Id, Instance>
    requires e in heap && forall a :: a in sub.filters ==> a in sub.heap
  {
    map a | a in heap.Keys + Ids(sub.filters) :: if a in sub.filters then Inherit(sub.heap[a], heap[e]) else heap[a]
  }

  ghost function AllRedirected(heap: map<Id, Instance>, filters: seq<Id>, e: Id, i: Id): map<Id, Instance> {
    map a | a in heap :: if a in filters then Redirected(heap[a], e, i) else heap[a]
  }

  lemma {:induction false} RedirectedAt(l: Layout, u: nat, sub: Layout, i: Id, o: Id, h: map<Id, Instance>)
    requires CanCompose(l, u, sub, i, o)
    requires var e := l.filters[u]; h == AllRedirected(Adopted(l.heap, e, sub), l.filters, e, i)
    ensures h.Keys == l.heap.Keys + Ids(sub.filters)
    ensures forall a :: a in h ==>
              h[a] == if a in sub.filters then Inherit(sub.heap[a], l.heap[l.filters[u]])
                      else if a in l.filters then Redirected(l.heap[a], l.filters[u], i) else l.heap[a]
  {
    ComposeFilters(l, u, sub, i, o);
  }

  lemma {:induction false} ComposedIs(l: Layout, u: nat, sub: Layout, i: Id, o: Id, h: map<Id, Instance>)
    requires CanCompose(l, u, sub, i, o) && h.Keys == l.heap.Keys + Ids(sub.filters)
    requires forall a :: a in h ==> h[a] == ComposedInstance(l, u, sub, i, o, a)
    ensures h == ComposeAt(l, u, sub, i, o).heap
  {
  }
}
