/**
  Layouts under construction: filter instances, named by identity, whose out-ports lead to in-ports
  of other instances.
*/
module Layouts {
  import opened Common

  type Id = nat

  datatype Remote = Remote(instance: Id, port: string)

  datatype Instance = Instance(
    filtername: string,
    outports: map<string, seq<Remote>>,
    copyRank: int,
    numCopies: int,
    expanded: bool,                      // transparent_copies_expanded
    bindHosts: seq<string>,
    labels: seq<seq<string>>,            // layout_labels
    inbound: bool,                       // is_inbound_composite_designate
    outbound: bool)                      // is_outbound_composite_designate

  /** `next` is above every identity in use, so that new instances can be told apart. */
  datatype Layout = Layout(filters: seq<Id>, heap: map<Id, Instance>, next: Id)

  function Ids(s: seq<Id>): set<Id> {
    set a | a in s
  }

  predicate PointsInto(x: Instance, filters: seq<Id>) {
    forall p, r :: p in x.outports && r in x.outports[p] ==> r.instance in filters
  }

  /** Every instance is listed once, and every port leads to a listed instance. */
  predicate Closed(l: Layout) {
    && Distinct(l.filters)
    && (forall a :: a in l.filters ==> a in l.heap && a < l.next)
    && (forall a :: a in l.filters ==> PointsInto(l.heap[a], l.filters))
  }

  function Remotes(x: Instance, p: string): seq<Remote> {
    if p in x.outports then x.outports[p] else []
  }

  /** How often out-port p of a leads to in-port q of b. */
  function Edges(l: Layout, a: Id, p: string, b: Id, q: string): nat
    requires a in l.heap
  {
    multiset(Remotes(l.heap[a], p))[Remote(b, q)]
  }

  /** In a closed layout every connection stays inside. */
  lemma {:induction false} EdgeInside(l: Layout, a: Id, p: string, b: Id, q: string)
    requires Closed(l) && a in l.filters
    ensures Edges(l, a, p, b, q) > 0 ==> b in l.filters
  {
    assert PointsInto(l.heap[a], l.filters);
    if Edges(l, a, p, b, q) > 0 {
      assert Remote(b, q) in Remotes(l.heap[a], p);
    }
  }
}
