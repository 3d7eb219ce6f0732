/**
  The part of a pair's traffic that a given process has still to handle, and how steps of the
  network change it.
*/
module Upstream {
  import opened Common
  import opened Topology
  import opened Network

  /** Everything from `pl` up to and including the place that h takes packets from, oldest first. */
  function Upto(t: Clusters, n: Net, pl: Place, h: int, s: int, d: int): seq<Packet>
    requires Valid(t) && IsRank(t, d) && Fits(t, pl, d)
    decreases 8 - Stage(pl, d)
  {
    NextFits(t, pl, d);
    var next := Next(t, pl, d);
    (if HandlerOf(t, pl) == Main(h) || next.Deliver? then [] else Upto(t, n, next.place, h, s, d))
    + Waiting(n, pl, s, d)
  }

  /** What h has still to handle of the traffic from s to d. */
  function ToHandle(t: Clusters, n: Net, h: int, s: int, d: int): seq<Packet>
    requires Valid(t) && Pair(t, s, d)
  {
    Upto(t, n, Origin(t, s, d), h, s, d)
  }

  /** h handles the traffic from s to d. */
  predicate Handles(t: Clusters, h: int, s: int, d: int)
    requires Valid(t)
  {
    Pair(t, s, d) && h in Visits(t, Origin(t, s, d), d)
  }

  lemma {:induction false} VisitsStep(t: Clusters, pl: Place, d: int)
    requires Valid(t) && IsRank(t, d) && Fits(t, pl, d)
    ensures var next, h := Next(t, pl, d), HandlerOf(t, pl);
            && (next.Forward? ==> Fits(t, next.place, d))
            && Visits(t, pl, d) == (if h.Main? then [h.rank] else [])
                                 + if next.Deliver? then [] else Visits(t, next.place, d)
  {
    NextFits(t, pl, d);
  }

  lemma {:induction false} UptoStep(t: Clusters, n: Net, pl: Place, h: int, s: int, d: int)
    requires Valid(t) && IsRank(t, d) && Fits(t, pl, d)
    ensures var next := Next(t, pl, d);
            && (next.Forward? ==> Fits(t, next.place, d))
            && Upto(t, n, pl, h, s, d)
            == (if HandlerOf(t, pl) == Main(h) || next.Deliver? then [] else Upto(t, n, next.place, h, s, d))
             + Waiting(n, pl, s, d)
  {
    NextFits(t, pl, d);
  }

  lemma {:induction false} DistinctTail(x: int, v: seq<int>)
    requires Distinct([x] + v)
    ensures Distinct(v) && x !in v
  {
    var w := [x] + v;
    forall i, j | 0 <= i < j < |v|
      ensures v[i] != v[j]
    {
      assert w[i + 1] != w[j + 1];
    }
    forall i | 0 <= i < |v|
      ensures v[i] != x
    {
      assert w[0] != w[i + 1];
    }
  }

  /** The rank that handles a place further along the route is visited. */
  lemma {:induction false} HandlerVisited(t: Clusters, o: Place, pl: Place, d: int)
    requires Valid(t) && IsRank(t, d) && Fits(t, o, d) && Reaches(t, o, pl, d) && HandlerOf(t, pl).Main?
    ensures HandlerOf(t, pl).rank in Visits(t, o, d)
    decreases 8 - Stage(o, d)
  {
    VisitsStep(t, o, d);
    NextFits(t, o, d);
    if o != pl {
      HandlerVisited(t, Next(t, o, d).place, pl, d);
    }
  }

  lemma {:induction false} UptoFrame(t: Clusters, n: Net, m: Net, o: Place, h: int, s: int, d: int)
    requires Valid(t) && IsRank(t, d) && Fits(t, o, d)
    requires forall pl :: Stage(o, d) <= Stage(pl, d) ==> Waiting(n, pl, s, d) == Waiting(m, pl, s, d)
    ensures Upto(t, n, o, h, s, d) == Upto(t, m, o, h, s, d)
    decreases 8 - Stage(o, d)
  {
    NextFits(t, o, d);
    UptoStep(t, n, o, h, s, d);
    UptoStep(t, m, o, h, s, d);
    if Next(t, o, d).Forward? {
      UptoFrame(t, n, m, Next(t, o, d).place, h, s, d);
    }
  }

  predicate IsSuffix<T(==)>(u: seq<T>, q: seq<T>) {
    |u| <= |q| && q[|q| - |u|..] == u
  }

  lemma {:induction false} SuffixAppend<T>(u: seq<T>, q: seq<T>, w: seq<T>)
    requires IsSuffix(u, q)
    ensures IsSuffix(u + w, q + w)
  {
    var k := |q| - |u|;
    assert (q + w)[k..] == q[k..] + w;
  }

  /** What is still to handle is the newest part of what is in transit. */
  lemma {:induction false} UptoIsSuffix(t: Clusters, n: Net, o: Place, h: int, s: int, d: int)
    requires Valid(t) && IsRank(t, d) && Fits(t, o, d)
    ensures IsSuffix(Upto(t, n, o, h, s, d), Pipe(t, n, o, s, d))
    decreases 8 - Stage(o, d)
  {
    NextFits(t, o, d);
    PipeStep(t, n, o, s, d);
    UptoStep(t, n, o, h, s, d);
    var next, w := Next(t, o, d), Waiting(n, o, s, d);
    var beyond := if next.Deliver? then [] else Pipe(t, n, next.place, s, d);
    if HandlerOf(t, o) == Main(h) || next.Deliver? {
      SuffixAppend([], beyond, w);
      assert [] + w == w;
    } else {
      UptoIsSuffix(t, n, next.place, h, s, d);
      SuffixAppend(Upto(t, n, next.place, h, s, d), beyond, w);
    }
  }

  /** The destination has everything still to handle that is in transit. */
  lemma {:induction false} DestinationHandlesAll(t: Clusters, n: Net, o: Place, s: int, d: int)
    requires Valid(t) && IsRank(t, d) && Fits(t, o, d)
    ensures Upto(t, n, o, d, s, d) == Pipe(t, n, o, s, d)
    decreases 8 - Stage(o, d)
  {
    NextFits(t, o, d);
    PipeStep(t, n, o, s, d);
    UptoStep(t, n, o, d, s, d);
    if Next(t, o, d).Forward? {
      DestinationHandlesAll(t, n, Next(t, o, d).place, s, d);
    }
  }

  lemma {:induction false} ToHandleIsSuffix(t: Clusters, n: Net, h: int, s: int, d: int)
    requires Valid(t) && Pair(t, s, d) && PairFifo(t, n, s, d)
    ensures IsSuffix(ToHandle(t, n, h, s, d), Sent(n, s, d))
  {
    UptoIsSuffix(t, n, Origin(t, s, d), h, s, d);
    var got, pipe, u := Got(n, s, d), InTransit(t, n, s, d), ToHandle(t, n, h, s, d);
    assert (got + pipe)[|got| + |pipe| - |u|..] == pipe[|pipe| - |u|..];
  }

  // ---------------------------------------------------------------------------
  // Entering a packet
  // ---------------------------------------------------------------------------

  lemma {:induction false} PutUptoOther(t: Clusters, n: Net, pl: Place, p: Packet, o: Place, h: int, s: int, d: int)
    requires Valid(t) && IsRank(t, d) && Fits(t, o, d)
    requires (p.src, p.dst) != (s, d) || Stage(pl, d) < Stage(o, d)
    ensures Upto(t, Put(n, pl, p), o, h, s, d) == Upto(t, n, o, h, s, d)
  {
    SelectAppend(Lookup(n.at, pl), p, s, d);
    UptoFrame(t, n, Put(n, pl, p), o, h, s, d);
  }

  lemma {:induction false} PutUptoHere(t: Clusters, n: Net, pl: Place, p: Packet, h: int)
    requires Valid(t) && IsRank(t, p.dst) && Fits(t, pl, p.dst)
    ensures Upto(t, Put(n, pl, p), pl, h, p.src, p.dst) == Upto(t, n, pl, h, p.src, p.dst) + [p]
  {
    var s, d, m := p.src, p.dst, Put(n, pl, p);
    NextFits(t, pl, d);
    UptoStep(t, n, pl, h, s, d);
    UptoStep(t, m, pl, h, s, d);
    if Next(t, pl, d).Forward? {
      PutUptoOther(t, n, pl, p, Next(t, pl, d).place, h, s, d);
    }
    SelectAppend(Lookup(n.at, pl), p, s, d);
  }

  /** A packet just sent is still to handle for every process on its route. */
  lemma {:induction false} PutToHandle(t: Clusters, n: Net, pl: Place, p: Packet, h: int)
    requires Valid(t) && Addressed(t, p) && Enters(t, n, pl, p)
    requires Pair(t, p.src, p.dst)
    ensures ToHandle(t, Put(n, pl, p), h, p.src, p.dst) == ToHandle(t, n, h, p.src, p.dst) + [p]
  {
    var s, d, m := p.src, p.dst, Put(n, pl, p);
    OriginFits(t, s, d);
    PutUptoHere(t, n, pl, p, h);
    if pl != Origin(t, s, d) {
      assert Next(t, OutQ(s), d) == Forward(pl);
      UptoStep(t, n, OutQ(s), h, s, d);
      UptoStep(t, m, OutQ(s), h, s, d);
      SelectAppend(Lookup(n.at, OutQ(s)), p, s, d);
      assert Waiting(m, OutQ(s), s, d) == [];
    }
  }

  // ---------------------------------------------------------------------------
  // Moving a packet
  // ---------------------------------------------------------------------------

  lemma {:induction false} MoveUptoBeyond(t: Clusters, n: Net, pl: Place, h: int)
    requires Valid(t) && Movable(t, n, pl)
    requires Next(t, pl, Lookup(n.at, pl)[0].dst).Forward?
    ensures var p := Lookup(n.at, pl)[0];
            var next := Next(t, pl, p.dst).place;
            && Fits(t, next, p.dst)
            && Upto(t, Move(t, n, pl), next, h, p.src, p.dst) == Upto(t, n, next, h, p.src, p.dst) + [p]
  {
    var p, m := Lookup(n.at, pl)[0], Move(t, n, pl);
    var s, d := p.src, p.dst;
    NextFits(t, pl, d);
    var next := Next(t, pl, d).place;
    NextFits(t, next, d);
    UptoStep(t, n, next, h, s, d);
    UptoStep(t, m, next, h, s, d);
    forall x | Stage(next, d) <= Stage(x, d)
      ensures Waiting(m, x, s, d) == Waiting(n, x, s, d) + if x == next then [p] else []
    {
      MoveWaiting(t, n, pl, x, s, d);
    }
    if Next(t, next, d).Forward? {
      UptoFrame(t, n, m, Next(t, next, d).place, h, s, d);
    }
  }

  lemma {:induction false} MoveUptoHere(t: Clusters, n: Net, pl: Place, h: int)
    requires Valid(t) && Movable(t, n, pl)
    requires HandlerOf(t, pl) == Main(h) || Next(t, pl, Lookup(n.at, pl)[0].dst).Forward?
    ensures var p := Lookup(n.at, pl)[0];
            var before, after := Upto(t, n, pl, h, p.src, p.dst), Upto(t, Move(t, n, pl), pl, h, p.src, p.dst);
            if HandlerOf(t, pl) == Main(h) then [p] + after == before else after == before
  {
    var p, m := Lookup(n.at, pl)[0], Move(t, n, pl);
    var s, d := p.src, p.dst;
    UptoStep(t, n, pl, h, s, d);
    UptoStep(t, m, pl, h, s, d);
    MoveWaiting(t, n, pl, pl, s, d);
    if HandlerOf(t, pl) != Main(h) {
      var next := Next(t, pl, d).place;
      MoveUptoBeyond(t, n, pl, h);
      var x, w := Upto(t, n, next, h, s, d), Waiting(m, pl, s, d);
      Assoc(x, [p], w);
    }
  }

  lemma {:induction false} MoveUptoBefore(t: Clusters, n: Net, pl: Place, o: Place, h: int)
    requires Valid(t) && Movable(t, n, pl)
    requires var p := Lookup(n.at, pl)[0];
             && Fits(t, o, p.dst) && Stage(o, p.dst) < Stage(pl, p.dst)
             && Next(t, o, p.dst).Forward?
    ensures var p, m := Lookup(n.at, pl)[0], Move(t, n, pl);
            var s, d, next := p.src, p.dst, Next(t, o, p.dst).place;
            && Fits(t, next, d)
            && Upto(t, n, o, h, s, d)
            == (if HandlerOf(t, o) == Main(h) then [] else Upto(t, n, next, h, s, d)) + Waiting(n, o, s, d)
            && Upto(t, m, o, h, s, d)
            == (if HandlerOf(t, o) == Main(h) then [] else Upto(t, m, next, h, s, d)) + Waiting(n, o, s, d)
  {
    var p, m := Lookup(n.at, pl)[0], Move(t, n, pl);
    UptoStep(t, n, o, h, p.src, p.dst);
    UptoStep(t, m, o, h, p.src, p.dst);
    MoveWaiting(t, n, pl, o, p.src, p.dst);
    NextFits(t, pl, p.dst);
  }

  lemma {:induction false} VisitedOnce(t: Clusters, o: Place, pl: Place, d: int)
    requires Valid(t) && IsRank(t, d) && Fits(t, o, d) && Reaches(t, o, pl, d) && o != pl
    requires Distinct(Visits(t, o, d))
    ensures Next(t, o, d).Forward? && Fits(t, Next(t, o, d).place, d)
    ensures Reaches(t, Next(t, o, d).place, pl, d) && Stage(o, d) < Stage(pl, d) && Fits(t, pl, d)
    ensures Distinct(Visits(t, Next(t, o, d).place, d))
    ensures HandlerOf(t, o).Main? ==> HandlerOf(t, o) != HandlerOf(t, pl)
    ensures forall h :: h in Visits(t, o, d) && HandlerOf(t, o) != Main(h) ==> h in Visits(t, Next(t, o, d).place, d)
  {
    NextFits(t, o, d);
    var next := Next(t, o, d).place;
    ReachesForward(t, next, pl, d);
    VisitsStep(t, o, d);
    if HandlerOf(t, o).Main? {
      DistinctTail(HandlerOf(t, o).rank, Visits(t, next, d));
      if HandlerOf(t, pl).Main? {
        HandlerVisited(t, next, pl, d);
      }
    } else {
      assert Visits(t, o, d) == Visits(t, next, d);
    }
  }

  /** Moving a packet takes it off the list of exactly the process that handled it. */
  lemma {:induction false} MoveUpto(t: Clusters, n: Net, pl: Place, o: Place, h: int)
    requires Valid(t) && Movable(t, n, pl)
    requires var p := Lookup(n.at, pl)[0];
             && Fits(t, o, p.dst) && Reaches(t, o, pl, p.dst)
             && h in Visits(t, o, p.dst) && Distinct(Visits(t, o, p.dst))
    ensures var p := Lookup(n.at, pl)[0];
            var before, after := Upto(t, n, o, h, p.src, p.dst), Upto(t, Move(t, n, pl), o, h, p.src, p.dst);
            if HandlerOf(t, pl) == Main(h) then [p] + after == before else after == before
    decreases 8 - Stage(o, Lookup(n.at, pl)[0].dst)
  {
    var p, m := Lookup(n.at, pl)[0], Move(t, n, pl);
    var s, d := p.src, p.dst;
    if o == pl {
      VisitsStep(t, pl, d);
      MoveUptoHere(t, n, pl, h);
    } else {
      VisitedOnce(t, o, pl, d);
      NextFits(t, o, d);
      MoveUptoBefore(t, n, pl, o, h);
      if HandlerOf(t, o) != Main(h) {
        var next := Next(t, o, d).place;
        MoveUpto(t, n, pl, next, h);
        var after, w := Upto(t, m, next, h, s, d), Waiting(n, o, s, d);
        Assoc([p], after, w);
      }
    }
  }

  lemma {:induction false} MoveToHandleOther(t: Clusters, n: Net, pl: Place, h: int, s: int, d: int)
    requires Valid(t) && Movable(t, n, pl) && Pair(t, s, d)
    requires var p := Lookup(n.at, pl)[0]; (p.src, p.dst) != (s, d)
    ensures ToHandle(t, Move(t, n, pl), h, s, d) == ToHandle(t, n, h, s, d)
  {
    forall x
      ensures Waiting(n, x, s, d) == Waiting(Move(t, n, pl), x, s, d)
    {
      MoveWaiting(t, n, pl, x, s, d);
    }
    UptoFrame(t, n, Move(t, n, pl), Origin(t, s, d), h, s, d);
  }

  lemma {:induction false} MoveToHandle(t: Clusters, n: Net, pl: Place, h: int)
    requires Valid(t) && Movable(t, n, pl)
    requires var p := Lookup(n.at, pl)[0]; PlacedAt(t, pl, p) && Handles(t, h, p.src, p.dst)
    ensures var p := Lookup(n.at, pl)[0];
            var before, after := ToHandle(t, n, h, p.src, p.dst), ToHandle(t, Move(t, n, pl), h, p.src, p.dst);
            if HandlerOf(t, pl) == Main(h) then [p] + after == before else after == before
  {
    var p := Lookup(n.at, pl)[0];
    RoutingTotality(t, p.src, p.dst);
    MoveUpto(t, n, pl, Origin(t, p.src, p.dst), h);
  }
}
