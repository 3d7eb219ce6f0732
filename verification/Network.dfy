/**
  Packets in transit.  A network state records what waits at every place, and, as history, what
  each ordered pair of ranks has sent and received.  Each place is a first-in first-out queue and
  every packet of one pair follows the same route, so the pair as a whole is first-in first-out.
*/
module Network {
  import opened Common
  import opened Topology

  type Bytes = seq<bv8>

  datatype Kind = Buffer(body: Bytes) | RemovePutter | FiltersDone

  /** A packet with the part of its address that the runtime reads. */
  datatype Packet = Packet(
    kind: Kind,
    dst: int, dstCluster: int, toFilter: int, toPort: string,
    src: int, srcCluster: int, fromFilter: int)

  datatype Net = Net(
    at: map<Place, seq<Packet>>,
    sent: map<(int, int), seq<Packet>>,
    got: map<(int, int), seq<Packet>>)

  const Idle := Net(map[], map[], map[])

  function Lookup<K, V>(m: map<K, seq<V>>, k: K): seq<V> {
    if k in m then m[k] else []
  }

  function Enqueue<K, V>(m: map<K, seq<V>>, k: K, v: V): map<K, seq<V>> {
    m[k := Lookup(m, k) + [v]]
  }

  lemma {:induction false} EnqueueAt<K, V>(m: map<K, seq<V>>, k: K, v: V, x: K)
    ensures Lookup(Enqueue(m, k, v), x) == if x == k then Lookup(m, k) + [v] else Lookup(m, x)
  {
  }

  function Sent(n: Net, s: int, d: int): seq<Packet> { Lookup(n.sent, (s, d)) }

  function Got(n: Net, s: int, d: int): seq<Packet> { Lookup(n.got, (s, d)) }

  /** The addresses a sender puts on a packet. */
  predicate Addressed(t: Clusters, p: Packet)
    requires Valid(t)
  {
    && IsRank(t, p.src) && IsRank(t, p.dst) && p.src != p.dst
    && p.srcCluster == ClusterOf(t, p.src)
    && p.dstCluster == ClusterOf(t, p.dst)
  }

  /** Enter a packet at a place. */
  function Put(n: Net, pl: Place, p: Packet): Net {
    n.(at := Enqueue(n.at, pl, p), sent := Enqueue(n.sent, (p.src, p.dst), p))
  }

  /** The network with the first packet of a place taken out. */
  function Rest(n: Net, pl: Place): Net
    requires Lookup(n.at, pl) != []
  {
    n.(at := n.at[pl := Lookup(n.at, pl)[1..]])
  }

  predicate Movable(t: Clusters, n: Net, pl: Place)
    requires Valid(t)
  {
    var q := Lookup(n.at, pl);
    q != [] && Addressed(t, q[0]) && Fits(t, pl, q[0].dst)
  }

  /** Take the first packet out of a place and pass it on. */
  function Move(t: Clusters, n: Net, pl: Place): Net
    requires Valid(t) && Movable(t, n, pl)
  {
    var q := Lookup(n.at, pl);
    var p, rest := q[0], n.at[pl := q[1..]];
    match Next(t, pl, p.dst)
    case Forward(next) => n.(at := Enqueue(rest, next, p))
    case Deliver => n.(at := rest, got := Enqueue(n.got, (p.src, p.dst), p))
  }

  // ---------------------------------------------------------------------------
  // Traffic of one pair
  // ---------------------------------------------------------------------------

  function Select(q: seq<Packet>, s: int, d: int): seq<Packet> {
    if q == [] then []
    else (if q[0].src == s && q[0].dst == d then [q[0]] else []) + Select(q[1..], s, d)
  }

  lemma {:induction false} SelectAppend(q: seq<Packet>, p: Packet, s: int, d: int)
    ensures Select(q + [p], s, d) == Select(q, s, d) + if p.src == s && p.dst == d then [p] else []
  {
    if q != [] {
      assert (q + [p])[1..] == q[1..] + [p];
      SelectAppend(q[1..], p, s, d);
    }
  }

  lemma {:induction false} SelectMember(q: seq<Packet>, s: int, d: int, p: Packet)
    ensures p in Select(q, s, d) <==> p in q && p.src == s && p.dst == d
  {
    if q != [] {
      SelectMember(q[1..], s, d, p);
    }
  }

  /** What one place holds for the pair (s, d). */
  function Waiting(n: Net, pl: Place, s: int, d: int): seq<Packet> {
    Select(Lookup(n.at, pl), s, d)
  }

  /** Everything between `pl` and the destination, oldest first. */
  function Pipe(t: Clusters, n: Net, pl: Place, s: int, d: int): seq<Packet>
    requires Valid(t) && IsRank(t, d) && Fits(t, pl, d)
    decreases 8 - Stage(pl, d)
  {
    NextFits(t, pl, d);
    var next := Next(t, pl, d);
    (if next.Deliver? then [] else Pipe(t, n, next.place, s, d)) + Waiting(n, pl, s, d)
  }

  lemma {:induction false} PipeStep(t: Clusters, n: Net, pl: Place, s: int, d: int)
    requires Valid(t) && IsRank(t, d) && Fits(t, pl, d)
    ensures var next := Next(t, pl, d);
            && (next.Forward? ==> Fits(t, next.place, d))
            && Pipe(t, n, pl, s, d)
            == (if next.Deliver? then [] else Pipe(t, n, next.place, s, d)) + Waiting(n, pl, s, d)
  {
    NextFits(t, pl, d);
  }

  /** `pl` lies on the route that starts at `o`. */
  predicate Reaches(t: Clusters, o: Place, pl: Place, d: int)
    requires Valid(t) && IsRank(t, d) && Fits(t, o, d)
    decreases 8 - Stage(o, d)
  {
    NextFits(t, o, d);
    var next := Next(t, o, d);
    o == pl || (next.Forward? && Reaches(t, next.place, pl, d))
  }

  lemma {:induction false} ReachesForward(t: Clusters, o: Place, pl: Place, d: int)
    requires Valid(t) && IsRank(t, d) && Fits(t, o, d) && Reaches(t, o, pl, d)
    ensures Fits(t, pl, d) && Stage(o, d) <= Stage(pl, d)
    ensures Next(t, pl, d).Forward? ==> Reaches(t, o, Next(t, pl, d).place, d)
    decreases 8 - Stage(o, d)
  {
    NextFits(t, o, d);
    if o != pl {
      ReachesForward(t, Next(t, o, d).place, pl, d);
    }
  }

  lemma {:induction false} PipeFrame(t: Clusters, n: Net, m: Net, o: Place, s: int, d: int)
    requires Valid(t) && IsRank(t, d) && Fits(t, o, d)
    requires forall pl :: Stage(o, d) <= Stage(pl, d) ==> Waiting(n, pl, s, d) == Waiting(m, pl, s, d)
    ensures Pipe(t, n, o, s, d) == Pipe(t, m, o, s, d)
    decreases 8 - Stage(o, d)
  {
    NextFits(t, o, d);
    if Next(t, o, d).Forward? {
      PipeFrame(t, n, m, Next(t, o, d).place, s, d);
    }
  }

  // ---------------------------------------------------------------------------
  // The invariant
  // ---------------------------------------------------------------------------

  predicate PlacedAt(t: Clusters, pl: Place, p: Packet)
    requires Valid(t)
  {
    && Addressed(t, p)
    && Fits(t, Origin(t, p.src, p.dst), p.dst)
    && Reaches(t, Origin(t, p.src, p.dst), pl, p.dst)
  }

  ghost predicate Placed(t: Clusters, n: Net)
    requires Valid(t)
  {
    forall pl, p :: p in Lookup(n.at, pl) ==> PlacedAt(t, pl, p)
  }

  predicate Pair(t: Clusters, s: int, d: int)
    requires Valid(t)
    ensures Pair(t, s, d) ==> IsRank(t, s) && IsRank(t, d) && s != d && Fits(t, Origin(t, s, d), d)
  {
    IsRank(t, s) && IsRank(t, d) && s != d && (OriginFits(t, s, d); true)
  }

  function InTransit(t: Clusters, n: Net, s: int, d: int): seq<Packet>
    requires Valid(t) && Pair(t, s, d)
  {
    Pipe(t, n, Origin(t, s, d), s, d)
  }

  ghost predicate PairFifo(t: Clusters, n: Net, s: int, d: int)
    requires Valid(t) && Pair(t, s, d)
  {
    Sent(n, s, d) == Got(n, s, d) + InTransit(t, n, s, d)
  }

  /** Packets are on their routes, and each pair's traffic is received in the order it was sent. */
  ghost predicate Fifo(t: Clusters, n: Net)
    requires Valid(t)
  {
    Placed(t, n) && forall s, d :: Pair(t, s, d) ==> PairFifo(t, n, s, d)
  }

  lemma {:induction false} IdlePipe(t: Clusters, o: Place, s: int, d: int)
    requires Valid(t) && IsRank(t, d) && Fits(t, o, d)
    ensures Pipe(t, Idle, o, s, d) == []
    decreases 8 - Stage(o, d)
  {
    NextFits(t, o, d);
    if Next(t, o, d).Forward? {
      IdlePipe(t, Next(t, o, d).place, s, d);
    }
  }

  lemma {:induction false} IdleFifo(t: Clusters)
    requires Valid(t)
    ensures Fifo(t, Idle)
  {
    forall s, d | Pair(t, s, d)
      ensures PairFifo(t, Idle, s, d)
    {
      IdlePipe(t, Origin(t, s, d), s, d);
    }
  }

  // ---------------------------------------------------------------------------
  // Entering a packet
  // ---------------------------------------------------------------------------

  /**
    Where a sender may enter a packet: the usual queue, or directly the place behind its outgoing
    queue when that queue holds nothing of the same pair.
  */
  predicate Enters(t: Clusters, n: Net, pl: Place, p: Packet)
    requires Valid(t) && Addressed(t, p)
  {
    var s, d := p.src, p.dst;
    || pl == Origin(t, s, d)
    || (s >= 0 && pl == Elsewhere(t, s, d) && Waiting(n, OutQ(s), s, d) == [])
  }

  lemma {:induction false} PutPipeOther(t: Clusters, n: Net, pl: Place, p: Packet, o: Place, s: int, d: int)
    requires Valid(t) && IsRank(t, d) && Fits(t, o, d)
    requires (p.src, p.dst) != (s, d) || Stage(pl, d) < Stage(o, d)
    ensures Pipe(t, Put(n, pl, p), o, s, d) == Pipe(t, n, o, s, d)
  {
    SelectAppend(Lookup(n.at, pl), p, s, d);
    PipeFrame(t, n, Put(n, pl, p), o, s, d);
  }

  lemma {:induction false} PutPipeHere(t: Clusters, n: Net, pl: Place, p: Packet)
    requires Valid(t) && IsRank(t, p.dst) && Fits(t, pl, p.dst)
    ensures Pipe(t, Put(n, pl, p), pl, p.src, p.dst) == Pipe(t, n, pl, p.src, p.dst) + [p]
  {
    var s, d, m := p.src, p.dst, Put(n, pl, p);
    NextFits(t, pl, d);
    var next := Next(t, pl, d);
    var rest := if next.Deliver? then [] else Pipe(t, n, next.place, s, d);
    if next.Forward? {
      PutPipeOther(t, n, pl, p, next.place, s, d);
    }
    SelectAppend(Lookup(n.at, pl), p, s, d);
    PipeStep(t, n, pl, s, d);
    PipeStep(t, m, pl, s, d);
    Assoc(rest, Waiting(n, pl, s, d), [p]);
  }

  lemma {:induction false} PutPipe(t: Clusters, n: Net, pl: Place, p: Packet)
    requires Valid(t) && Addressed(t, p) && Enters(t, n, pl, p)
    requires Pair(t, p.src, p.dst)
    ensures PlacedAt(t, pl, p)
    ensures InTransit(t, Put(n, pl, p), p.src, p.dst) == InTransit(t, n, p.src, p.dst) + [p]
  {
    var s, d := p.src, p.dst;
    OriginFits(t, s, d);
    PutPipeHere(t, n, pl, p);
    if pl != Origin(t, s, d) {
      assert Next(t, OutQ(s), d) == Forward(pl);
      assert Reaches(t, pl, pl, d);
      SelectAppend(Lookup(n.at, pl), p, s, d);
      assert Waiting(Put(n, pl, p), OutQ(s), s, d) == [];
    }
  }

  lemma {:induction false} PutKeepsPlaced(t: Clusters, n: Net, pl: Place, p: Packet)
    requires Valid(t) && Placed(t, n) && PlacedAt(t, pl, p)
    ensures Placed(t, Put(n, pl, p))
  {
    forall x, y | y in Lookup(Put(n, pl, p).at, x)
      ensures PlacedAt(t, x, y)
    {
      assert y in Lookup(n.at, x) || (x == pl && y == p);
    }
  }

  lemma {:induction false} PutKeepsFifo(t: Clusters, n: Net, pl: Place, p: Packet)
    requires Valid(t) && Fifo(t, n) && Addressed(t, p) && Enters(t, n, pl, p)
    ensures Fifo(t, Put(n, pl, p))
  {
    var m := Put(n, pl, p);
    assert Pair(t, p.src, p.dst);
    PutPipe(t, n, pl, p);
    PutKeepsPlaced(t, n, pl, p);
    forall s, d | Pair(t, s, d)
      ensures PairFifo(t, m, s, d)
    {
      assert PairFifo(t, n, s, d);
      if (s, d) != (p.src, p.dst) {
        PutPipeOther(t, n, pl, p, Origin(t, s, d), s, d);
      } else {
        Assoc(Got(n, s, d), InTransit(t, n, s, d), [p]);
      }
    }
  }

  // ---------------------------------------------------------------------------
  // Moving a packet
  // ---------------------------------------------------------------------------

  lemma {:induction false} MoveAt(t: Clusters, n: Net, pl: Place, x: Place)
    requires Valid(t) && Movable(t, n, pl)
    ensures var q, m := Lookup(n.at, pl), Move(t, n, pl);
            var next := Next(t, pl, q[0].dst);
            && next != Forward(pl)
            && Lookup(m.at, x) == if x == pl then q[1..]
                                  else if next == Forward(x) then Lookup(n.at, x) + [q[0]]
                                  else Lookup(n.at, x)
  {
    NextFits(t, pl, Lookup(n.at, pl)[0].dst);
  }

  lemma {:induction false} MoveWaiting(t: Clusters, n: Net, pl: Place, x: Place, s: int, d: int)
    requires Valid(t) && Movable(t, n, pl)
    ensures var p := Lookup(n.at, pl)[0];
            var before, after := Waiting(n, x, s, d), Waiting(Move(t, n, pl), x, s, d);
            if p.src != s || p.dst != d then after == before
            else if x == pl then [p] + after == before
            else if Next(t, pl, d) == Forward(x) then after == before + [p]
            else after == before
  {
    var p := Lookup(n.at, pl)[0];
    MoveAt(t, n, pl, x);
    SelectAppend(Lookup(n.at, x), p, s, d);
  }

  lemma {:induction false} MoveNext(t: Clusters, n: Net, pl: Place)
    requires Valid(t) && Movable(t, n, pl)
    requires Next(t, pl, Lookup(n.at, pl)[0].dst).Forward?
    ensures var p := Lookup(n.at, pl)[0];
            var next := Next(t, pl, p.dst).place;
            && Fits(t, next, p.dst)
            && Pipe(t, Move(t, n, pl), next, p.src, p.dst) == Pipe(t, n, next, p.src, p.dst) + [p]
  {
    var p, m := Lookup(n.at, pl)[0], Move(t, n, pl);
    var s, d := p.src, p.dst;
    NextFits(t, pl, d);
    var next := Next(t, pl, d).place;
    NextFits(t, next, d);
    forall x | Stage(next, d) <= Stage(x, d)
      ensures Waiting(m, x, s, d) == Waiting(n, x, s, d) + if x == next then [p] else []
    {
      MoveWaiting(t, n, pl, x, s, d);
    }
    if Next(t, next, d).Forward? {
      PipeFrame(t, n, m, Next(t, next, d).place, s, d);
    }
  }

  lemma {:induction false} MovePipeHere(t: Clusters, n: Net, pl: Place)
    requires Valid(t) && Movable(t, n, pl)
    ensures var p := Lookup(n.at, pl)[0];
            var before, after := Pipe(t, n, pl, p.src, p.dst), Pipe(t, Move(t, n, pl), pl, p.src, p.dst);
            if Next(t, pl, p.dst).Deliver? then [p] + after == before else after == before
  {
    var p, m := Lookup(n.at, pl)[0], Move(t, n, pl);
    var s, d := p.src, p.dst;
    MoveWaiting(t, n, pl, pl, s, d);
    PipeStep(t, n, pl, s, d);
    PipeStep(t, m, pl, s, d);
    if Next(t, pl, d).Forward? {
      var next := Next(t, pl, d).place;
      MoveNext(t, n, pl);
      var x, w := Pipe(t, n, next, s, d), Waiting(m, pl, s, d);
      Assoc(x, [p], w);
    }
  }

  lemma {:induction false} MovePipe(t: Clusters, n: Net, pl: Place, o: Place)
    requires Valid(t) && Movable(t, n, pl)
    requires var p := Lookup(n.at, pl)[0]; Fits(t, o, p.dst) && Reaches(t, o, pl, p.dst)
    ensures var p := Lookup(n.at, pl)[0];
            var before, after := Pipe(t, n, o, p.src, p.dst), Pipe(t, Move(t, n, pl), o, p.src, p.dst);
            if Next(t, pl, p.dst).Deliver? then [p] + after == before else after == before
    decreases 8 - Stage(o, Lookup(n.at, pl)[0].dst)
  {
    if o == pl {
      MovePipeHere(t, n, pl);
    } else {
      var p := Lookup(n.at, pl)[0];
      var s, d := p.src, p.dst;
      NextFits(t, o, d);
      var next := Next(t, o, d).place;
      MovePipe(t, n, pl, next);
      ReachesForward(t, next, pl, d);
      MoveWaiting(t, n, pl, o, s, d);
      NextFits(t, pl, d);
      var w := Waiting(n, o, s, d);
      Assoc([p], Pipe(t, Move(t, n, pl), next, s, d), w);
    }
  }

  lemma {:induction false} MoveKeepsPlaced(t: Clusters, n: Net, pl: Place)
    requires Valid(t) && Placed(t, n) && Movable(t, n, pl)
    ensures Placed(t, Move(t, n, pl))
  {
    var q, m := Lookup(n.at, pl), Move(t, n, pl);
    var p := q[0];
    assert PlacedAt(t, pl, p);
    ReachesForward(t, Origin(t, p.src, p.dst), pl, p.dst);
    forall x, y | y in Lookup(m.at, x)
      ensures PlacedAt(t, x, y)
    {
      assert y == p || y in Lookup(n.at, x);
    }
  }

  lemma {:induction false} MoveKeepsFifo(t: Clusters, n: Net, pl: Place)
    requires Valid(t) && Fifo(t, n) && Movable(t, n, pl)
    ensures Fifo(t, Move(t, n, pl))
  {
    var p, m := Lookup(n.at, pl)[0], Move(t, n, pl);
    assert PlacedAt(t, pl, p);
    MoveKeepsPlaced(t, n, pl);
    MovePipe(t, n, pl, Origin(t, p.src, p.dst));
    forall s, d | Pair(t, s, d)
      ensures PairFifo(t, m, s, d)
    {
      assert PairFifo(t, n, s, d);
      if (s, d) != (p.src, p.dst) {
        forall x
          ensures Waiting(n, x, s, d) == Waiting(m, x, s, d)
        {
          MoveWaiting(t, n, pl, x, s, d);
        }
        PipeFrame(t, n, m, Origin(t, s, d), s, d);
      } else if Next(t, pl, d).Deliver? {
        Assoc(Got(n, s, d), [p], InTransit(t, m, s, d));
      }
    }
  }
}
