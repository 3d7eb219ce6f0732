/**
  In-port queues and their putters.  A filter is struck from the putters of an in-port only after
  everything it wrote to that port has arrived, in the order it was written; so a queue without
  putters has its final contents.
*/
module Putters {
  import opened Topology
  import opened Network
  import opened Upstream
  import opened Runtime
  import T = Termination

  /** g writes to in-port ip. */
  predicate Feeds(c: Config, g: int, ip: InPort) {
    g in c.outs && g in c.rankOf && ip in c.outs[g] && ip.filter in c.rankOf
  }

  predicate IsBufferOf(p: Packet, g: int, ip: InPort) {
    p.kind.Buffer? && p.fromFilter == g && InPort(p.toFilter, p.toPort) == ip
  }

  predicate IsNoticeOf(p: Packet, g: int, ip: InPort) {
    p.kind.RemovePutter? && p.fromFilter == g && InPort(p.toFilter, p.toPort) == ip
  }

  /** The bodies that g sends to ip, in order. */
  function Bodies(q: seq<Packet>, g: int, ip: InPort): seq<Bytes> {
    if q == [] then []
    else Bodies(q[..|q| - 1], g, ip) + if IsBufferOf(q[|q| - 1], g, ip) then [q[|q| - 1].kind.body] else []
  }

  /** The bodies in an in-port queue that came from g, in order. */
  function BodiesFrom(q: seq<Arrival>, g: int): seq<Bytes> {
    if q == [] then []
    else BodiesFrom(q[..|q| - 1], g) + if q[|q| - 1].from == g then [q[|q| - 1].body] else []
  }

  lemma {:induction false} BodiesAppend(q: seq<Packet>, p: Packet, g: int, ip: InPort)
    ensures Bodies(q + [p], g, ip) == Bodies(q, g, ip) + if IsBufferOf(p, g, ip) then [p.kind.body] else []
  {
    assert (q + [p])[..|q|] == q;
  }

  lemma {:induction false} BodiesFromAppend(q: seq<Arrival>, a: Arrival, g: int)
    ensures BodiesFrom(q + [a], g) == BodiesFrom(q, g) + if a.from == g then [a.body] else []
  {
    assert (q + [a])[..|q|] == q;
  }

  lemma {:induction false} NoMoreBodies(q: seq<Packet>, r: seq<Packet>, g: int, ip: InPort)
    requires forall i :: 0 <= i < |r| ==> !IsBufferOf(r[i], g, ip)
    ensures Bodies(q + r, g, ip) == Bodies(q, g, ip)
  {
    if r == [] {
      assert q + r == q;
    } else {
      var k := |r| - 1;
      assert (q + r)[..|q + r| - 1] == q + r[..k];
      NoMoreBodies(q, r[..k], g, ip);
    }
  }

  // ---------------------------------------------------------------------------
  // The invariant
  // ---------------------------------------------------------------------------

  /** Buffers and notices come from a filter that feeds the in-port they go to. */
  predicate Genuine(c: Config, p: Packet) {
    !p.kind.FiltersDone? ==>
      var ip := InPort(p.toFilter, p.toPort);
      && Feeds(c, p.fromFilter, ip)
      && c.rankOf[p.fromFilter] == p.src
      && c.rankOf[ip.filter] == p.dst
  }

  ghost predicate AllGenuine(c: Config, n: Net) {
    forall pl, p :: p in Lookup(n.at, pl) ==> Genuine(c, p)
  }

  /** After g's notice for ip there is no buffer of g for ip. */
  predicate NoticeLast(q: seq<Packet>, g: int, ip: InPort) {
    forall i, j :: 0 <= i < j < |q| && IsNoticeOf(q[i], g, ip) ==> !IsBufferOf(q[j], g, ip)
  }

  predicate HasNotice(q: seq<Packet>, g: int, ip: InPort) {
    exists i :: 0 <= i < |q| && IsNoticeOf(q[i], g, ip)
  }

  /**
    The state of one feed over the network: what was sent is what was written; what arrived is
    what was received; the notice comes last; and only a received notice removes the putter.
  */
  predicate FeedState(sent: seq<Packet>, got: seq<Packet>, arrived: seq<Arrival>, written: seq<Bytes>,
                      working: bool, putter: bool, g: int, ip: InPort)
  {
    && Bodies(sent, g, ip) == written
    && BodiesFrom(arrived, g) == Bodies(got, g, ip)
    && NoticeLast(sent, g, ip)
    && (working ==> !HasNotice(sent, g, ip))
    && (!putter ==> HasNotice(got, g, ip))
  }

  predicate RemoteFeed(st: State, g: int, ip: InPort, s: int, d: int) {
    FeedState(Sent(st.net, s, d), Got(st.net, s, d), Lookup(st.store.arrived, ip),
              Lookup(st.store.written, (g, ip)), LifeOf(st, g) == Working, g in Putters(st.store, ip), g, ip)
  }

  predicate LocalFeed(st: State, g: int, ip: InPort) {
    && BodiesFrom(Lookup(st.store.arrived, ip), g) == Lookup(st.store.written, (g, ip))
    && (g !in Putters(st.store, ip) ==> LifeOf(st, g) != Working)
  }

  predicate FeedOk(c: Config, st: State, g: int, ip: InPort) {
    Feeds(c, g, ip) ==>
      if IsLocal(c, g, ip) then LocalFeed(st, g, ip)
      else RemoteFeed(st, g, ip, c.rankOf[g], c.rankOf[ip.filter])
  }

  /** What waits in a queue is the newest part of what arrived, and came from feeders. */
  predicate QueueOk(c: Config, st: State, ip: InPort) {
    && IsSuffix(Lookup(st.store.inbox, ip), Lookup(st.store.arrived, ip))
    && forall i :: 0 <= i < |Lookup(st.store.arrived, ip)| ==> Feeds(c, Lookup(st.store.arrived, ip)[i].from, ip)
  }

  ghost predicate FeedInv(c: Config, st: State) {
    && AllGenuine(c, st.net)
    && (forall g, ip :: FeedOk(c, st, g, ip))
    && (forall ip :: QueueOk(c, st, ip))
  }

  lemma {:induction false} InitFeedInv(c: Config)
    requires ValidConfig(c)
    ensures FeedInv(c, Init(c))
  {
    forall g, ip
      ensures FeedOk(c, Init(c), g, ip)
    {
      if Feeds(c, g, ip) {
        assert ip in Fed(c) && g in Feeders(c, ip);
        assert Putters(Init(c).store, ip) == Feeders(c, ip);
      }
    }
  }

  // ---------------------------------------------------------------------------
  // Steps
  // ---------------------------------------------------------------------------

  lemma {:induction false} SendGenuine(c: Config, n: Net, g: int, ip: InPort, kind: Kind)
    requires ValidConfig(c) && AllGenuine(c, n) && Feeds(c, g, ip) && !kind.FiltersDone?
    ensures AllGenuine(c, Send(c, n, g, ip, kind))
    ensures Genuine(c, PacketTo(c, g, ip, kind))
  {
    var p, m := PacketTo(c, g, ip, kind), Send(c, n, g, ip, kind);
    forall pl, x | x in Lookup(m.at, pl)
      ensures Genuine(c, x)
    {
      assert x == p || x in Lookup(n.at, pl);
    }
  }

  lemma {:induction false} MoveGenuine(c: Config, n: Net, pl: Place)
    requires Valid(c.clusters) && AllGenuine(c, n) && Movable(c.clusters, n, pl)
    ensures AllGenuine(c, Move(c.clusters, n, pl))
  {
    var m := Move(c.clusters, n, pl);
    forall x, p | p in Lookup(m.at, x)
      ensures Genuine(c, p)
    {
      assert p == Lookup(n.at, pl)[0] || p in Lookup(n.at, x);
    }
  }

  lemma {:induction false} AppendNotice(q: seq<Packet>, p: Packet, g: int, ip: InPort)
    requires NoticeLast(q, g, ip) && (IsBufferOf(p, g, ip) ==> !HasNotice(q, g, ip))
    ensures NoticeLast(q + [p], g, ip)
    ensures HasNotice(q + [p], g, ip) <==> HasNotice(q, g, ip) || IsNoticeOf(p, g, ip)
  {
    var r := q + [p];
    if HasNotice(q, g, ip) {
      var i :| 0 <= i < |q| && IsNoticeOf(q[i], g, ip);
      assert IsNoticeOf(r[i], g, ip);
    }
    if IsNoticeOf(p, g, ip) {
      assert IsNoticeOf(r[|q|], g, ip);
    }
  }

  lemma {:induction false} FeedSends(sent: seq<Packet>, got: seq<Packet>, arrived: seq<Arrival>, written: seq<Bytes>,
                  working: bool, putter: bool, g: int, ip: InPort, p: Packet, still: bool)
    requires FeedState(sent, got, arrived, written, working, putter, g, ip)
    requires IsBufferOf(p, g, ip) ==> working
    requires still ==> working && !IsNoticeOf(p, g, ip)
    ensures FeedState(sent + [p], got, arrived, written + if IsBufferOf(p, g, ip) then [p.kind.body] else [],
                      still, putter, g, ip)
  {
    BodiesAppend(sent, p, g, ip);
    AppendNotice(sent, p, g, ip);
  }

  lemma {:induction false} FeedReceives(sent: seq<Packet>, got: seq<Packet>, arrived: seq<Arrival>, now: seq<Arrival>,
                     written: seq<Bytes>, working: bool, putter: bool, g: int, ip: InPort, p: Packet)
    requires FeedState(sent, got, arrived, written, working, putter, g, ip)
    requires BodiesFrom(now, g) == BodiesFrom(arrived, g) + if IsBufferOf(p, g, ip) then [p.kind.body] else []
    ensures FeedState(sent, got + [p], now, written, working, putter && !IsNoticeOf(p, g, ip), g, ip)
  {
    BodiesAppend(got, p, g, ip);
    GotNotice(got, p, g, ip);
  }

  lemma {:induction false} GotNotice(got: seq<Packet>, p: Packet, g: int, ip: InPort)
    ensures HasNotice(got, g, ip) || IsNoticeOf(p, g, ip) ==> HasNotice(got + [p], g, ip)
  {
    if HasNotice(got, g, ip) {
      var i :| 0 <= i < |got| && IsNoticeOf(got[i], g, ip);
      assert IsNoticeOf((got + [p])[i], g, ip);
    } else if IsNoticeOf(p, g, ip) {
      assert IsNoticeOf((got + [p])[|got|], g, ip);
    }
  }

  lemma {:induction false} PutSent(n: Net, pl: Place, p: Packet, s: int, d: int)
    ensures Sent(Put(n, pl, p), s, d) == Sent(n, s, d) + if (p.src, p.dst) == (s, d) then [p] else []
    ensures Got(Put(n, pl, p), s, d) == Got(n, s, d)
  {
  }

  /** A packet of any filter is sent; x's feed of ip over the network keeps its state. */
  lemma {:induction false} SendKeepsFeed(c: Config, st: State, su: State, pl: Place, p: Packet, x: int, ip: InPort)
    requires Feeds(c, x, ip) && !IsLocal(c, x, ip) && Genuine(c, p)
    requires RemoteFeed(st, x, ip, c.rankOf[x], c.rankOf[ip.filter])
    requires su.net == Put(st.net, pl, p)
    requires Lookup(su.store.arrived, ip) == Lookup(st.store.arrived, ip)
    requires Putters(su.store, ip) == Putters(st.store, ip)
    requires Lookup(su.store.written, (x, ip))
          == Lookup(st.store.written, (x, ip)) + if IsBufferOf(p, x, ip) then [p.kind.body] else []
    requires IsBufferOf(p, x, ip) ==> LifeOf(st, x) == Working
    requires LifeOf(su, x) == Working ==> LifeOf(st, x) == Working && !IsNoticeOf(p, x, ip)
    ensures RemoteFeed(su, x, ip, c.rankOf[x], c.rankOf[ip.filter])
  {
    var s, d := c.rankOf[x], c.rankOf[ip.filter];
    PutSent(st.net, pl, p, s, d);
    FeedSends(Sent(st.net, s, d), Got(st.net, s, d), Lookup(st.store.arrived, ip),
              Lookup(st.store.written, (x, ip)), LifeOf(st, x) == Working, x in Putters(st.store, ip), x, ip,
              p, LifeOf(su, x) == Working);
    assert IsBufferOf(p, x, ip) || IsNoticeOf(p, x, ip) ==> (p.src, p.dst) == (s, d);
  }

  /** What a write does to the feed of ip by x. */
  lemma {:induction false} WriteEffect(c: Config, st: State, g: int, k: nat, body: Bytes, x: int, ip: InPort)
    requires ValidConfig(c) && CanWrite(c, st, g, k, body)
    ensures var to, su := c.outs[g][k], Write(c, st, g, k, body);
            && Lookup(su.store.written, (x, ip))
            == (if x == g && ip == to then Lookup(st.store.written, (x, ip)) + [body]
                else Lookup(st.store.written, (x, ip)))
            && (IsLocal(c, g, to) ==>
                 su.net == st.net
                 && BodiesFrom(Lookup(su.store.arrived, ip), x)
                 == (if x == g && ip == to then BodiesFrom(Lookup(st.store.arrived, ip), x) + [body]
                     else BodiesFrom(Lookup(st.store.arrived, ip), x)))
            && (!IsLocal(c, g, to) ==> su.store.arrived == st.store.arrived)
  {
    WriteNoted(c, st, g, k, body, x, ip);
    BodiesFromAppend(Lookup(st.store.arrived, ip), Arrival(g, body, WriterAccount(c, g)), x);
  }

  lemma {:induction false} WriteNoted(c: Config, st: State, g: int, k: nat, body: Bytes, x: int, ip: InPort)
    requires ValidConfig(c) && CanWrite(c, st, g, k, body)
    ensures var to, su := c.outs[g][k], Write(c, st, g, k, body);
            && Lookup(su.store.written, (x, ip))
            == (if x == g && ip == to then Lookup(st.store.written, (x, ip)) + [body]
                else Lookup(st.store.written, (x, ip)))
            && Lookup(su.store.arrived, ip)
            == (if IsLocal(c, g, to) && ip == to then Lookup(st.store.arrived, ip) + [Arrival(g, body, WriterAccount(c, g))]
                else Lookup(st.store.arrived, ip))
            && (IsLocal(c, g, to) ==> su.net == st.net)
            && (!IsLocal(c, g, to) ==> su.store.arrived == st.store.arrived)
  {
  }

  lemma {:induction false} LocalWriteKeepsFeed(c: Config, st: State, g: int, k: nat, body: Bytes, x: int, ip: InPort)
    requires ValidConfig(c) && CanWrite(c, st, g, k, body) && FeedOk(c, st, x, ip) && Feeds(c, x, ip)
    requires IsLocal(c, g, c.outs[g][k])
    ensures FeedOk(c, Write(c, st, g, k, body), x, ip)
  {
    WriteEffect(c, st, g, k, body, x, ip);
  }

  /** A write to another rank is a packet sent, and x's part of the store changes with it. */
  lemma {:induction false} RemoteWriteEffect(c: Config, st: State, g: int, k: nat, body: Bytes, x: int, ip: InPort)
    requires ValidConfig(c) && CanWrite(c, st, g, k, body) && !IsLocal(c, g, c.outs[g][k])
    ensures var p, su := PacketTo(c, g, c.outs[g][k], Buffer(body)), Write(c, st, g, k, body);
            && Genuine(c, p)
            && su.net == Put(st.net, Origin(c.clusters, p.src, p.dst), p)
            && Lookup(su.store.arrived, ip) == Lookup(st.store.arrived, ip)
            && Putters(su.store, ip) == Putters(st.store, ip)
            && (IsBufferOf(p, x, ip) ==> LifeOf(st, x) == Working)
            && (LifeOf(su, x) == Working ==> LifeOf(st, x) == Working && !IsNoticeOf(p, x, ip))
            && Lookup(su.store.written, (x, ip))
            == Lookup(st.store.written, (x, ip)) + if IsBufferOf(p, x, ip) then [p.kind.body] else []
  {
  }

  lemma {:induction false} RemoteWriteKeepsFeed(c: Config, st: State, su: State, g: int, k: nat, body: Bytes, x: int, ip: InPort)
    requires ValidConfig(c) && CanWrite(c, st, g, k, body) && su == Write(c, st, g, k, body)
    requires Feeds(c, x, ip) && !IsLocal(c, g, c.outs[g][k]) && !IsLocal(c, x, ip)
    requires RemoteFeed(st, x, ip, c.rankOf[x], c.rankOf[ip.filter])
    ensures RemoteFeed(su, x, ip, c.rankOf[x], c.rankOf[ip.filter])
  {
    var p := PacketTo(c, g, c.outs[g][k], Buffer(body));
    RemoteWriteEffect(c, st, g, k, body, x, ip);
    SendKeepsFeed(c, st, su, Origin(c.clusters, p.src, p.dst), p, x, ip);
  }

  lemma {:induction false} WriteKeepsFeed(c: Config, st: State, g: int, k: nat, body: Bytes, x: int, ip: InPort)
    requires ValidConfig(c) && CanWrite(c, st, g, k, body) && FeedOk(c, st, x, ip) && Feeds(c, x, ip)
    ensures FeedOk(c, Write(c, st, g, k, body), x, ip)
  {
    if IsLocal(c, g, c.outs[g][k]) {
      LocalWriteKeepsFeed(c, st, g, k, body, x, ip);
    } else if IsLocal(c, x, ip) {
      WriteEffect(c, st, g, k, body, x, ip);
    } else {
      RemoteWriteKeepsFeed(c, st, Write(c, st, g, k, body), g, k, body, x, ip);
    }
  }

  lemma {:induction false} RetireKeepsFeed(c: Config, st: State, g: int, x: int, ip: InPort)
    requires ValidConfig(c) && CanRetire(c, st, g) && FeedOk(c, st, x, ip) && Feeds(c, x, ip)
    ensures FeedOk(c, Retire(c, st, g), x, ip)
  {
    var to := c.outs[g][LifeOf(st, g).told];
    if !IsLocal(c, g, to) && !IsLocal(c, x, ip) {
      var p := PacketTo(c, g, to, RemovePutter);
      SendKeepsFeed(c, st, Retire(c, st, g), Origin(c.clusters, p.src, p.dst), p, x, ip);
    }
  }

  lemma {:induction false} AnnounceKeepsFeed(c: Config, st: State, r: int, x: int, ip: InPort)
    requires ValidConfig(c) && CanAnnounce(c, st, r) && FeedOk(c, st, x, ip) && Feeds(c, x, ip)
    ensures FeedOk(c, Announce(c, st, r), x, ip)
  {
    var to := LoopOf(st, r).next;
    if !IsLocal(c, x, ip) && IsRank(c.clusters, to) && to != r {
      SendKeepsFeed(c, st, Announce(c, st, r), DoneEntry(c, r, to), DonePacket(c, r, to), x, ip);
    }
  }

  lemma {:induction false} MoveGot(t: Clusters, n: Net, pl: Place, s: int, d: int)
    requires Valid(t) && Movable(t, n, pl)
    ensures var p, m := Lookup(n.at, pl)[0], Move(t, n, pl);
            && Sent(m, s, d) == Sent(n, s, d)
            && Got(m, s, d) == Got(n, s, d)
               + if Next(t, pl, p.dst).Deliver? && (p.src, p.dst) == (s, d) then [p] else []
  {
  }

  lemma {:induction false} HopKeepsFeed(c: Config, st: State, pl: Place, x: int, ip: InPort)
    requires ValidConfig(c) && CanHop(c, st, pl) && FeedOk(c, st, x, ip) && Genuine(c, Lookup(st.net.at, pl)[0])
    requires Feeds(c, x, ip)
    ensures FeedOk(c, Hop(c, st, pl), x, ip)
  {
    var p, su := Lookup(st.net.at, pl)[0], Hop(c, st, pl);
    MoveGot(c.clusters, st.net, pl, c.rankOf[x], c.rankOf[ip.filter]);
    if Next(c.clusters, pl, p.dst).Deliver? {
      if IsLocal(c, x, ip) {
        DeliverKeepsLocal(c, st, su, p, x, ip);
      } else {
        DeliverKeepsRemote(c, st, su, p, x, ip);
      }
    }
  }

  function ArrivalOf(p: Packet): Arrival
    requires p.kind.Buffer?
  {
    Arrival(p.fromFilter, p.kind.body, if p.dst == -1 then Unmetered else RuntimeUse(p.dst))
  }

  /** What a delivery does to one in-port. */
  lemma {:induction false} DeliverStore(st: Store, p: Packet, ip: InPort, x: int)
    ensures var su := DeliverIn(st, p);
            && su.written == st.written
            && BodiesFrom(Lookup(su.arrived, ip), x)
            == BodiesFrom(Lookup(st.arrived, ip), x) + (if IsBufferOf(p, x, ip) then [p.kind.body] else [])
            && (x in Putters(su, ip) <==> x in Putters(st, ip) && !IsNoticeOf(p, x, ip))
  {
    if p.kind.Buffer? {
      BodiesFromAppend(Lookup(st.arrived, ip), ArrivalOf(p), x);
    }
  }

  /** Packets from another process are from another filter than a local feeder. */
  lemma {:induction false} DeliverKeepsLocal(c: Config, st: State, su: State, p: Packet, x: int, ip: InPort)
    requires Feeds(c, x, ip) && IsLocal(c, x, ip) && FeedOk(c, st, x, ip) && Genuine(c, p) && p.src != p.dst
    requires su.life == st.life && su.store == DeliverIn(st.store, p)
    ensures FeedOk(c, su, x, ip)
  {
    DeliverStore(st.store, p, ip, x);
  }

  lemma {:induction false} DeliverKeepsRemote(c: Config, st: State, su: State, p: Packet, x: int, ip: InPort)
    requires Feeds(c, x, ip) && !IsLocal(c, x, ip) && FeedOk(c, st, x, ip) && Genuine(c, p)
    requires su.life == st.life && su.store == DeliverIn(st.store, p)
    requires var s, d := c.rankOf[x], c.rankOf[ip.filter];
             && Sent(su.net, s, d) == Sent(st.net, s, d)
             && Got(su.net, s, d) == Got(st.net, s, d) + if (p.src, p.dst) == (s, d) then [p] else []
    ensures FeedOk(c, su, x, ip)
  {
    var s, d := c.rankOf[x], c.rankOf[ip.filter];
    DeliverStore(st.store, p, ip, x);
    assert IsBufferOf(p, x, ip) || IsNoticeOf(p, x, ip) ==> (p.src, p.dst) == (s, d);
    if (p.src, p.dst) == (s, d) {
      FeedReceives(Sent(st.net, s, d), Got(st.net, s, d), Lookup(st.store.arrived, ip),
                   Lookup(su.store.arrived, ip), Lookup(st.store.written, (x, ip)),
                   LifeOf(st, x) == Working, x in Putters(st.store, ip), x, ip, p);
    } else {
      assert Got(st.net, s, d) + [] == Got(st.net, s, d);
    }
  }

  // ---------------------------------------------------------------------------
  // Queues
  // ---------------------------------------------------------------------------

  lemma {:induction false} ArrivalKeepsQueue(c: Config, st: State, su: State, to: InPort, a: Arrival, ip: InPort)
    requires QueueOk(c, st, ip) && Feeds(c, a.from, to)
    requires su.store.inbox == Enqueue(st.store.inbox, to, a)
    requires su.store.arrived == Enqueue(st.store.arrived, to, a)
    ensures QueueOk(c, su, ip)
  {
    SuffixAppend(Lookup(st.store.inbox, ip), Lookup(st.store.arrived, ip), [a]);
  }

  lemma {:induction false} ReadKeepsQueue(c: Config, st: State, from: InPort, ip: InPort)
    requires CanRead(c, st, from) && QueueOk(c, st, ip)
    ensures QueueOk(c, Read(c, st, from), ip)
  {
  }

  lemma {:induction false} WriteKeepsQueue(c: Config, st: State, g: int, k: nat, body: Bytes, ip: InPort)
    requires ValidConfig(c) && CanWrite(c, st, g, k, body) && QueueOk(c, st, ip)
    ensures QueueOk(c, Write(c, st, g, k, body), ip)
  {
    var to := c.outs[g][k];
    if IsLocal(c, g, to) {
      ArrivalKeepsQueue(c, st, Write(c, st, g, k, body), to, Arrival(g, body, WriterAccount(c, g)), ip);
    }
  }

  lemma {:induction false} HopKeepsQueue(c: Config, st: State, pl: Place, ip: InPort)
    requires ValidConfig(c) && CanHop(c, st, pl) && QueueOk(c, st, ip) && Genuine(c, Lookup(st.net.at, pl)[0])
    ensures QueueOk(c, Hop(c, st, pl), ip)
  {
    var p := Lookup(st.net.at, pl)[0];
    if Next(c.clusters, pl, p.dst).Deliver? && p.kind.Buffer? {
      ArrivalKeepsQueue(c, st, Hop(c, st, pl), InPort(p.toFilter, p.toPort), ArrivalOf(p), ip);
    }
  }

  lemma {:induction false} StepKeepsQueue(c: Config, st: State, a: Step, ip: InPort)
    requires ValidConfig(c) && Enabled(c, st, a) && QueueOk(c, st, ip) && AllGenuine(c, st.net)
    ensures QueueOk(c, Apply(c, st, a), ip)
  {
    match a
    case DoWrite(g, k, body) => WriteKeepsQueue(c, st, g, k, body, ip);
    case DoRead(from) => ReadKeepsQueue(c, st, from, ip);
    case DoHop(pl) => HopKeepsQueue(c, st, pl, ip);
    case _ =>
  }

  // ---------------------------------------------------------------------------
  // Runs
  // ---------------------------------------------------------------------------

  lemma {:induction false} StepKeepsGenuine(c: Config, st: State, a: Step)
    requires ValidConfig(c) && Enabled(c, st, a) && AllGenuine(c, st.net)
    ensures AllGenuine(c, Apply(c, st, a).net)
  {
    match a
    case DoWrite(g, k, body) => SendGenuine(c, st.net, g, c.outs[g][k], Buffer(body));
    case DoRetire(g) => SendGenuine(c, st.net, g, c.outs[g][LifeOf(st, g).told], RemovePutter);
    case DoAnnounce(r) =>
      var su := Apply(c, st, a);
      forall pl, p | p in Lookup(su.net.at, pl)
        ensures Genuine(c, p)
      {
        assert p in Lookup(st.net.at, pl) || p.kind.FiltersDone?;
      }
    case DoHop(pl) => MoveGenuine(c, st.net, pl);
    case _ =>
  }

  lemma {:induction false} StepKeepsFeed(c: Config, st: State, a: Step, x: int, ip: InPort)
    requires ValidConfig(c) && Enabled(c, st, a) && FeedOk(c, st, x, ip) && AllGenuine(c, st.net)
    ensures FeedOk(c, Apply(c, st, a), x, ip)
  {
    if Feeds(c, x, ip) {
      FeederStep(c, st, a, x, ip);
    }
  }

  lemma {:induction false} FeederStep(c: Config, st: State, a: Step, x: int, ip: InPort)
    requires ValidConfig(c) && Enabled(c, st, a) && FeedOk(c, st, x, ip) && AllGenuine(c, st.net) && Feeds(c, x, ip)
    ensures FeedOk(c, Apply(c, st, a), x, ip)
  {
    match a
    case DoWrite(g, k, body) => WriteKeepsFeed(c, st, g, k, body, x, ip);
    case DoRetire(g) => RetireKeepsFeed(c, st, g, x, ip);
    case DoAnnounce(r) => AnnounceKeepsFeed(c, st, r, x, ip);
    case DoHop(pl) => HopKeepsFeed(c, st, pl, x, ip);
    case _ =>
  }

  lemma {:induction false} StepKeepsFeedInv(c: Config, st: State, a: Step)
    requires ValidConfig(c) && FeedInv(c, st) && Enabled(c, st, a)
    ensures FeedInv(c, Apply(c, st, a))
  {
    var su := Apply(c, st, a);
    StepKeepsGenuine(c, st, a);
    forall g, ip
      ensures FeedOk(c, su, g, ip)
    {
      assert FeedOk(c, st, g, ip);
      StepKeepsFeed(c, st, a, g, ip);
    }
    forall ip
      ensures QueueOk(c, su, ip)
    {
      assert QueueOk(c, st, ip);
      StepKeepsQueue(c, st, a, ip);
    }
  }

  lemma {:induction false} RunKeepsFeedInv(c: Config, from: State, steps: seq<Step>, to: State)
    requires ValidConfig(c) && FeedInv(c, from) && T.Inv(c, from) && Run(c, from, steps, to)
    ensures FeedInv(c, to) && T.Inv(c, to)
    decreases |steps|
  {
    if steps != [] {
      StepKeepsFeedInv(c, from, steps[0]);
      T.StepKeepsInv(c, from, steps[0]);
      RunKeepsFeedInv(c, Apply(c, from, steps[0]), steps[1..], to);
    }
  }

  /** Nothing of g for ip is under way once g is no putter of ip. */
  lemma {:induction false} NothingUnderWay(c: Config, st: State, g: int, ip: InPort)
    requires ValidConfig(c) && FeedInv(c, st) && T.Inv(c, st) && Feeds(c, g, ip)
    requires g !in Putters(st.store, ip)
    ensures BodiesFrom(Lookup(st.store.arrived, ip), g) == Lookup(st.store.written, (g, ip))
    ensures LifeOf(st, g) != Working
    ensures !IsLocal(c, g, ip) ==>
              var s, d := c.rankOf[g], c.rankOf[ip.filter];
              Pair(c.clusters, s, d)
              && forall p :: p in InTransit(c.clusters, st.net, s, d) ==> !IsBufferOf(p, g, ip)
  {
    assert FeedOk(c, st, g, ip);
    if !IsLocal(c, g, ip) {
      var s, d := c.rankOf[g], c.rankOf[ip.filter];
      assert Pair(c.clusters, s, d) && PairFifo(c.clusters, st.net, s, d);
      var got, transit := Got(st.net, s, d), InTransit(c.clusters, st.net, s, d);
      assert Sent(st.net, s, d) == got + transit;
      AfterNotice(got, transit, g, ip);
      NoMoreBodies(got, transit, g, ip);
    }
  }

  lemma {:induction false} AfterNotice(got: seq<Packet>, rest: seq<Packet>, g: int, ip: InPort)
    requires HasNotice(got, g, ip) && NoticeLast(got + rest, g, ip)
    ensures HasNotice(got + rest, g, ip)
    ensures forall j :: 0 <= j < |rest| ==> !IsBufferOf(rest[j], g, ip)
  {
    var all := got + rest;
    var i :| 0 <= i < |got| && IsNoticeOf(got[i], g, ip);
    assert IsNoticeOf(all[i], g, ip);
    forall j | 0 <= j < |rest|
      ensures !IsBufferOf(rest[j], g, ip)
    {
      assert all[|got| + j] == rest[j];
    }
  }

  /**
    In every run, once g is no longer a putter of an in-port it feeds, every buffer g ever wrote
    to the port has arrived in its queue, in g's write order; what has not been read still waits.
  */
  lemma {:induction false} PutterSafety(c: Config, steps: seq<Step>, st: State, g: int, ip: InPort)
    requires ValidConfig(c) && Run(c, Init(c), steps, st)
    requires Feeds(c, g, ip) && g !in Putters(st.store, ip)
    ensures BodiesFrom(Lookup(st.store.arrived, ip), g) == Lookup(st.store.written, (g, ip))
    ensures IsSuffix(Lookup(st.store.inbox, ip), Lookup(st.store.arrived, ip))
    ensures LifeOf(st, g) != Working
  {
    T.InitInv(c);
    InitFeedInv(c);
    RunKeepsFeedInv(c, Init(c), steps, st);
    NothingUnderWay(c, st, g, ip);
    assert QueueOk(c, st, ip);
  }

  lemma {:induction false} WriterIsPutter(c: Config, st: State, g: int, k: nat, body: Bytes, ip: InPort)
    requires ValidConfig(c) && FeedInv(c, st) && T.Inv(c, st) && CanWrite(c, st, g, k, body)
    requires Putters(st.store, ip) == {}
    ensures c.outs[g][k] != ip
  {
    if c.outs[g][k] == ip {
      NothingUnderWay(c, st, g, ip);
    }
  }

  lemma {:induction false} DelivererIsPutter(c: Config, st: State, pl: Place, ip: InPort)
    requires ValidConfig(c) && FeedInv(c, st) && T.Inv(c, st) && CanHop(c, st, pl)
    requires Putters(st.store, ip) == {}
    ensures var p := Lookup(st.net.at, pl)[0]; p.kind.Buffer? ==> InPort(p.toFilter, p.toPort) != ip
  {
    var t, p := c.clusters, Lookup(st.net.at, pl)[0];
    assert Genuine(c, p) && PlacedAt(t, pl, p);
    if p.kind.Buffer? && InPort(p.toFilter, p.toPort) == ip {
      NothingUnderWay(c, st, p.fromFilter, ip);
      WaitingInTransit(t, st.net, Origin(t, p.src, p.dst), pl);
      assert IsBufferOf(p, p.fromFilter, ip);
    }
  }

  /** No step adds to a queue that has no putters. */
  lemma {:induction false} OnlyPuttersAdd(c: Config, st: State, a: Step, ip: InPort)
    requires ValidConfig(c) && FeedInv(c, st) && T.Inv(c, st) && Enabled(c, st, a)
    requires Putters(st.store, ip) == {}
    ensures Lookup(Apply(c, st, a).store.arrived, ip) == Lookup(st.store.arrived, ip)
    ensures Putters(Apply(c, st, a).store, ip) == {}
  {
    match a
    case DoWrite(g, k, body) => WriterIsPutter(c, st, g, k, body, ip);
    case DoHop(pl) => DelivererIsPutter(c, st, pl, ip);
    case _ =>
  }

  lemma {:induction false} WaitingInTransit(t: Clusters, n: Net, o: Place, pl: Place)
    requires Valid(t) && Lookup(n.at, pl) != []
    requires var p := Lookup(n.at, pl)[0]; IsRank(t, p.dst) && Fits(t, o, p.dst) && Reaches(t, o, pl, p.dst)
    ensures var p := Lookup(n.at, pl)[0]; p in Pipe(t, n, o, p.src, p.dst)
    decreases 8 - Stage(o, Lookup(n.at, pl)[0].dst)
  {
    var p := Lookup(n.at, pl)[0];
    NextFits(t, o, p.dst);
    PipeStep(t, n, o, p.src, p.dst);
    if o != pl {
      WaitingInTransit(t, n, Next(t, o, p.dst).place, pl);
    }
  }

  /** A queue without putters has its final contents, however the run goes on. */
  lemma {:induction false} NoPuttersMeansFinalFrom(c: Config, from: State, steps: seq<Step>, to: State, ip: InPort)
    requires ValidConfig(c) && FeedInv(c, from) && T.Inv(c, from) && Run(c, from, steps, to)
    requires Putters(from.store, ip) == {}
    ensures Lookup(to.store.arrived, ip) == Lookup(from.store.arrived, ip)
    decreases |steps|
  {
    if steps != [] {
      OnlyPuttersAdd(c, from, steps[0], ip);
      StepKeepsFeedInv(c, from, steps[0]);
      T.StepKeepsInv(c, from, steps[0]);
      NoPuttersMeansFinalFrom(c, Apply(c, from, steps[0]), steps[1..], to, ip);
    }
  }

  lemma {:induction false} NoPuttersMeansFinal(c: Config, steps: seq<Step>, st: State, more: seq<Step>, su: State, ip: InPort)
    requires ValidConfig(c) && Run(c, Init(c), steps, st) && Run(c, st, more, su)
    requires Putters(st.store, ip) == {}
    ensures Lookup(su.store.arrived, ip) == Lookup(st.store.arrived, ip)
    ensures forall g :: Feeds(c, g, ip) ==>
              BodiesFrom(Lookup(st.store.arrived, ip), g) == Lookup(su.store.written, (g, ip))
  {
    T.InitInv(c);
    InitFeedInv(c);
    RunKeepsFeedInv(c, Init(c), steps, st);
    NoPuttersMeansFinalFrom(c, st, more, su, ip);
    RunKeepsFeedInv(c, st, more, su);
    NoPuttersStays(c, st, more, su, ip);
    forall g | Feeds(c, g, ip)
      ensures BodiesFrom(Lookup(st.store.arrived, ip), g) == Lookup(su.store.written, (g, ip))
    {
      NothingUnderWay(c, su, g, ip);
    }
  }

  lemma {:induction false} NoPuttersStays(c: Config, from: State, steps: seq<Step>, to: State, ip: InPort)
    requires ValidConfig(c) && FeedInv(c, from) && T.Inv(c, from) && Run(c, from, steps, to)
    requires Putters(from.store, ip) == {}
    ensures Putters(to.store, ip) == {}
    decreases |steps|
  {
    if steps != [] {
      OnlyPuttersAdd(c, from, steps[0], ip);
      StepKeepsFeedInv(c, from, steps[0]);
      T.StepKeepsInv(c, from, steps[0]);
      NoPuttersStays(c, Apply(c, from, steps[0]), steps[1..], to, ip);
    }
  }
}
