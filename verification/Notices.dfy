/**
  When exactly a filter is a putter of an in-port.  A filter is struck from the putters of its
  targets by its own notices and by nothing else, so at the end no in-port has a putter left, and
  every reader sees that its upstream filters have gone.
*/
module Notices {
  import opened Topology
  import opened Network
  import opened Runtime
  import opened Termination
  import opened Progress
  import P = Putters

  /** g has told the in-port, at one of its positions among the targets, that it will write no more. */
  predicate HasTold(c: Config, st: State, g: int, ip: InPort) {
    g in c.outs && exists k :: 0 <= k < |c.outs[g]| && c.outs[g][k] == ip && ToldSoFar(LifeOf(st, g), k)
  }

  predicate ToldSoFar(l: Life, k: nat) {
    l.Finished? || (l.Retiring? && k < l.told)
  }

  /** On one process telling is striking; elsewhere the notice is sent, and strikes when it is delivered. */
  predicate LocalExact(c: Config, st: State, g: int, ip: InPort) {
    g in Putters(st.store, ip) <==> !HasTold(c, st, g, ip)
  }

  predicate RemoteExact(c: Config, st: State, g: int, ip: InPort, s: int, d: int) {
    && (P.HasNotice(Sent(st.net, s, d), g, ip) <==> HasTold(c, st, g, ip))
    && (g in Putters(st.store, ip) <==> !P.HasNotice(Got(st.net, s, d), g, ip))
  }

  predicate PutterExact(c: Config, st: State, g: int, ip: InPort) {
    if P.Feeds(c, g, ip) then
      if IsLocal(c, g, ip) then LocalExact(c, st, g, ip)
      else RemoteExact(c, st, g, ip, c.rankOf[g], c.rankOf[ip.filter])
    else g !in Putters(st.store, ip)
  }

  lemma {:induction false} InitExact(c: Config, g: int, ip: InPort)
    requires ValidConfig(c)
    ensures PutterExact(c, Init(c), g, ip)
  {
    if g in Feeders(c, ip) {
      FeederIsFed(c, g, ip);
    }
    assert g in Feeders(c, ip) <==> P.Feeds(c, g, ip);
  }

  lemma {:induction false} FeederIsFed(c: Config, g: int, ip: InPort)
    requires g in Feeders(c, ip)
    ensures ip in Fed(c)
  {
  }

  // ---------------------------------------------------------------------------
  // Steps
  // ---------------------------------------------------------------------------

  /** Nothing changes that the invariant reads. */
  lemma {:induction false} ExactFrame(c: Config, st: State, su: State, g: int, ip: InPort)
    requires PutterExact(c, st, g, ip)
    requires Putters(su.store, ip) == Putters(st.store, ip)
    requires HasTold(c, su, g, ip) == HasTold(c, st, g, ip)
    requires P.Feeds(c, g, ip) ==>
               var s, d := c.rankOf[g], c.rankOf[ip.filter];
               && P.HasNotice(Sent(su.net, s, d), g, ip) == P.HasNotice(Sent(st.net, s, d), g, ip)
               && P.HasNotice(Got(su.net, s, d), g, ip) == P.HasNotice(Got(st.net, s, d), g, ip)
    ensures PutterExact(c, su, g, ip)
  {
  }

  lemma {:induction false} NoticeAppended(q: seq<Packet>, p: Packet, g: int, ip: InPort)
    ensures P.HasNotice(q + [p], g, ip) <==> P.HasNotice(q, g, ip) || P.IsNoticeOf(p, g, ip)
  {
    var r := q + [p];
    if P.HasNotice(q, g, ip) {
      var i :| 0 <= i < |q| && P.IsNoticeOf(q[i], g, ip);
      assert P.IsNoticeOf(r[i], g, ip);
    }
    if P.IsNoticeOf(p, g, ip) {
      assert P.IsNoticeOf(r[|q|], g, ip);
    }
  }

  /** A packet that is no notice is sent. */
  lemma {:induction false} OtherSent(c: Config, st: State, su: State, pl: Place, p: Packet, g: int, ip: InPort)
    requires PutterExact(c, st, g, ip) && su.net == Put(st.net, pl, p) && !P.IsNoticeOf(p, g, ip)
    requires Putters(su.store, ip) == Putters(st.store, ip)
    requires HasTold(c, su, g, ip) == HasTold(c, st, g, ip)
    ensures PutterExact(c, su, g, ip)
  {
    if P.Feeds(c, g, ip) {
      var s, d := c.rankOf[g], c.rankOf[ip.filter];
      NoticeAppended(Sent(st.net, s, d), p, g, ip);
      P.PutSent(st.net, pl, p, s, d);
      assert Sent(st.net, s, d) + [] == Sent(st.net, s, d);
    }
    ExactFrame(c, st, su, g, ip);
  }

  lemma {:induction false} WriteKeepsExact(c: Config, st: State, x: int, k: nat, body: Bytes, g: int, ip: InPort)
    requires ValidConfig(c) && CanWrite(c, st, x, k, body) && PutterExact(c, st, g, ip)
    ensures PutterExact(c, Write(c, st, x, k, body), g, ip)
  {
    var to, su := c.outs[x][k], Write(c, st, x, k, body);
    if IsLocal(c, x, to) {
      ExactFrame(c, st, su, g, ip);
    } else {
      var p := PacketTo(c, x, to, Buffer(body));
      OtherSent(c, st, su, Origin(c.clusters, p.src, p.dst), p, g, ip);
    }
  }

  lemma {:induction false} AnnounceKeepsExact(c: Config, st: State, r: int, g: int, ip: InPort)
    requires ValidConfig(c) && CanAnnounce(c, st, r) && PutterExact(c, st, g, ip)
    ensures PutterExact(c, Announce(c, st, r), g, ip)
  {
    var d, su := LoopOf(st, r).next, Announce(c, st, r);
    if IsRank(c.clusters, d) && d != r {
      OtherSent(c, st, su, DoneEntry(c, r, d), DonePacket(c, r, d), g, ip);
    } else {
      ExactFrame(c, st, su, g, ip);
    }
  }

  /** Telling one more target. */
  lemma {:induction false} RetireTells(c: Config, st: State, x: int, g: int, ip: InPort)
    requires ValidConfig(c) && CanRetire(c, st, x)
    ensures var to := c.outs[x][LifeOf(st, x).told];
            HasTold(c, Retire(c, st, x), g, ip) <==> HasTold(c, st, g, ip) || (g == x && ip == to)
  {
    var su, k := Retire(c, st, x), LifeOf(st, x).told;
    if g == x && ip == c.outs[x][k] {
      assert ToldSoFar(LifeOf(su, x), k);
    } else if HasTold(c, st, g, ip) {
      var j :| 0 <= j < |c.outs[g]| && c.outs[g][j] == ip && ToldSoFar(LifeOf(st, g), j);
      assert ToldSoFar(LifeOf(su, g), j);
    } else if HasTold(c, su, g, ip) {
      var j :| 0 <= j < |c.outs[g]| && c.outs[g][j] == ip && ToldSoFar(LifeOf(su, g), j);
      assert ToldSoFar(LifeOf(st, g), j);
    }
  }

  lemma {:induction false} LocalRetireExact(c: Config, st: State, x: int, g: int, ip: InPort)
    requires ValidConfig(c) && CanRetire(c, st, x) && PutterExact(c, st, g, ip)
    requires IsLocal(c, x, c.outs[x][LifeOf(st, x).told])
    ensures PutterExact(c, Retire(c, st, x), g, ip)
  {
    RetireTells(c, st, x, g, ip);
  }

  lemma {:induction false} RemoteRetireExact(c: Config, st: State, x: int, g: int, ip: InPort)
    requires ValidConfig(c) && CanRetire(c, st, x) && PutterExact(c, st, g, ip)
    requires !IsLocal(c, x, c.outs[x][LifeOf(st, x).told])
    ensures PutterExact(c, Retire(c, st, x), g, ip)
  {
    var to, su := c.outs[x][LifeOf(st, x).told], Retire(c, st, x);
    var p := PacketTo(c, x, to, RemovePutter);
    RetireTells(c, st, x, g, ip);
    if P.IsNoticeOf(p, g, ip) {
      NoticeSent(c, st, su, Origin(c.clusters, p.src, p.dst), p, g, ip);
    } else {
      OtherSent(c, st, su, Origin(c.clusters, p.src, p.dst), p, g, ip);
    }
  }

  lemma {:induction false} NoticeSent(c: Config, st: State, su: State, pl: Place, p: Packet, g: int, ip: InPort)
    requires PutterExact(c, st, g, ip) && su.net == Put(st.net, pl, p) && P.IsNoticeOf(p, g, ip) && P.Genuine(c, p)
    requires p.src != p.dst && Putters(su.store, ip) == Putters(st.store, ip) && HasTold(c, su, g, ip)
    ensures PutterExact(c, su, g, ip)
  {
    var s, d := c.rankOf[g], c.rankOf[ip.filter];
    NoticeAppended(Sent(st.net, s, d), p, g, ip);
    P.PutSent(st.net, pl, p, s, d);
  }

  lemma {:induction false} HopKeepsPutters(c: Config, st: State, pl: Place, g: int, ip: InPort)
    requires ValidConfig(c) && CanHop(c, st, pl) && P.Genuine(c, Lookup(st.net.at, pl)[0]) && PutterExact(c, st, g, ip)
    ensures PutterExact(c, Hop(c, st, pl), g, ip)
  {
    var p, su := Lookup(st.net.at, pl)[0], Hop(c, st, pl);
    if Next(c.clusters, pl, p.dst).Deliver? {
      P.DeliverStore(st.store, p, ip, g);
      if P.Feeds(c, g, ip) {
        P.MoveGot(c.clusters, st.net, pl, c.rankOf[g], c.rankOf[ip.filter]);
        DeliverExact(c, st, su, p, g, ip);
      }
    } else {
      if P.Feeds(c, g, ip) {
        P.MoveGot(c.clusters, st.net, pl, c.rankOf[g], c.rankOf[ip.filter]);
        SameSeq(Got(st.net, c.rankOf[g], c.rankOf[ip.filter]));
      }
      ExactFrame(c, st, su, g, ip);
    }
  }

  lemma {:induction false} SameSeq(q: seq<Packet>)
    ensures q + [] == q
  {
  }

  lemma {:induction false} DeliverExact(c: Config, st: State, su: State, p: Packet, g: int, ip: InPort)
    requires P.Feeds(c, g, ip) && PutterExact(c, st, g, ip) && P.Genuine(c, p) && p.src != p.dst && su.life == st.life
    requires g in Putters(su.store, ip) <==> g in Putters(st.store, ip) && !P.IsNoticeOf(p, g, ip)
    requires var s, d := c.rankOf[g], c.rankOf[ip.filter];
             && Sent(su.net, s, d) == Sent(st.net, s, d)
             && Got(su.net, s, d) == Got(st.net, s, d) + if (p.src, p.dst) == (s, d) then [p] else []
    ensures PutterExact(c, su, g, ip)
  {
    var s, d := c.rankOf[g], c.rankOf[ip.filter];
    NoticeAppended(Got(st.net, s, d), p, g, ip);
    SameSeq(Got(st.net, s, d));
    assert P.IsNoticeOf(p, g, ip) ==> (p.src, p.dst) == (s, d);
  }

  /** The same has been told before and after. */
  predicate TellsSame(c: Config, st: State, su: State, g: int) {
    g in c.outs ==> forall k :: 0 <= k < |c.outs[g]| ==> ToldSoFar(LifeOf(su, g), k) == ToldSoFar(LifeOf(st, g), k)
  }

  lemma {:induction false} SameTold(c: Config, st: State, su: State, g: int, ip: InPort)
    requires TellsSame(c, st, su, g)
    ensures HasTold(c, su, g, ip) == HasTold(c, st, g, ip)
  {
  }

  lemma {:induction false} FinishTells(c: Config, st: State, x: int, g: int, ip: InPort)
    requires CanFinish(c, st, x)
    ensures HasTold(c, Finish(st, x), g, ip) == HasTold(c, st, g, ip)
  {
    SameTold(c, st, Finish(st, x), g, ip);
  }

  lemma {:induction false} StopTells(c: Config, st: State, x: int, g: int, ip: InPort)
    requires CanStop(c, st, x)
    ensures HasTold(c, Stop(st, x), g, ip) == HasTold(c, st, g, ip)
  {
    SameTold(c, st, Stop(st, x), g, ip);
  }

  lemma {:induction false} StepKeepsExact(c: Config, st: State, a: Step, g: int, ip: InPort)
    requires ValidConfig(c) && Enabled(c, st, a) && P.AllGenuine(c, st.net) && PutterExact(c, st, g, ip)
    ensures PutterExact(c, Apply(c, st, a), g, ip)
  {
    match a
    case DoWrite(x, k, body) => WriteKeepsExact(c, st, x, k, body, g, ip);
    case DoStop(x) => StopTells(c, st, x, g, ip); ExactFrame(c, st, Stop(st, x), g, ip);
    case DoRetire(x) =>
      if IsLocal(c, x, c.outs[x][LifeOf(st, x).told]) {
        LocalRetireExact(c, st, x, g, ip);
      } else {
        RemoteRetireExact(c, st, x, g, ip);
      }
    case DoFinish(x) => FinishTells(c, st, x, g, ip); ExactFrame(c, st, Finish(st, x), g, ip);
    case DoRead(from) => ExactFrame(c, st, Read(c, st, from), g, ip);
    case DoBegin(r) => ExactFrame(c, st, Begin(c, st, r), g, ip);
    case DoAnnounce(r) => AnnounceKeepsExact(c, st, r, g, ip);
    case DoLeave(r) => ExactFrame(c, st, Leave(st, r), g, ip);
    case DoClose => ExactFrame(c, st, Close(st), g, ip);
    case DoHop(pl) => HopKeepsPutters(c, st, pl, g, ip);
  }

  lemma {:induction false} RunKeepsExact(c: Config, from: State, steps: seq<Step>, to: State, g: int, ip: InPort)
    requires ValidConfig(c) && Run(c, from, steps, to) && P.AllGenuine(c, from.net) && PutterExact(c, from, g, ip)
    ensures PutterExact(c, to, g, ip)
    decreases |steps|
  {
    if steps != [] {
      StepKeepsExact(c, from, steps[0], g, ip);
      P.StepKeepsGenuine(c, from, steps[0]);
      RunKeepsExact(c, Apply(c, from, steps[0]), steps[1..], to, g, ip);
    }
  }

  /**
    In every run, g is a putter of an in-port exactly if the port is one of its targets and g's
    notice has not come there: for a filter of the same process, if g has not told the port; for
    any other, if no notice has been received, and one has been sent exactly if g has told the port.
  */
  lemma {:induction false} PuttersAreExact(c: Config, steps: seq<Step>, st: State, g: int, ip: InPort)
    requires ValidConfig(c) && Run(c, Init(c), steps, st)
    ensures PutterExact(c, st, g, ip)
  {
    InitExact(c, g, ip);
    RunKeepsExact(c, Init(c), steps, st, g, ip);
  }

  /** A filter that has finished has told all its targets. */
  lemma {:induction false} FinishedHasTold(c: Config, st: State, g: int, ip: InPort)
    requires P.Feeds(c, g, ip) && LifeOf(st, g) == Finished
    ensures HasTold(c, st, g, ip)
  {
    var k :| 0 <= k < |c.outs[g]| && c.outs[g][k] == ip;
    assert ToldSoFar(LifeOf(st, g), k);
  }

  /** Once a filter has finished and all it sent to a process has arrived, it is a putter of no in-port there. */
  lemma {:induction false} FinishedIsNoPutter(c: Config, steps: seq<Step>, st: State, g: int, ip: InPort)
    requires ValidConfig(c) && Run(c, Init(c), steps, st) && g in c.rankOf && ip.filter in c.rankOf
    requires LifeOf(st, g) == Finished && Got(st.net, c.rankOf[g], c.rankOf[ip.filter]) == Sent(st.net, c.rankOf[g], c.rankOf[ip.filter])
    ensures g !in Putters(st.store, ip)
  {
    PuttersAreExact(c, steps, st, g, ip);
    if P.Feeds(c, g, ip) {
      FinishedHasTold(c, st, g, ip);
    }
  }

  lemma {:induction false} AllFinishedAtEnd(c: Config, steps: seq<Step>, st: State, g: int)
    requires ValidConfig(c) && Run(c, Init(c), steps, st) && Over(c, st) && g in c.rankOf
    ensures LifeOf(st, g) == Finished
  {
    InitInv(c);
    RunKeepsInv(c, Init(c), steps, st);
    RunKeepsClosed(c, Init(c), steps, st);
    HeadIsProcess(c.clusters, 0);
    assert LoopOf(st, 0) == Left;
    if LifeOf(st, g) != Finished {
      LiveMeansLooping(c, st, g);
    }
  }

  /** When all is over, no in-port has a putter left: no reader can wait for one any more. */
  lemma {:induction false} NoPuttersAtEnd(c: Config, steps: seq<Step>, st: State, ip: InPort)
    requires ValidConfig(c) && Run(c, Init(c), steps, st) && Over(c, st)
    ensures Putters(st.store, ip) == {}
  {
    forall g
      ensures g !in Putters(st.store, ip)
    {
      PuttersAreExact(c, steps, st, g, ip);
      if P.Feeds(c, g, ip) {
        AllFinishedAtEnd(c, steps, st, g);
        FinishedHasTold(c, st, g, ip);
        if !IsLocal(c, g, ip) {
          assert Pair(c.clusters, c.rankOf[g], c.rankOf[ip.filter]);
        }
      }
    }
  }
}
