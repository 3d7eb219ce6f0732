/**
  Reading until all upstream filters have gone.  Both `read_until_upstream_exit` and `readany`
  test a queue for items and then, as a separate action, its putters.  Between the two actions
  other threads run.  This file gives both loops, with everything other threads do in the gaps
  as a parameter, and settles when an empty answer really means that all data was consumed.
*/
module Readers {
  import opened RouteCount

  /** An in-port queue with its putters. */
  datatype Port<T> = Port(items: seq<T>, putters: set<int>)

  /** What another thread can do to an in-port: deliver an item, or retire a putter. */
  datatype Event<T> = Arrive(port: nat, from: int, item: T) | Retire(port: nat, from: int)

  /** Only a putter delivers to a queue; what any other filter would do does not happen. */
  function Act<T>(s: seq<Port<T>>, e: Event<T>): (r: seq<Port<T>>)
    ensures |r| == |s|
  {
    if e.port >= |s| || e.from !in s[e.port].putters then s
    else
      var p := s[e.port];
      match e
      case Arrive(i, g, x) => s[i := p.(items := p.items + [x])]
      case Retire(i, g) => s[i := p.(putters := p.putters - {g})]
  }

  function ActAll<T>(s: seq<Port<T>>, es: seq<Event<T>>): (r: seq<Port<T>>)
    ensures |r| == |s|
    decreases |es|
  {
    if es == [] then s else ActAll(Act(s, es[0]), es[1..])
  }

  /** What other threads do in the j-th gap of the reader's n-th round. */
  type Gaps<!T> = (nat, nat) -> seq<Event<T>>

  datatype Answer<T> = Item(port: nat, item: T) | Null | StillPolling

  // ---------------------------------------------------------------------------
  // One port
  // ---------------------------------------------------------------------------

  /** The answer of `read_until_upstream_exit` and the queues it leaves, in rounds n to `last`. */
  function PollOne<T>(s: seq<Port<T>>, i: nat, gaps: Gaps<T>, n: nat, last: nat): (Answer<T>, seq<Port<T>>)
    requires i < |s| && n <= last
    decreases last - n
  {
    if n == last then (StillPolling, s)
    else if s[i].items != [] then (Item(i, s[i].items[0]), s[i := s[i].(items := s[i].items[1..])])
    else
      var s1 := ActAll(s, gaps(n, 0));
      if s1[i].putters == {} then (Null, s1)
      else PollOne(ActAll(s1, gaps(n, 1)), i, gaps, n + 1, last)
  }

  // ---------------------------------------------------------------------------
  // All ports
  // ---------------------------------------------------------------------------

  datatype ScanEnd<T> =
    | Found(port: nat, item: T, ports: seq<Port<T>>)
    | Exhausted(more: bool, ports: seq<Port<T>>)

  /** The port whose turn comes k-th when a round over n ports begins at `start`. */
  function Turn(n: nat, start: nat, k: nat): (i: nat)
    requires start < n && k < n
    ensures i < n
  {
    if start + k < n then start + k else start + k - n
  }

  /** One round of `readany` over the ports from the k-th turn on. */
  function Scan<T>(s: seq<Port<T>>, start: nat, k: nat, more: bool, gaps: Gaps<T>, n: nat): (r: ScanEnd<T>)
    requires k <= |s| && (start < |s| || s == [])
    ensures |r.ports| == |s|
    decreases |s| - k
  {
    if k == |s| then Exhausted(more, s)
    else
      var i := Turn(|s|, start, k);
      if s[i].items != [] then
        Found(i, s[i].items[0], s[i := s[i].(items := s[i].items[1..])])
      else
        var s1 := ActAll(s, gaps(n, 2 * k));
        Scan(ActAll(s1, gaps(n, 2 * k + 1)), start, k + 1, more || s1[i].putters != {}, gaps, n)
  }

  /** The k-th turn of a round. */
  lemma {:induction false} ScanUnfolds<T>(s: seq<Port<T>>, start: nat, k: nat, more: bool, gaps: Gaps<T>, n: nat)
    requires k < |s| && start < |s|
    ensures var i, s1 := Turn(|s|, start, k), ActAll(s, gaps(n, 2 * k));
            Scan(s, start, k, more, gaps, n)
            == if s[i].items != [] then Found(i, s[i].items[0], s[i := s[i].(items := s[i].items[1..])])
               else Scan(ActAll(s1, gaps(n, 2 * k + 1)), start, k + 1, more || s1[i].putters != {}, gaps, n)
  {
  }

  function PollAny<T>(s: seq<Port<T>>, start: nat, gaps: Gaps<T>, n: nat, last: nat): (Answer<T>, seq<Port<T>>)
    requires n <= last && (start < |s| || s == [])
    decreases last - n
  {
    if n == last then (StillPolling, s)
    else
      match Scan(s, start, 0, false, gaps, n)
      case Found(i, x, s1) => (Item(i, x), s1)
      case Exhausted(more, s1) =>
        if !more then (Null, s1)
        else PollAny(ActAll(s1, gaps(n, 2 * |s|)), start, gaps, n + 1, last)
  }

  /** The in-ports of a filter, changed by its reader and, in the gaps, by other threads. */
  class InPorts<T> {
    var ports: seq<Port<T>>

    constructor (s: seq<Port<T>>)
      ensures ports == s
    {
      ports := s;
    }

    /** The turn of the other threads. */
    method Others(es: seq<Event<T>>)
      modifies this
      ensures ports == ActAll(old(ports), es)
    {
      var i := 0;
      while i < |es|
        invariant 0 <= i <= |es|
        invariant ActAll(ports, es[i..]) == ActAll(old(ports), es)
      {
        ports := Act(ports, es[i]);
        i := i + 1;
      }
    }

    method GetIfItemPresent(i: nat) returns (present: bool, item: seq<T>)
      requires i < |ports|
      modifies this
      ensures present <==> old(ports)[i].items != []
      ensures if present then item == [old(ports)[i].items[0]] else item == []
      ensures ports == if present then old(ports)[i := old(ports)[i].(items := old(ports)[i].items[1..])] else old(ports)
    {
      present, item := ports[i].items != [], [];
      if present {
        item := [ports[i].items[0]];
        ports := ports[i := ports[i].(items := ports[i].items[1..])];
      }
    }

    method ReadUntilUpstreamExit(i: nat, gaps: Gaps<T>, rounds: nat) returns (a: Answer<T>)
      requires i < |ports|
      modifies this
      ensures (a, ports) == PollOne(old(ports), i, gaps, 0, rounds)
    {
      ghost var expected := PollOne(ports, i, gaps, 0, rounds);
      var n := 0;
      while n < rounds
        invariant 0 <= n <= rounds && i < |ports|
        invariant PollOne(ports, i, gaps, n, rounds) == expected
      {
        var present, item := GetIfItemPresent(i);
        if present {
          return Item(i, item[0]);
        }
        Others(gaps(n, 0));
        if ports[i].putters == {} {
          return Null;
        }
        Others(gaps(n, 1));
        n := n + 1;
      }
      return StillPolling;
    }

    /** One turn over all ports, from the start-th on. */
    method ScanPorts(start: nat, gaps: Gaps<T>, n: nat) returns (end: ScanEnd<T>)
      requires start < |ports| || ports == []
      modifies this
      ensures end == Scan(old(ports), start, 0, false, gaps, n) && end.ports == ports
    {
      ghost var expected := Scan(ports, start, 0, false, gaps, n);
      var more, k, i, size := false, 0, start, |ports|;
      while k < size
        invariant 0 <= k <= size == |ports|
        invariant k < size ==> i == Turn(size, start, k)
        invariant Scan(ports, start, k, more, gaps, n) == expected
      {
        ghost var now := ports;
        ScanUnfolds(now, start, k, more, gaps, n);
        var present, item := GetIfItemPresent(i);
        if present {
          return Found(i, item[0], ports);
        }
        Others(gaps(n, 2 * k));
        if ports[i].putters != {} {
          more := true;
        }
        Others(gaps(n, 2 * k + 1));
        k := k + 1;
        i := if i + 1 == size then 0 else i + 1;
      }
      return Exhausted(more, ports);
    }

    /** `start` is the position the random choice falls on. */
    method ReadAny(start: nat, gaps: Gaps<T>, rounds: nat) returns (a: Answer<T>)
      requires start < |ports| || ports == []
      modifies this
      ensures (a, ports) == PollAny(old(ports), start, gaps, 0, rounds)
    {
      ghost var expected := PollAny(ports, start, gaps, 0, rounds);
      var n, size := 0, |ports|;
      while n < rounds
        invariant 0 <= n <= rounds && |ports| == size
        invariant PollAny(ports, start, gaps, n, rounds) == expected
      {
        var end := ScanPorts(start, gaps, n);
        if end.Found? {
          return Item(end.port, end.item);
        } else if !end.more {
          return Null;
        }
        Others(gaps(n, 2 * size));
        n := n + 1;
      }
      return StillPolling;
    }
  }

  // ---------------------------------------------------------------------------
  // When an empty answer can be trusted
  // ---------------------------------------------------------------------------

  predicate AllConsumed<T>(s: seq<Port<T>>) {
    forall i :: 0 <= i < |s| ==> s[i].items == []
  }

  /** Without putters a port never changes again except by reading. */
  predicate Settled<T>(s: seq<Port<T>>) {
    forall i :: 0 <= i < |s| ==> s[i].putters == {}
  }

  /** What arrived at port i in a gap. */
  function Arrivals<T>(s: seq<Port<T>>, es: seq<Event<T>>, i: nat): seq<T>
    decreases |es|
  {
    if es == [] then []
    else
      var e := es[0];
      (if e.Arrive? && e.port == i && i < |s| && e.from in s[i].putters then [e.item] else [])
      + Arrivals(Act(s, e), es[1..], i)
  }

  /** Other threads only append items and only remove putters. */
  lemma {:induction false} ActAllGrows<T>(s: seq<Port<T>>, es: seq<Event<T>>, i: nat)
    requires i < |s|
    ensures var r := ActAll(s, es);
            && r[i].items == s[i].items + Arrivals(s, es, i)
            && r[i].putters <= s[i].putters
            && (s[i].putters == {} ==> r[i].items == s[i].items)
    decreases |es|
  {
    if es != [] {
      ActAllGrows(Act(s, es[0]), es[1..], i);
    }
  }

  /** An empty answer is true: nothing is left unread at the time it is given. */
  ghost predicate OneIsRight<T(!new)>(s: seq<Port<T>>, i: nat, gaps: Gaps<T>, n: nat, last: nat)
    requires i < |s| && n <= last
  {
    var (a, r) := PollOne(s, i, gaps, n, last);
    |r| == |s| && (a == Null ==> r[i].items == [] && r[i].putters == {})
  }

  ghost predicate AnyIsRight<T(!new)>(s: seq<Port<T>>, start: nat, gaps: Gaps<T>, last: nat)
    requires start < |s| || s == []
  {
    var (a, r) := PollAny(s, start, gaps, 0, last);
    a == Null ==> AllConsumed(r) && Settled(r)
  }

  /** If nothing ever happens between the two tests of a turn, the answer can be trusted. */
  lemma {:induction false} AtomicTestsAreRight<T(!new)>(s: seq<Port<T>>, i: nat, gaps: Gaps<T>, n: nat, last: nat)
    requires i < |s| && n <= last
    requires forall k: nat :: gaps(k, 0) == []
    ensures OneIsRight(s, i, gaps, n, last)
    decreases last - n
  {
    if n < last && s[i].items == [] && s[i].putters != {} {
      AtomicTestsAreRight(ActAll(s, gaps(n, 1)), i, gaps, n + 1, last);
    }
  }

  ghost function RetireAll<T>(i: nat, gs: set<int>): seq<Event<T>> {
    if gs == {} then [] else var g := Pick(gs); [Retire(i, g)] + RetireAll(i, gs - {g})
  }

  /** One last item, and then every putter of the port retires. */
  ghost function LastMinute<T>(i: nat, gs: set<int>, x: T): seq<Event<T>>
    requires gs != {}
  {
    [Arrive(i, Pick(gs), x)] + RetireAll(i, gs)
  }

  lemma {:induction false} RetireAllEffect<T>(s: seq<Port<T>>, i: nat, gs: set<int>)
    requires i < |s| && gs <= s[i].putters
    ensures ActAll(s, RetireAll(i, gs)) == s[i := s[i].(putters := s[i].putters - gs)]
    decreases gs
  {
    if gs == {} {
      assert s[i].putters - gs == s[i].putters;
    } else {
      var g := Pick(gs);
      var s1 := Act(s, Retire(i, g));
      RetireAllEffect(s1, i, gs - {g});
      assert RetireAll<T>(i, gs)[1..] == RetireAll<T>(i, gs - {g});
      assert s[i].putters - {g} - (gs - {g}) == s[i].putters - gs;
    }
  }

  lemma {:induction false} LastMinuteEffect<T>(s: seq<Port<T>>, i: nat, x: T)
    requires i < |s| && s[i].putters != {}
    ensures ActAll(s, LastMinute(i, s[i].putters, x)) == s[i := Port(s[i].items + [x], {})]
  {
    var gs := s[i].putters;
    var s1 := Act(s, Arrive(i, Pick(gs), x));
    assert LastMinute(i, gs, x)[1..] == RetireAll<T>(i, gs);
    RetireAllEffect(s1, i, gs);
    assert gs - gs == {};
  }

  /**
    `read_until_upstream_exit` is right, whatever other threads do, exactly when an item waits or
    the putters have already gone before the queue is tested.
  */
  lemma {:induction false} ReadUntilUpstreamExitExact<T(!new)>(s: seq<Port<T>>, i: nat, x: T)
    requires i < |s|
    ensures (forall gaps: Gaps<T>, rounds: nat :: OneIsRight(s, i, gaps, 0, rounds))
       <==> s[i].items != [] || s[i].putters == {}
  {
    if s[i].items != [] || s[i].putters == {} {
      forall gaps: Gaps<T>, rounds: nat
        ensures OneIsRight(s, i, gaps, 0, rounds)
      {
        ActAllGrows(s, gaps(0, 0), i);
      }
    } else {
      UnreadData(s, i, x);
    }
  }

  /** The failing run: the item arrives and the putters retire between the two tests. */
  lemma {:induction false} UnreadData<T(!new)>(s: seq<Port<T>>, i: nat, x: T)
    requires i < |s| && s[i].items == [] && s[i].putters != {}
    ensures exists gaps: Gaps<T> :: PollOne(s, i, gaps, 0, 1) == (Null, s[i := Port([x], {})])
                                    && !OneIsRight(s, i, gaps, 0, 1)
  {
    LastMinuteEffect(s, i, x);
    assert s[i].items + [x] == [x];
    var es := LastMinute(i, s[i].putters, x);
    var gaps: Gaps<T> := (n, j) => if n == 0 && j == 0 then es else [];
    assert PollOne(s, i, gaps, 0, 1) == (Null, s[i := Port([x], {})]);
  }

  // ---------------------------------------------------------------------------
  // All ports
  // ---------------------------------------------------------------------------

  lemma {:induction false} SettledStays<T>(s: seq<Port<T>>, es: seq<Event<T>>)
    requires Settled(s)
    ensures ActAll(s, es) == s
    decreases |es|
  {
    if es != [] {
      SettledStays(s, es[1..]);
    }
  }

  lemma {:induction false} StillWaiting<T>(s: seq<Port<T>>, es: seq<Event<T>>, fs: seq<Event<T>>, i: nat)
    requires i < |s| && s[i].items != []
    ensures ActAll(ActAll(s, es), fs)[i].items != []
  {
    ActAllGrows(s, es, i);
    ActAllGrows(ActAll(s, es), fs, i);
  }

  /** A waiting item is found before the round ends, wherever the round starts. */
  lemma {:induction false} ScanFinds<T>(s: seq<Port<T>>, start: nat, k: nat, more: bool, gaps: Gaps<T>, n: nat, j: nat)
    requires start < |s| && k <= j < |s| && s[Turn(|s|, start, j)].items != []
    ensures Scan(s, start, k, more, gaps, n).Found?
    decreases |s| - k
  {
    var i, w := Turn(|s|, start, k), Turn(|s|, start, j);
    if s[i].items == [] {
      var s1 := ActAll(s, gaps(n, 2 * k));
      StillWaiting(s, gaps(n, 2 * k), gaps(n, 2 * k + 1), w);
      ScanFinds(ActAll(s1, gaps(n, 2 * k + 1)), start, k + 1, more || s1[i].putters != {}, gaps, n, j);
    }
  }

  lemma {:induction false} ScanSettled<T>(s: seq<Port<T>>, start: nat, k: nat, gaps: Gaps<T>, n: nat)
    requires Settled(s) && k <= |s| && (start < |s| || s == [])
    ensures var e := Scan(s, start, k, false, gaps, n);
            if RestEmpty(s, start, k) then e == Exhausted(false, s) else e.Found?
    decreases |s| - k
  {
    if k < |s| {
      SettledStays(s, gaps(n, 2 * k));
      SettledStays(s, gaps(n, 2 * k + 1));
      ScanSettled(s, start, k + 1, gaps, n);
    }
  }

  /** All but the first k ports of a round are empty. */
  predicate RestEmpty<T>(s: seq<Port<T>>, start: nat, k: nat)
    requires start < |s| || s == []
  {
    forall j :: k <= j < |s| ==> s[Turn(|s|, start, j)].items == []
  }

  ghost function RetireEverywhere<T>(s: seq<Port<T>>, k: nat): (r: seq<Event<T>>)
    requires k <= |s|
  {
    if k == 0 then [] else RetireEverywhere(s, k - 1) + RetireAll(k - 1, s[k - 1].putters)
  }

  lemma {:induction false} ActAllSplit<T>(s: seq<Port<T>>, a: seq<Event<T>>, b: seq<Event<T>>)
    ensures ActAll(s, a + b) == ActAll(ActAll(s, a), b)
    decreases |a|
  {
    if a == [] {
      assert a + b == b;
    } else {
      assert (a + b)[1..] == a[1..] + b;
      ActAllSplit(Act(s, a[0]), a[1..], b);
    }
  }

  lemma {:induction false} RetireEverywhereEffect<T>(s: seq<Port<T>>, k: nat)
    requires k <= |s|
    ensures var r := ActAll(s, RetireEverywhere(s, k));
            && (forall i :: 0 <= i < k ==> r[i] == s[i].(putters := {}))
            && (forall i :: k <= i < |s| ==> r[i] == s[i])
  {
    if k > 0 {
      var es := RetireEverywhere(s, k - 1);
      RetireEverywhereEffect(s, k - 1);
      ActAllSplit(s, es, RetireAll(k - 1, s[k - 1].putters));
      RetireAllEffect(ActAll(s, es), k - 1, s[k - 1].putters);
      assert s[k - 1].putters - s[k - 1].putters == {};
    }
  }

  /**
    `readany` is right, whatever other threads do and wherever it starts, exactly when an item
    waits at some port or all putters of all ports have already gone before it looks.
  */
  lemma {:induction false} ReadAnyExact<T(!new)>(s: seq<Port<T>>, x: T)
    requires s != []
    ensures (forall start: nat, gaps: Gaps<T>, rounds: nat :: start < |s| ==> AnyIsRight(s, start, gaps, rounds))
       <==> !AllConsumed(s) || Settled(s)
  {
    if !AllConsumed(s) {
      var i :| 0 <= i < |s| && s[i].items != [];
      forall start: nat, gaps: Gaps<T>, rounds: nat | start < |s|
        ensures AnyIsRight(s, start, gaps, rounds)
      {
        var j := if i >= start then i - start else i + |s| - start;
        ScanFinds(s, start, 0, false, gaps, 0, j);
      }
    } else if Settled(s) {
      forall start: nat, gaps: Gaps<T>, rounds: nat | start < |s|
        ensures AnyIsRight(s, start, gaps, rounds)
      {
        ScanSettled(s, start, 0, gaps, 0);
      }
    } else {
      var i :| 0 <= i < |s| && s[i].putters != {};
      UnreadAnywhere(s, i, x);
    }
  }

  /** Port i receives its last item, and all putters everywhere retire. */
  ghost function LastMinuteAll<T>(s: seq<Port<T>>, i: nat, x: T): seq<Event<T>>
    requires i < |s| && s[i].putters != {}
  {
    var last := LastMinute(i, s[i].putters, x);
    last + RetireEverywhere(ActAll(s, last), |s|)
  }

  lemma {:induction false} LastMinuteAllEffect<T>(s: seq<Port<T>>, i: nat, x: T)
    requires AllConsumed(s) && i < |s| && s[i].putters != {}
    ensures var r := ActAll(s, LastMinuteAll(s, i, x));
            Settled(r) && forall j :: 0 <= j < |s| ==> r[j].items == if j == i then [x] else []
  {
    var last := LastMinute(i, s[i].putters, x);
    LastMinuteEffect(s, i, x);
    var mid := ActAll(s, last);
    RetireEverywhereEffect(mid, |s|);
    ActAllSplit(s, last, RetireEverywhere(mid, |s|));
  }

  /** A round that begins at port i finds nothing if all happens while port i is being tested. */
  lemma {:induction false} ScanMisses<T>(s: seq<Port<T>>, i: nat, gaps: Gaps<T>, r: seq<Port<T>>)
    requires i < |s| && s[i].items == [] && r == ActAll(s, gaps(0, 0)) && Settled(r)
    requires forall j :: 0 <= j < |s| && j != i ==> r[j].items == []
    ensures Scan(s, i, 0, false, gaps, 0) == Exhausted(false, r)
  {
    SettledStays(r, gaps(0, 1));
    ScanSettled(r, i, 1, gaps, 0);
    assert Turn(|s|, i, 0) == i;
    assert r[i].putters == {};
  }

  /** The failing run: while port i is being tested, its last item arrives and all putters retire. */
  lemma {:induction false} UnreadAnywhere<T(!new)>(s: seq<Port<T>>, i: nat, x: T)
    requires AllConsumed(s) && i < |s| && s[i].putters != {}
    ensures exists gaps: Gaps<T> :: PollAny(s, i, gaps, 0, 1).0 == Null && !AnyIsRight(s, i, gaps, 1)
  {
    var es := LastMinuteAll(s, i, x);
    LastMinuteAllEffect(s, i, x);
    var gaps: Gaps<T> := (n, j) => if n == 0 && j == 0 then es else [];
    var r := ActAll(s, es);
    ScanMisses(s, i, gaps, r);
    assert PollAny(s, i, gaps, 0, 1) == (Null, r);
    assert r[i].items == [x];
  }

  // ---------------------------------------------------------------------------
  // What an answer is
  // ---------------------------------------------------------------------------

  /** All that has happened in the gaps before the k-th turn of round m over `size` ports. */
  ghost function Happened<T>(gaps: Gaps<T>, size: nat, m: nat, k: nat): seq<Event<T>>
    decreases m, k
  {
    if k > 0 then Happened(gaps, size, m, k - 1) + gaps(m, 2 * (k - 1)) + gaps(m, 2 * (k - 1) + 1)
    else if m > 0 then Happened(gaps, size, m - 1, size) + gaps(m - 1, 2 * size)
    else []
  }

  /** The in-ports at the k-th turn of round m, if nothing was read before. */
  ghost function Before<T>(s: seq<Port<T>>, gaps: Gaps<T>, m: nat, k: nat): (r: seq<Port<T>>)
    ensures |r| == |s|
  {
    ActAll(s, Happened(gaps, |s|, m, k))
  }

  /** The port that is asked at the k-th turn of a round is empty when it is asked in round m. */
  ghost predicate AskedEmpty<T(!new)>(s: seq<Port<T>>, start: nat, gaps: Gaps<T>, m: nat, k: nat)
    requires s != []
  {
    Before(s, gaps, m, k)[(start + k) % |s|].items == []
  }

  /** It is empty and, just after that, without putters. */
  ghost predicate AskedGone<T(!new)>(s: seq<Port<T>>, start: nat, gaps: Gaps<T>, m: nat, k: nat)
    requires s != []
  {
    && AskedEmpty(s, start, gaps, m, k)
    && ActAll(Before(s, gaps, m, k), gaps(m, 2 * k))[(start + k) % |s|].putters == {}
  }

  /** Nothing was found before the k-th turn of round m, the rounds having begun with round n. */
  ghost predicate NothingBefore<T(!new)>(s: seq<Port<T>>, start: nat, gaps: Gaps<T>, n: nat, m: nat, k: nat)
    requires s != []
  {
    && (forall m', k' :: n <= m' < m && 0 <= k' < |s| ==> AskedEmpty(s, start, gaps, m', k'))
    && (forall k' :: 0 <= k' < k ==> AskedEmpty(s, start, gaps, m, k'))
  }

  /** x is the oldest item of port i, and the only thing that reading takes away. */
  ghost predicate Oldest<T(!new)>(before: seq<Port<T>>, i: nat, x: T, after: seq<Port<T>>) {
    && i < |before| == |after|
    && before[i].items == [x] + after[i].items && before[i].putters == after[i].putters
    && forall j :: 0 <= j < |before| && j != i ==> after[j] == before[j]
  }

  /** What port i had and what arrived is x and what is left; every other port has lost nothing. */
  ghost predicate Conserved<T(!new)>(s: seq<Port<T>>, es: seq<Event<T>>, i: nat, x: T, r: seq<Port<T>>) {
    && i < |s| == |r|
    && s[i].items + Arrivals(s, es, i) == [x] + r[i].items
    && forall j :: 0 <= j < |s| && j != i ==> r[j].items == s[j].items + Arrivals(s, es, j)
  }

  lemma {:induction false} OldestConserves<T(!new)>(s: seq<Port<T>>, es: seq<Event<T>>, i: nat, x: T, r: seq<Port<T>>)
    requires Oldest(ActAll(s, es), i, x, r)
    ensures Conserved(s, es, i, x, r)
  {
    forall j | 0 <= j < |s|
      ensures ActAll(s, es)[j].items == s[j].items + Arrivals(s, es, j)
    {
      ActAllGrows(s, es, j);
    }
  }

  /** An item comes from the first asked port that is not empty when it is asked, and is its oldest. */
  ghost predicate FoundAt<T(!new)>(s: seq<Port<T>>, start: nat, gaps: Gaps<T>, n: nat, m: nat, k: nat,
                                   i: nat, x: T, r: seq<Port<T>>)
    requires s != []
  {
    && k < |s| && i == (start + k) % |s| && NothingBefore(s, start, gaps, n, m, k)
    && Oldest(Before(s, gaps, m, k), i, x, r) && Conserved(s, Happened(gaps, |s|, m, k), i, x, r)
  }

  /** In round m every asked port was empty and then without putters. */
  ghost predicate GoneAt<T(!new)>(s: seq<Port<T>>, start: nat, gaps: Gaps<T>, m: nat, r: seq<Port<T>>)
    requires s != []
  {
    r == Before(s, gaps, m, |s|) && forall k :: 0 <= k < |s| ==> AskedGone(s, start, gaps, m, k)
  }

  /** What `readany` may answer, and the in-ports it leaves, when its rounds began with round n. */
  ghost predicate AnswerOfAny<T(!new)>(s: seq<Port<T>>, start: nat, gaps: Gaps<T>, n: nat, last: nat,
                                       a: Answer<T>, r: seq<Port<T>>)
    requires s != []
  {
    match a
    case Item(i, x) => exists m: nat, k: nat :: m < last && FoundAt(s, start, gaps, n, m, k, i, x, r)
    case Null => exists m: nat :: m < last && GoneAt(s, start, gaps, m, r)
    case StillPolling => r == Before(s, gaps, last, 0) && NothingBefore(s, start, gaps, n, last, 0)
  }

  lemma {:induction false} BeforeNext<T>(s: seq<Port<T>>, gaps: Gaps<T>, m: nat, k: nat)
    ensures Before(s, gaps, m, k + 1) == ActAll(ActAll(Before(s, gaps, m, k), gaps(m, 2 * k)), gaps(m, 2 * k + 1))
    ensures Before(s, gaps, m + 1, 0) == ActAll(Before(s, gaps, m, |s|), gaps(m, 2 * |s|))
  {
    var h := Happened(gaps, |s|, m, k);
    ActAllSplit(s, h, gaps(m, 2 * k));
    ActAllSplit(s, h + gaps(m, 2 * k), gaps(m, 2 * k + 1));
    ActAllSplit(s, Happened(gaps, |s|, m, |s|), gaps(m, 2 * |s|));
  }

  lemma {:induction false} TurnIs(n: nat, start: nat, k: nat)
    requires start < n && k < n
    ensures Turn(n, start, k) == (start + k) % n
  {
  }

  /** How round m may end. */
  ghost predicate EndOfScan<T(!new)>(s: seq<Port<T>>, start: nat, gaps: Gaps<T>, n: nat, m: nat, end: ScanEnd<T>)
    requires s != []
  {
    match end
    case Found(i, x, r) => exists k: nat :: FoundAt(s, start, gaps, n, m, k, i, x, r)
    case Exhausted(more, r) =>
      && r == Before(s, gaps, m, |s|) && NothingBefore(s, start, gaps, n, m, |s|)
      && (more <==> !GoneAt(s, start, gaps, m, r))
  }

  lemma {:induction false} FoundHere<T(!new)>(s: seq<Port<T>>, start: nat, gaps: Gaps<T>, n: nat, m: nat, k: nat)
    requires start < |s| && k < |s| && n <= m && NothingBefore(s, start, gaps, n, m, k)
    requires Before(s, gaps, m, k)[(start + k) % |s|].items != []
    ensures var b, i := Before(s, gaps, m, k), (start + k) % |s|;
            EndOfScan(s, start, gaps, n, m, Found(i, b[i].items[0], b[i := b[i].(items := b[i].items[1..])]))
  {
    var b, i := Before(s, gaps, m, k), (start + k) % |s|;
    var r := b[i := b[i].(items := b[i].items[1..])];
    TakeOldest(b, i);
    OldestConserves(s, Happened(gaps, |s|, m, k), i, b[i].items[0], r);
    assert FoundAt(s, start, gaps, n, m, k, i, b[i].items[0], r);
  }

  lemma {:induction false} TakeOldest<T(!new)>(b: seq<Port<T>>, i: nat)
    requires i < |b| && b[i].items != []
    ensures Oldest(b, i, b[i].items[0], b[i := b[i].(items := b[i].items[1..])])
  {
  }

  lemma {:induction false} SeenPutter<T(!new)>(s: seq<Port<T>>, start: nat, gaps: Gaps<T>, m: nat, k: nat, more: bool, seen: bool)
    requires start < |s| && k < |s| && AskedEmpty(s, start, gaps, m, k)
    requires more <==> exists j :: 0 <= j < k && !AskedGone(s, start, gaps, m, j)
    requires seen <==> more || ActAll(Before(s, gaps, m, k), gaps(m, 2 * k))[(start + k) % |s|].putters != {}
    ensures seen <==> exists j :: 0 <= j < k + 1 && !AskedGone(s, start, gaps, m, j)
  {
    assert AskedGone(s, start, gaps, m, k) <==>
      ActAll(Before(s, gaps, m, k), gaps(m, 2 * k))[(start + k) % |s|].putters == {};
  }

  /** One round, from its k-th turn on; `more` says whether a putter was seen before. */
  lemma {:induction false} ScanIs<T(!new)>(s: seq<Port<T>>, start: nat, gaps: Gaps<T>, n: nat, m: nat, k: nat, more: bool)
    requires start < |s| && k <= |s| && n <= m && NothingBefore(s, start, gaps, n, m, k)
    requires more <==> exists j :: 0 <= j < k && !AskedGone(s, start, gaps, m, j)
    ensures EndOfScan(s, start, gaps, n, m, Scan(Before(s, gaps, m, k), start, k, more, gaps, m))
    decreases |s| - k
  {
    if k < |s| {
      var b := Before(s, gaps, m, k);
      var i := Turn(|s|, start, k);
      TurnIs(|s|, start, k);
      if b[i].items != [] {
        FoundHere(s, start, gaps, n, m, k);
      } else {
        BeforeNext(s, gaps, m, k);
        assert AskedEmpty(s, start, gaps, m, k);
        var seen := more || ActAll(b, gaps(m, 2 * k))[i].putters != {};
        SeenPutter(s, start, gaps, m, k, more, seen);
        ScanIs(s, start, gaps, n, m, k + 1, seen);
      }
    }
  }

  /**
    `readany` from round n on: an item is the oldest of the first asked port that is not empty, and
    nothing else is taken; an empty answer comes after a round in which every port was found empty
    and then without putters; and without an answer all asked ports were empty.
  */
  lemma {:induction false} PollAnyIs<T(!new)>(s: seq<Port<T>>, start: nat, gaps: Gaps<T>, n: nat, m: nat, last: nat)
    requires start < |s| && n <= m <= last && NothingBefore(s, start, gaps, n, m, 0)
    ensures var (a, r) := PollAny(Before(s, gaps, m, 0), start, gaps, m, last); AnswerOfAny(s, start, gaps, n, last, a, r)
    decreases last - m
  {
    if m < last {
      ScanIs(s, start, gaps, n, m, 0, false);
      match Scan(Before(s, gaps, m, 0), start, 0, false, gaps, m)
      case Found(i, x, r) =>
      case Exhausted(more, r) =>
        if more {
          BeforeNext(s, gaps, m, |s|);
          PollAnyIs(s, start, gaps, n, m + 1, last);
        } else {
          assert GoneAt(s, start, gaps, m, r);
        }
    }
  }

  /**
    Whatever other threads do, an item that `readany` returns is the oldest one of the port it
    names: that port's items and arrivals are this item and what is left, and no other port has
    lost anything.  The port is the first one asked that was not empty at that moment.
  */
  lemma {:induction false} ReadAnyTakesOldest<T(!new)>(s: seq<Port<T>>, start: nat, gaps: Gaps<T>, rounds: nat)
    requires start < |s|
    ensures var (a, r) := PollAny(s, start, gaps, 0, rounds); AnswerOfAny(s, start, gaps, 0, rounds, a, r)
  {
    PollAnyIs(s, start, gaps, 0, 0, rounds);
  }

  // The same for one port.

  /** All that has happened in the gaps of the first m rounds of `read_until_upstream_exit`. */
  ghost function HappenedOne<T>(gaps: Gaps<T>, m: nat): seq<Event<T>> {
    if m == 0 then [] else HappenedOne(gaps, m - 1) + gaps(m - 1, 0) + gaps(m - 1, 1)
  }

  ghost function BeforeOne<T>(s: seq<Port<T>>, gaps: Gaps<T>, m: nat): (r: seq<Port<T>>)
    ensures |r| == |s|
  {
    ActAll(s, HappenedOne(gaps, m))
  }

  lemma {:induction false} BeforeOneNext<T>(s: seq<Port<T>>, gaps: Gaps<T>, m: nat)
    ensures BeforeOne(s, gaps, m + 1) == ActAll(ActAll(BeforeOne(s, gaps, m), gaps(m, 0)), gaps(m, 1))
  {
    var h := HappenedOne(gaps, m);
    ActAllSplit(s, h, gaps(m, 0));
    ActAllSplit(s, h + gaps(m, 0), gaps(m, 1));
  }

  ghost predicate EmptyBefore<T(!new)>(s: seq<Port<T>>, i: nat, gaps: Gaps<T>, m: nat)
    requires i < |s|
  {
    forall m' :: 0 <= m' < m ==> BeforeOne(s, gaps, m')[i].items == []
  }

  ghost predicate FoundInRound<T(!new)>(s: seq<Port<T>>, i: nat, gaps: Gaps<T>, m: nat, x: T, r: seq<Port<T>>)
    requires i < |s|
  {
    EmptyBefore(s, i, gaps, m) && Oldest(BeforeOne(s, gaps, m), i, x, r) && Conserved(s, HappenedOne(gaps, m), i, x, r)
  }

  /** Found empty, and then, after what happened in between, without putters. */
  ghost predicate GoneInRound<T(!new)>(s: seq<Port<T>>, i: nat, gaps: Gaps<T>, m: nat, r: seq<Port<T>>)
    requires i < |s|
  {
    EmptyBefore(s, i, gaps, m + 1) && r == ActAll(BeforeOne(s, gaps, m), gaps(m, 0)) && r[i].putters == {}
  }

  ghost predicate AnswerOfOne<T(!new)>(s: seq<Port<T>>, i: nat, gaps: Gaps<T>, last: nat, a: Answer<T>, r: seq<Port<T>>)
    requires i < |s|
  {
    match a
    case Item(j, x) => j == i && exists m: nat :: m < last && FoundInRound(s, i, gaps, m, x, r)
    case Null => exists m: nat :: m < last && GoneInRound(s, i, gaps, m, r)
    case StillPolling => r == BeforeOne(s, gaps, last) && EmptyBefore(s, i, gaps, last)
  }

  /** Going on from round m gives an answer of the whole. */
  ghost predicate RightFrom<T(!new)>(s: seq<Port<T>>, i: nat, gaps: Gaps<T>, m: nat, last: nat)
    requires i < |s| && m <= last
  {
    var (a, r) := PollOne(BeforeOne(s, gaps, m), i, gaps, m, last);
    AnswerOfOne(s, i, gaps, last, a, r)
  }

  lemma {:induction false} FoundInThisRound<T(!new)>(s: seq<Port<T>>, i: nat, gaps: Gaps<T>, m: nat, last: nat)
    requires i < |s| && m < last && EmptyBefore(s, i, gaps, m) && BeforeOne(s, gaps, m)[i].items != []
    ensures RightFrom(s, i, gaps, m, last)
  {
    var b := BeforeOne(s, gaps, m);
    var r := b[i := b[i].(items := b[i].items[1..])];
    TakeOldest(b, i);
    OldestConserves(s, HappenedOne(gaps, m), i, b[i].items[0], r);
    assert FoundInRound(s, i, gaps, m, b[i].items[0], r);
  }

  lemma {:induction false} GoneInThisRound<T(!new)>(s: seq<Port<T>>, i: nat, gaps: Gaps<T>, m: nat, last: nat)
    requires i < |s| && m < last && EmptyBefore(s, i, gaps, m) && BeforeOne(s, gaps, m)[i].items == []
    requires ActAll(BeforeOne(s, gaps, m), gaps(m, 0))[i].putters == {}
    ensures RightFrom(s, i, gaps, m, last)
  {
    assert GoneInRound(s, i, gaps, m, ActAll(BeforeOne(s, gaps, m), gaps(m, 0)));
  }

  lemma {:induction false} OnToNextRound<T(!new)>(s: seq<Port<T>>, i: nat, gaps: Gaps<T>, m: nat, last: nat)
    requires i < |s| && m < last && EmptyBefore(s, i, gaps, m) && BeforeOne(s, gaps, m)[i].items == []
    requires ActAll(BeforeOne(s, gaps, m), gaps(m, 0))[i].putters != {}
    ensures EmptyBefore(s, i, gaps, m + 1)
    ensures RightFrom(s, i, gaps, m + 1, last) ==> RightFrom(s, i, gaps, m, last)
  {
    BeforeOneNext(s, gaps, m);
    assert EmptyBefore(s, i, gaps, m + 1);
    assert PollOne(BeforeOne(s, gaps, m), i, gaps, m, last) == PollOne(BeforeOne(s, gaps, m + 1), i, gaps, m + 1, last);
  }

  lemma {:induction false} PollOneIs<T(!new)>(s: seq<Port<T>>, i: nat, gaps: Gaps<T>, m: nat, last: nat)
    requires i < |s| && m <= last && EmptyBefore(s, i, gaps, m)
    ensures RightFrom(s, i, gaps, m, last)
    decreases last - m
  {
    if m < last {
      if BeforeOne(s, gaps, m)[i].items != [] {
        FoundInThisRound(s, i, gaps, m, last);
      } else if ActAll(BeforeOne(s, gaps, m), gaps(m, 0))[i].putters == {} {
        GoneInThisRound(s, i, gaps, m, last);
      } else {
        OnToNextRound(s, i, gaps, m, last);
        PollOneIs(s, i, gaps, m + 1, last);
      }
    }
  }

  /** Whatever other threads do, `read_until_upstream_exit` returns the oldest item of its port. */
  lemma {:induction false} ReadTakesOldest<T(!new)>(s: seq<Port<T>>, i: nat, gaps: Gaps<T>, rounds: nat)
    requires i < |s|
    ensures var (a, r) := PollOne(s, i, gaps, 0, rounds); AnswerOfOne(s, i, gaps, rounds, a, r)
  {
    PollOneIs(s, i, gaps, 0, rounds);
    assert BeforeOne(s, gaps, 0) == s;
  }
}
