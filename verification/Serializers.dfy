/**
  Writing filter instances and layouts to a buffer and reading them back, one field after another.
  Every method that writes appends exactly what its format says, with maps and sets in some order;
  every method that reads takes exactly what its format says.
*/
module Serializers {
  import opened Common
  import opened Bytes
  import opened Buffers
  import opened Streams
  import opened Serialized

  // ---------------------------------------------------------------------------
  // Pieces of a format
  // ---------------------------------------------------------------------------

  lemma {:induction false} PutBoth<A, B>(before: seq<Byte>, f: Format<A>, g: Format<B>, x: A, y: B)
    ensures (before + f.put(x)) + g.put(y) == before + Both(f, g).put((x, y))
  {
    Assoc(before, f.put(x), g.put(y));
  }

  lemma {:induction false} PutMore<T>(f: Format<T>, xs: seq<T>, x: T)
    ensures PutAll(f, xs + [x]) == PutAll(f, xs) + f.put(x)
    decreases |xs|
  {
    if xs == [] {
      assert xs + [x] == [x] && [x][1..] == [] && f.put(x) + [] == f.put(x);
    } else {
      assert (xs + [x])[1..] == xs[1..] + [x];
      PutMore(f, xs[1..], x);
      Assoc(f.put(xs[0]), PutAll(f, xs[1..]), f.put(x));
    }
  }

  /** One more element of a list behind `before`. */
  lemma {:induction false} PutNext<T>(before: seq<Byte>, f: Format<T>, xs: seq<T>, x: T)
    ensures (before + PutAll(f, xs)) + f.put(x) == before + PutAll(f, xs + [x])
  {
    PutMore(f, xs, x);
    Assoc(before, PutAll(f, xs), f.put(x));
  }

  lemma {:induction false} PutNone<T>(before: seq<Byte>, f: Format<T>)
    ensures before + PutAll(f, []) == before
  {
  }

  lemma {:induction false} PutEnd<T>(f: Format<T>, xs: seq<T>, i: nat, tail: seq<Byte>)
    requires i == |xs|
    ensures PutAll(f, xs[i..]) + tail == tail
  {
  }

  lemma {:induction false} PutCounted<T>(before: seq<Byte>, f: Format<T>, xs: seq<T>, big: bool)
    ensures (before + Int4(big).put(|xs|)) + PutAll(f, xs) == before + ListOf(f, big).put(xs)
  {
    Assoc(before, Int4(big).put(|xs|), PutAll(f, xs));
  }

  /** The entries noted so far are those of the keys that are done. */
  ghost predicate Listing<K, V>(entries: seq<(K, V)>, m: map<K, V>, left: set<K>) {
    && left <= m.Keys && |entries| + |left| == |m.Keys|
    && (forall e :: e in entries ==> e.0 in m && m[e.0] == e.1)
    && (forall k :: k in m && k !in left ==> (k, m[k]) in entries)
  }

  lemma {:induction false} ListedMore<K, V>(entries: seq<(K, V)>, m: map<K, V>, left: set<K>, k: K)
    requires Listing(entries, m, left) && k in left
    ensures Listing(entries + [(k, m[k])], m, left - {k})
  {
  }

  // ---------------------------------------------------------------------------
  // Numbers and nested buffers
  // ---------------------------------------------------------------------------

  method AppendInt4(b: DCBuffer, x: int)
    requires Steady(b)
    modifies b.Repr()
    ensures Steady(b) && (b.pBuf == old(b.pBuf) || fresh(b.pBuf)) && b.extracted == old(b.extracted)
    ensures b.bigEndian == old(b.bigEndian) && b.Contents() == old(b.Contents()) + Int4(b.bigEndian).put(x)
  {
    AppendNum(b, 4, x % (2 * Int4Limit));
  }

  method ExtractInt4(b: DCBuffer) returns (x: int)
    requires b.Valid() && Int4(b.bigEndian).get(Unread(b)).Got?
    modifies b`extracted
    ensures b.Valid() && b.bigEndian == old(b.bigEndian) && b.Contents() == old(b.Contents())
    ensures Int4(b.bigEndian).get(old(Unread(b))) == Got(x, Unread(b))
  {
    var ok, n := ExtractNum(b, 4);
    x := if n < Int4Limit then n else n - 2 * Int4Limit;
  }

  method ExtractText(b: DCBuffer) returns (s: Text)
    requires b.Valid() && TextFormat(b.bigEndian).get(Unread(b)).Got?
    modifies b`extracted
    ensures b.Valid() && b.bigEndian == old(b.bigEndian) && b.Contents() == old(b.Contents())
    ensures TextFormat(b.bigEndian).get(old(Unread(b))) == Got(s, Unread(b))
  {
    s := ExtractStr(b);
  }

  /** The order of the next bytes: a buffer without memory goes back to the machine's order. */
  ghost function OrderOf(b: DCBuffer): bool
    reads b
  {
    if b.pBuf == null then b.hostBig else b.bigEndian
  }

  /** The first byte reads the same in both orders, so the forced flag of an empty buffer does no harm. */
  method AppendNested(b: DCBuffer, n: Nested)
    requires b.Valid() && b.Growable()
    modifies b.Repr()
    ensures Steady(b) && (b.pBuf == old(b.pBuf) || fresh(b.pBuf)) && b.extracted == old(b.extracted)
    ensures b.bigEndian == old(OrderOf(b)) && b.Contents() == old(b.Contents()) + NestedFormat(b.bigEndian).put(n)
  {
    ghost var before, big := b.Contents(), OrderOf(b);
    ghost var flag: seq<Byte>, count := [if n.big then 1 else 0], Stored(|n.bytes|, 4, big);
    OneByte(if n.big then 1 else 0, b.bigEndian);
    AppendNum(b, 1, if n.big then 1 else 0);
    AppendNum(b, 4, |n.bytes|);
    var ok := b.Append(n.bytes, false);
    Assoc(before, flag, count);
    Assoc(before, flag + count, n.bytes);
  }

  lemma {:induction false} OneByte(x: nat, big: bool)
    requires x < 256
    ensures Stored(x, 1, big) == [x as Byte]
    ensures Loaded([x as Byte], big) == x
  {
    assert BigEndian(x / 256, 0) == [] && BigEndian(x, 1) == [x as Byte];
    assert Reverse([x as Byte]) == [x as Byte];
    assert Bytes.Value([]) == 0 && [x as Byte][..0] == [];
    ByteValues.ByteOf(x);
  }

  lemma {:induction false} LoadedByte(s: seq<Byte>, big: bool)
    requires |s| == 1
    ensures Loaded(s, big) == s[0] as int
  {
    assert Reverse(s) == s && s[..0] == [] && Bytes.Value(s[..0]) == 0;
  }

  method ExtractNested(b: DCBuffer) returns (n: Nested)
    requires b.Valid() && NestedFormat(b.bigEndian).get(Unread(b)).Got?
    modifies b`extracted
    ensures b.Valid() && b.bigEndian == old(b.bigEndian) && b.Contents() == old(b.Contents())
    ensures NestedFormat(b.bigEndian).get(old(Unread(b))) == Got(n, Unread(b))
  {
    LoadedByte(Unread(b)[..1], b.bigEndian);
    var ok, flag := ExtractNum(b, 1);
    var got, count := ExtractNum(b, 4);
    var bytes := TakeBytes(b, count);
    n := Nested(bytes, flag == 1);
  }

  /** `saveToDCBuffer`. */
  method SaveToDCBuffer(t: DCBuffer, b: DCBuffer)
    requires t.Valid() && b.Valid() && b.Growable() && t.Repr() !! b.Repr()
    modifies b.Repr()
    ensures Steady(b) && (b.pBuf == old(b.pBuf) || fresh(b.pBuf)) && b.extracted == old(b.extracted)
    ensures b.bigEndian == old(OrderOf(b))
    ensures b.Contents() == old(b.Contents()) + NestedFormat(b.bigEndian).put(Nested(t.Contents(), t.bigEndian))
  {
    var bytes := if t.pBuf == null then [] else t.pBuf[..t.wSize];
    AppendNested(b, Nested(bytes, t.bigEndian));
  }

  /** `restoreFromDCBuffer`: the flag is set last, because taking over the memory resets it. */
  method RestoreFromDCBuffer(b: DCBuffer, hostBig: bool) returns (t: DCBuffer)
    requires b.Valid() && NestedFormat(b.bigEndian).get(Unread(b)).Got?
    modifies b`extracted
    ensures b.Valid() && b.bigEndian == old(b.bigEndian) && b.Contents() == old(b.Contents())
    ensures t.Valid() && fresh(t.Repr()) && t.extracted == 0 && t.hostBig == hostBig
    ensures NestedFormat(b.bigEndian).get(old(Unread(b))) == Got(Nested(t.Contents(), t.bigEndian), Unread(b))
  {
    var n := ExtractNested(b);
    var raw := new Byte[|n.bytes|](i requires 0 <= i < |n.bytes| => n.bytes[i]);
    assert raw[..] == n.bytes && raw[..|n.bytes|] == n.bytes;
    t := new DCBuffer(hostBig);
    t.Set(raw, raw.Length, raw.Length, true);
    t.ForceEndian(n.big);
  }

  // ---------------------------------------------------------------------------
  // Ports
  // ---------------------------------------------------------------------------

  /** `Gftid_Port::serialize`. */
  method SerializeRef(b: DCBuffer, r: Ref)
    requires Steady(b)
    modifies b.Repr()
    ensures Steady(b) && (b.pBuf == old(b.pBuf) || fresh(b.pBuf)) && b.extracted == old(b.extracted)
    ensures b.bigEndian == old(b.bigEndian) && b.Contents() == old(b.Contents()) + RefFormat(b.bigEndian).put(r)
  {
    PutBoth(b.Contents(), Int4(b.bigEndian), TextFormat(b.bigEndian), r.0, r.1);
    AppendInt4(b, r.0);
    AppendStr(b, r.1);
  }

  // In the methods called ...At, `done` is what has been written of a list behind `before`.

  method SerializeRefAt(b: DCBuffer, r: Ref, ghost before: seq<Byte>, ghost done: seq<Ref>)
    requires Steady(b) && b.Contents() == before + PutAll(RefFormat(b.bigEndian), done)
    modifies b.Repr()
    ensures Steady(b) && (b.pBuf == old(b.pBuf) || fresh(b.pBuf)) && b.extracted == old(b.extracted)
    ensures b.bigEndian == old(b.bigEndian) && b.Contents() == before + PutAll(RefFormat(b.bigEndian), done + [r])
  {
    PutNext(before, RefFormat(b.bigEndian), done, r);
    SerializeRef(b, r);
  }

  /** `ResolvedMultiPort::serialize`. */
  method SerializeRefs(b: DCBuffer, xs: seq<Ref>)
    requires Steady(b)
    modifies b.Repr()
    ensures Steady(b) && (b.pBuf == old(b.pBuf) || fresh(b.pBuf)) && b.extracted == old(b.extracted)
    ensures b.bigEndian == old(b.bigEndian) && b.Contents() == old(b.Contents()) + ListOf(RefFormat(b.bigEndian), b.bigEndian).put(xs)
  {
    ghost var start := b.Contents();
    AppendInt4(b, |xs|);
    SerializeEachRefs(b, xs);
    PutCounted(start, RefFormat(b.bigEndian), xs, b.bigEndian);
  }

  method SerializeEachRefs(b: DCBuffer, xs: seq<Ref>)
    requires Steady(b)
    modifies b.Repr()
    ensures Steady(b) && (b.pBuf == old(b.pBuf) || fresh(b.pBuf)) && b.extracted == old(b.extracted)
    ensures b.bigEndian == old(b.bigEndian) && b.Contents() == old(b.Contents()) + PutAll(RefFormat(b.bigEndian), xs)
  {
    ghost var before := b.Contents();
    PutNone(before, RefFormat(b.bigEndian));
    var u := 0;
    while u < |xs|
      invariant 0 <= u <= |xs|
      invariant Steady(b) && (b.pBuf == old(b.pBuf) || fresh(b.pBuf))
      invariant b.extracted == old(b.extracted) && b.bigEndian == old(b.bigEndian)
      invariant b.Contents() == before + PutAll(RefFormat(b.bigEndian), xs[..u])
    {
      NextPrefix(xs, u);
      SerializeRefAt(b, xs[u], before, xs[..u]);
      u := u + 1;
    }
    assert xs[..u] == xs;
  }

  // ---------------------------------------------------------------------------
  // The maps of a filter instance
  // ---------------------------------------------------------------------------

  method SerializePortAt(b: DCBuffer, port: Text, rs: seq<Ref>, ghost before: seq<Byte>, ghost done: seq<(Text, seq<Ref>)>)
    requires Steady(b) && b.Contents() == before + PutAll(Ports(b.bigEndian), done)
    modifies b.Repr()
    ensures Steady(b) && (b.pBuf == old(b.pBuf) || fresh(b.pBuf)) && b.extracted == old(b.extracted)
    ensures b.bigEndian == old(b.bigEndian) && b.Contents() == before + PutAll(Ports(b.bigEndian), done + [(port, rs)])
  {
    PutNext(before, Ports(b.bigEndian), done, (port, rs));
    PutBoth(b.Contents(), TextFormat(b.bigEndian), ListOf(RefFormat(b.bigEndian), b.bigEndian), port, rs);
    AppendStr(b, port);
    SerializeRefs(b, rs);
  }

  /** The resolved out-ports, in the order in which the map gives them. */
  method SerializeOuts(b: DCBuffer, m: map<Text, seq<Ref>>) returns (ghost w: seq<(Text, seq<Ref>)>)
    requires Steady(b)
    modifies b.Repr()
    ensures Steady(b) && (b.pBuf == old(b.pBuf) || fresh(b.pBuf)) && b.extracted == old(b.extracted)
    ensures b.bigEndian == old(b.bigEndian) && b.Contents() == old(b.Contents()) + ListOf(Ports(b.bigEndian), b.bigEndian).put(w)
    ensures Lists(w, m) && |w| == |m|
  {
    ghost var start := b.Contents();
    AppendInt4(b, |m|);
    w := SerializeEachOuts(b, m);
    PutCounted(start, Ports(b.bigEndian), w, b.bigEndian);
  }

  method SerializeEachOuts(b: DCBuffer, m: map<Text, seq<Ref>>) returns (ghost w: seq<(Text, seq<Ref>)>)
    requires Steady(b)
    modifies b.Repr()
    ensures Steady(b) && (b.pBuf == old(b.pBuf) || fresh(b.pBuf)) && b.extracted == old(b.extracted)
    ensures b.bigEndian == old(b.bigEndian) && b.Contents() == old(b.Contents()) + PutAll(Ports(b.bigEndian), w)
    ensures Lists(w, m) && |w| == |m|
  {
    ghost var before := b.Contents();
    PutNone(before, Ports(b.bigEndian));
    w := [];
    var left := m.Keys;
    while left != {}
      invariant Listing(w, m, left)
      invariant Steady(b) && (b.pBuf == old(b.pBuf) || fresh(b.pBuf))
      invariant b.extracted == old(b.extracted) && b.bigEndian == old(b.bigEndian)
      invariant b.Contents() == before + PutAll(Ports(b.bigEndian), w)
      decreases left
    {
      var k :| k in left;
      ghost var e := (k, m[k]);
      ListedMore(w, m, left, k);
      SerializePortAt(b, k, m[k], before, w);
      w := w + [e];
      left := left - {k};
    }
  }

  /** What is noted so far is what is not left, without repetition. */
  ghost predicate Gathered<T>(xs: seq<T>, s: set<T>, left: set<T>) {
    left <= s && SetOf(xs) == s - left && |xs| + |left| == |s|
  }

  lemma {:induction false} GatheredMore<T>(xs: seq<T>, s: set<T>, left: set<T>, x: T)
    requires Gathered(xs, s, left) && x in left
    ensures Gathered(xs + [x], s, left - {x})
  {
    assert SetOf(xs + [x]) == SetOf(xs) + {x};
  }

  /** A set of ports, in the order in which it is gone through. */
  method SerializeRefSet(b: DCBuffer, s: set<Ref>) returns (ghost rs: seq<Ref>)
    requires Steady(b)
    modifies b.Repr()
    ensures Steady(b) && (b.pBuf == old(b.pBuf) || fresh(b.pBuf)) && b.extracted == old(b.extracted)
    ensures b.bigEndian == old(b.bigEndian) && b.Contents() == old(b.Contents()) + ListOf(RefFormat(b.bigEndian), b.bigEndian).put(rs)
    ensures SetOf(rs) == s && |rs| == |s|
  {
    ghost var start := b.Contents();
    AppendInt4(b, |s|);
    rs := SerializeEachRefSet(b, s);
    PutCounted(start, RefFormat(b.bigEndian), rs, b.bigEndian);
  }

  method SerializeEachRefSet(b: DCBuffer, s: set<Ref>) returns (ghost rs: seq<Ref>)
    requires Steady(b)
    modifies b.Repr()
    ensures Steady(b) && (b.pBuf == old(b.pBuf) || fresh(b.pBuf)) && b.extracted == old(b.extracted)
    ensures b.bigEndian == old(b.bigEndian) && b.Contents() == old(b.Contents()) + PutAll(RefFormat(b.bigEndian), rs)
    ensures SetOf(rs) == s && |rs| == |s|
  {
    ghost var before := b.Contents();
    PutNone(before, RefFormat(b.bigEndian));
    rs := [];
    var left := s;
    while left != {}
      invariant Gathered(rs, s, left)
      invariant Steady(b) && (b.pBuf == old(b.pBuf) || fresh(b.pBuf))
      invariant b.extracted == old(b.extracted) && b.bigEndian == old(b.bigEndian)
      invariant b.Contents() == before + PutAll(RefFormat(b.bigEndian), rs)
      decreases left
    {
      var r :| r in left;
      SerializeRefAt(b, r, before, rs);
      GatheredMore(rs, s, left, r);
      rs := rs + [r];
      left := left - {r};
    }
  }

  /** An in-port with its set; the order of the set is noted. */
  method SerializeInPortAt(b: DCBuffer, port: Text, s: set<Ref>, ghost before: seq<Byte>, ghost done: seq<(Text, seq<Ref>)>)
    returns (ghost rs: seq<Ref>)
    requires Steady(b) && b.Contents() == before + PutAll(Ports(b.bigEndian), done)
    modifies b.Repr()
    ensures Steady(b) && (b.pBuf == old(b.pBuf) || fresh(b.pBuf)) && b.extracted == old(b.extracted)
    ensures b.bigEndian == old(b.bigEndian) && b.Contents() == before + PutAll(Ports(b.bigEndian), done + [(port, rs)])
    ensures SetOf(rs) == s && |rs| == |s|
  {
    ghost var start := b.Contents();
    AppendStr(b, port);
    rs := SerializeRefSet(b, s);
    PutBoth(start, TextFormat(b.bigEndian), ListOf(RefFormat(b.bigEndian), b.bigEndian), port, rs);
    PutNext(before, Ports(b.bigEndian), done, (port, rs));
  }

  /** Every set is written in some order, without repetition. */
  ghost predicate Ordered(w: seq<(Text, seq<Ref>)>, m: map<Text, set<Ref>>) {
    forall e :: e in w ==> e.0 in m && |e.1| == |m[e.0]| && SetOf(e.1) == m[e.0]
  }

  ghost predicate ListingIns(w: seq<(Text, seq<Ref>)>, m: map<Text, set<Ref>>, left: set<Text>) {
    Listing(SetEntries(w), m, left) && Ordered(w, m)
  }

  lemma {:induction false} ListedInsMore(w: seq<(Text, seq<Ref>)>, m: map<Text, set<Ref>>, left: set<Text>, k: Text,
                                         rs: seq<Ref>)
    requires ListingIns(w, m, left) && k in left && SetOf(rs) == m[k] && |rs| == |m[k]|
    ensures ListingIns(w + [(k, rs)], m, left - {k})
  {
    SetEntriesMore(w, (k, rs));
    ListedMore(SetEntries(w), m, left, k);
  }

  /** The resolved in-ports. */
  method SerializeIns(b: DCBuffer, m: map<Text, set<Ref>>) returns (ghost w: seq<(Text, seq<Ref>)>)
    requires Steady(b)
    modifies b.Repr()
    ensures Steady(b) && (b.pBuf == old(b.pBuf) || fresh(b.pBuf)) && b.extracted == old(b.extracted)
    ensures b.bigEndian == old(b.bigEndian) && b.Contents() == old(b.Contents()) + ListOf(Ports(b.bigEndian), b.bigEndian).put(w)
    ensures Lists(SetEntries(w), m) && |w| == |m|
    ensures Ordered(w, m)
  {
    ghost var start := b.Contents();
    AppendInt4(b, |m|);
    w := SerializeEachIns(b, m);
    PutCounted(start, Ports(b.bigEndian), w, b.bigEndian);
  }

  method SerializeEachIns(b: DCBuffer, m: map<Text, set<Ref>>) returns (ghost w: seq<(Text, seq<Ref>)>)
    requires Steady(b)
    modifies b.Repr()
    ensures Steady(b) && (b.pBuf == old(b.pBuf) || fresh(b.pBuf)) && b.extracted == old(b.extracted)
    ensures b.bigEndian == old(b.bigEndian) && b.Contents() == old(b.Contents()) + PutAll(Ports(b.bigEndian), w)
    ensures Lists(SetEntries(w), m) && |w| == |m|
    ensures Ordered(w, m)
  {
    ghost var before := b.Contents();
    PutNone(before, Ports(b.bigEndian));
    w := [];
    var left := m.Keys;
    while left != {}
      invariant ListingIns(w, m, left)
      invariant Steady(b) && (b.pBuf == old(b.pBuf) || fresh(b.pBuf))
      invariant b.extracted == old(b.extracted) && b.bigEndian == old(b.bigEndian)
      invariant b.Contents() == before + PutAll(Ports(b.bigEndian), w)
      decreases left
    {
      var k :| k in left;
      ghost var rs := SerializeInPortAt(b, k, m[k], before, w);
      ListedInsMore(w, m, left, k, rs);
      w := w + [(k, rs)];
      left := left - {k};
    }
  }

  lemma {:induction false} SetEntriesMore(w: seq<(Text, seq<Ref>)>, e: (Text, seq<Ref>))
    ensures SetEntries(w + [e]) == SetEntries(w) + [(e.0, SetOf(e.1))]
  {
  }

  method SerializeParamAt(b: DCBuffer, k: Text, v: Text, ghost before: seq<Byte>, ghost done: seq<(Text, Text)>)
    requires Steady(b) && b.Contents() == before + PutAll(Param(b.bigEndian), done)
    modifies b.Repr()
    ensures Steady(b) && (b.pBuf == old(b.pBuf) || fresh(b.pBuf)) && b.extracted == old(b.extracted)
    ensures b.bigEndian == old(b.bigEndian) && b.Contents() == before + PutAll(Param(b.bigEndian), done + [(k, v)])
  {
    PutNext(before, Param(b.bigEndian), done, (k, v));
    PutBoth(b.Contents(), TextFormat(b.bigEndian), TextFormat(b.bigEndian), k, v);
    AppendStr(b, k);
    AppendStr(b, v);
  }

  /** The user parameters; the filter registry writes its libraries in the same way. */
  method SerializeParams(b: DCBuffer, m: map<Text, Text>) returns (ghost w: seq<(Text, Text)>)
    requires Steady(b)
    modifies b.Repr()
    ensures Steady(b) && (b.pBuf == old(b.pBuf) || fresh(b.pBuf)) && b.extracted == old(b.extracted)
    ensures b.bigEndian == old(b.bigEndian) && b.Contents() == old(b.Contents()) + ListOf(Param(b.bigEndian), b.bigEndian).put(w)
    ensures Lists(w, m) && |w| == |m|
  {
    ghost var start := b.Contents();
    AppendInt4(b, |m|);
    w := SerializeEachParams(b, m);
    PutCounted(start, Param(b.bigEndian), w, b.bigEndian);
  }

  method SerializeEachParams(b: DCBuffer, m: map<Text, Text>) returns (ghost w: seq<(Text, Text)>)
    requires Steady(b)
    modifies b.Repr()
    ensures Steady(b) && (b.pBuf == old(b.pBuf) || fresh(b.pBuf)) && b.extracted == old(b.extracted)
    ensures b.bigEndian == old(b.bigEndian) && b.Contents() == old(b.Contents()) + PutAll(Param(b.bigEndian), w)
    ensures Lists(w, m) && |w| == |m|
  {
    ghost var before := b.Contents();
    PutNone(before, Param(b.bigEndian));
    w := [];
    var left := m.Keys;
    while left != {}
      invariant Listing(w, m, left)
      invariant Steady(b) && (b.pBuf == old(b.pBuf) || fresh(b.pBuf))
      invariant b.extracted == old(b.extracted) && b.bigEndian == old(b.bigEndian)
      invariant b.Contents() == before + PutAll(Param(b.bigEndian), w)
      decreases left
    {
      var k :| k in left;
      ghost var e := (k, m[k]);
      ListedMore(w, m, left, k);
      SerializeParamAt(b, k, m[k], before, w);
      w := w + [e];
      left := left - {k};
    }
  }

  method SerializeBufferParamAt(b: DCBuffer, k: Text, n: Nested, ghost before: seq<Byte>, ghost done: seq<(Text, Nested)>)
    requires Steady(b) && b.Contents() == before + PutAll(BufferParam(b.bigEndian), done)
    modifies b.Repr()
    ensures Steady(b) && (b.pBuf == old(b.pBuf) || fresh(b.pBuf)) && b.extracted == old(b.extracted)
    ensures b.bigEndian == old(b.bigEndian) && b.Contents() == before + PutAll(BufferParam(b.bigEndian), done + [(k, n)])
  {
    PutNext(before, BufferParam(b.bigEndian), done, (k, n));
    PutBoth(b.Contents(), TextFormat(b.bigEndian), NestedFormat(b.bigEndian), k, n);
    AppendStr(b, k);
    AppendNested(b, n);
  }

  /** The user buffers. */
  method SerializeBufferParams(b: DCBuffer, m: map<Text, Nested>) returns (ghost w: seq<(Text, Nested)>)
    requires Steady(b)
    modifies b.Repr()
    ensures Steady(b) && (b.pBuf == old(b.pBuf) || fresh(b.pBuf)) && b.extracted == old(b.extracted)
    ensures b.bigEndian == old(b.bigEndian) && b.Contents() == old(b.Contents()) + ListOf(BufferParam(b.bigEndian), b.bigEndian).put(w)
    ensures Lists(w, m) && |w| == |m|
  {
    ghost var start := b.Contents();
    AppendInt4(b, |m|);
    w := SerializeEachBufferParams(b, m);
    PutCounted(start, BufferParam(b.bigEndian), w, b.bigEndian);
  }

  method SerializeEachBufferParams(b: DCBuffer, m: map<Text, Nested>) returns (ghost w: seq<(Text, Nested)>)
    requires Steady(b)
    modifies b.Repr()
    ensures Steady(b) && (b.pBuf == old(b.pBuf) || fresh(b.pBuf)) && b.extracted == old(b.extracted)
    ensures b.bigEndian == old(b.bigEndian) && b.Contents() == old(b.Contents()) + PutAll(BufferParam(b.bigEndian), w)
    ensures Lists(w, m) && |w| == |m|
  {
    ghost var before := b.Contents();
    PutNone(before, BufferParam(b.bigEndian));
    w := [];
    var left := m.Keys;
    while left != {}
      invariant Listing(w, m, left)
      invariant Steady(b) && (b.pBuf == old(b.pBuf) || fresh(b.pBuf))
      invariant b.extracted == old(b.extracted) && b.bigEndian == old(b.bigEndian)
      invariant b.Contents() == before + PutAll(BufferParam(b.bigEndian), w)
      decreases left
    {
      var k :| k in left;
      ghost var e := (k, m[k]);
      ListedMore(w, m, left, k);
      SerializeBufferParamAt(b, k, m[k], before, w);
      w := w + [e];
      left := left - {k};
    }
  }

  method SerializeLabelAt(b: DCBuffer, s: Text, ghost before: seq<Byte>, ghost done: seq<Text>)
    requires Steady(b) && b.Contents() == before + PutAll(TextFormat(b.bigEndian), done)
    modifies b.Repr()
    ensures Steady(b) && (b.pBuf == old(b.pBuf) || fresh(b.pBuf)) && b.extracted == old(b.extracted)
    ensures b.bigEndian == old(b.bigEndian) && b.Contents() == before + PutAll(TextFormat(b.bigEndian), done + [s])
  {
    PutNext(before, TextFormat(b.bigEndian), done, s);
    AppendStr(b, s);
  }

  /** The runtime labels. */
  method SerializeLabels(b: DCBuffer, xs: seq<Text>)
    requires Steady(b)
    modifies b.Repr()
    ensures Steady(b) && (b.pBuf == old(b.pBuf) || fresh(b.pBuf)) && b.extracted == old(b.extracted)
    ensures b.bigEndian == old(b.bigEndian) && b.Contents() == old(b.Contents()) + ListOf(TextFormat(b.bigEndian), b.bigEndian).put(xs)
  {
    ghost var start := b.Contents();
    AppendInt4(b, |xs|);
    SerializeEachLabels(b, xs);
    PutCounted(start, TextFormat(b.bigEndian), xs, b.bigEndian);
  }

  method SerializeEachLabels(b: DCBuffer, xs: seq<Text>)
    requires Steady(b)
    modifies b.Repr()
    ensures Steady(b) && (b.pBuf == old(b.pBuf) || fresh(b.pBuf)) && b.extracted == old(b.extracted)
    ensures b.bigEndian == old(b.bigEndian) && b.Contents() == old(b.Contents()) + PutAll(TextFormat(b.bigEndian), xs)
  {
    ghost var before := b.Contents();
    PutNone(before, TextFormat(b.bigEndian));
    var u := 0;
    while u < |xs|
      invariant 0 <= u <= |xs|
      invariant Steady(b) && (b.pBuf == old(b.pBuf) || fresh(b.pBuf))
      invariant b.extracted == old(b.extracted) && b.bigEndian == old(b.bigEndian)
      invariant b.Contents() == before + PutAll(TextFormat(b.bigEndian), xs[..u])
    {
      NextPrefix(xs, u);
      SerializeLabelAt(b, xs[u], before, xs[..u]);
      u := u + 1;
    }
    assert xs[..u] == xs;
  }

  /** The map of one entry more. */
  lemma {:induction false} MapNext<K, V>(xs: seq<(K, V)>, i: nat)
    requires i < |xs|
    ensures MapOf(xs[..i + 1]) == MapOf(xs[..i])[xs[i].0 := xs[i].1]
  {
    assert xs[..i + 1][..i] == xs[..i];
  }

  // ---------------------------------------------------------------------------
  // Reading what has been written
  // ---------------------------------------------------------------------------

  // Every method below is given, for the proof, what was written and what follows it.

  lemma {:induction false} SplitBoth<A, B>(f: Format<A>, g: Format<B>, x: A, y: B, tail: seq<Byte>)
    ensures Both(f, g).put((x, y)) + tail == f.put(x) + (g.put(y) + tail)
  {
    Assoc(f.put(x), g.put(y), tail);
  }

  lemma {:induction false} SplitFirst<T>(f: Format<T>, xs: seq<T>, tail: seq<Byte>)
    requires xs != []
    ensures PutAll(f, xs) + tail == f.put(xs[0]) + (PutAll(f, xs[1..]) + tail)
  {
    Assoc(f.put(xs[0]), PutAll(f, xs[1..]), tail);
  }

  lemma {:induction false} SplitCount<T>(f: Format<T>, big: bool, xs: seq<T>, tail: seq<Byte>)
    ensures ListOf(f, big).put(xs) + tail == Int4(big).put(|xs|) + (PutAll(f, xs) + tail)
  {
    Assoc(Int4(big).put(|xs|), PutAll(f, xs), tail);
  }

  lemma {:induction false} RightAt<T(!new)>(f: Format<T>, x: T, rest: seq<Byte>)
    requires Right(f, x)
    ensures f.get(f.put(x) + rest) == Got(x, rest)
  {
  }

  method TakeInt4(b: DCBuffer, ghost x: int, ghost tail: seq<Byte>) returns (r: int)
    requires b.Valid() && Unread(b) == Int4(b.bigEndian).put(x) + tail && Fits4(x)
    modifies b`extracted
    ensures b.Valid() && b.bigEndian == old(b.bigEndian) && b.Contents() == old(b.Contents()) && r == x && Unread(b) == tail
  {
    Int4Right(x, b.bigEndian);
    RightAt(Int4(b.bigEndian), x, tail);
    r := ExtractInt4(b);
  }

  method TakeText(b: DCBuffer, ghost t: Text, ghost tail: seq<Byte>) returns (r: Text)
    requires b.Valid() && Unread(b) == TextFormat(b.bigEndian).put(t) + tail && FitsText(t)
    modifies b`extracted
    ensures b.Valid() && b.bigEndian == old(b.bigEndian) && b.Contents() == old(b.Contents()) && r == t && Unread(b) == tail
  {
    TextRight(t, b.bigEndian);
    RightAt(TextFormat(b.bigEndian), t, tail);
    r := ExtractText(b);
  }

  method TakeNested(b: DCBuffer, ghost n: Nested, ghost tail: seq<Byte>) returns (r: Nested)
    requires b.Valid() && Unread(b) == NestedFormat(b.bigEndian).put(n) + tail && |n.bytes| < Power256(4)
    modifies b`extracted
    ensures b.Valid() && b.bigEndian == old(b.bigEndian) && b.Contents() == old(b.Contents()) && r == n && Unread(b) == tail
  {
    NestedRight(n, b.bigEndian);
    RightAt(NestedFormat(b.bigEndian), n, tail);
    r := ExtractNested(b);
  }

  /** `Gftid_Port::deSerialize`. */
  method DeSerializeRef(b: DCBuffer, ghost x: Ref, ghost tail: seq<Byte>) returns (r: Ref)
    requires b.Valid() && Unread(b) == RefFormat(b.bigEndian).put(x) + tail && Fits4(x.0) && FitsText(x.1)
    modifies b`extracted
    ensures b.Valid() && b.bigEndian == old(b.bigEndian) && b.Contents() == old(b.Contents()) && r == x && Unread(b) == tail
  {
    SplitBoth(Int4(b.bigEndian), TextFormat(b.bigEndian), x.0, x.1, tail);
    var gftid := TakeInt4(b, x.0, TextFormat(b.bigEndian).put(x.1) + tail);
    var port := TakeText(b, x.1, tail);
    r := (gftid, port);
  }

  method DeSerializeRefAt(b: DCBuffer, ghost xs: seq<Ref>, ghost i: nat, ghost tail: seq<Byte>) returns (r: Ref)
    requires b.Valid() && i < |xs| && Unread(b) == PutAll(RefFormat(b.bigEndian), xs[i..]) + tail
    requires Fits4(xs[i].0) && FitsText(xs[i].1)
    modifies b`extracted
    ensures b.Valid() && b.bigEndian == old(b.bigEndian) && b.Contents() == old(b.Contents()) && r == xs[i] && Unread(b) == PutAll(RefFormat(b.bigEndian), xs[i + 1..]) + tail
  {
    SplitFirst(RefFormat(b.bigEndian), xs[i..], tail);
    NextSuffix(xs, i);
    ghost var more := PutAll(RefFormat(b.bigEndian), xs[i + 1..]) + tail;
    r := DeSerializeRef(b, xs[i], more);
  }

  /** `ResolvedMultiPort::deSerialize`. */
  method DeSerializeRefs(b: DCBuffer, ghost xs: seq<Ref>, ghost tail: seq<Byte>) returns (got: seq<Ref>)
    requires b.Valid() && Unread(b) == ListOf(RefFormat(b.bigEndian), b.bigEndian).put(xs) + tail && FitsRefs(xs)
    modifies b`extracted
    ensures b.Valid() && b.bigEndian == old(b.bigEndian) && b.Contents() == old(b.Contents()) && got == xs && Unread(b) == tail
  {
    SplitCount(RefFormat(b.bigEndian), b.bigEndian, xs, tail);
    var sz := TakeInt4(b, |xs|, PutAll(RefFormat(b.bigEndian), xs) + tail);
    got := DeSerializeEachRefs(b, sz, xs, tail);
  }

  method DeSerializeEachRefs(b: DCBuffer, sz: int, ghost xs: seq<Ref>, ghost tail: seq<Byte>) returns (got: seq<Ref>)
    requires b.Valid() && Unread(b) == PutAll(RefFormat(b.bigEndian), xs) + tail && sz == |xs| && FitsRefs(xs)
    modifies b`extracted
    ensures b.Valid() && b.bigEndian == old(b.bigEndian) && b.Contents() == old(b.Contents()) && got == xs && Unread(b) == tail
  {
    got := [];
    var i := 0;
    assert xs[i..] == xs;
    while i < sz
      invariant 0 <= i <= sz && b.Valid() && b.bigEndian == old(b.bigEndian) && b.Contents() == old(b.Contents())
      invariant got == xs[..i] && Unread(b) == PutAll(RefFormat(b.bigEndian), xs[i..]) + tail
    {
      NextPrefix(xs, i);
      var x := DeSerializeRefAt(b, xs, i, tail);
      got := got + [x];
      i := i + 1;
    }
    PutEnd(RefFormat(b.bigEndian), xs, i, tail);
    assert xs[..i] == xs;
  }

  method DeSerializePortAt(b: DCBuffer, ghost xs: seq<(Text, seq<Ref>)>, ghost i: nat, ghost tail: seq<Byte>) returns (r: (Text, seq<Ref>))
    requires b.Valid() && i < |xs| && Unread(b) == PutAll(Ports(b.bigEndian), xs[i..]) + tail
    requires FitsText(xs[i].0) && FitsRefs(xs[i].1)
    modifies b`extracted
    ensures b.Valid() && b.bigEndian == old(b.bigEndian) && b.Contents() == old(b.Contents()) && r == xs[i] && Unread(b) == PutAll(Ports(b.bigEndian), xs[i + 1..]) + tail
  {
    SplitFirst(Ports(b.bigEndian), xs[i..], tail);
    NextSuffix(xs, i);
    ghost var more := PutAll(Ports(b.bigEndian), xs[i + 1..]) + tail;
    ghost var refs := ListOf(RefFormat(b.bigEndian), b.bigEndian);
    SplitBoth(TextFormat(b.bigEndian), refs, xs[i].0, xs[i].1, more);
    var port := TakeText(b, xs[i].0, refs.put(xs[i].1) + more);
    var rs := DeSerializeRefs(b, xs[i].1, more);
    r := (port, rs);
  }

  method DeSerializeOuts(b: DCBuffer, ghost xs: seq<(Text, seq<Ref>)>, ghost tail: seq<Byte>) returns (got: map<Text, seq<Ref>>)
    requires b.Valid() && Unread(b) == ListOf(Ports(b.bigEndian), b.bigEndian).put(xs) + tail && FitsPorts(xs)
    modifies b`extracted
    ensures b.Valid() && b.bigEndian == old(b.bigEndian) && b.Contents() == old(b.Contents()) && got == MapOf(xs) && Unread(b) == tail
  {
    SplitCount(Ports(b.bigEndian), b.bigEndian, xs, tail);
    var sz := TakeInt4(b, |xs|, PutAll(Ports(b.bigEndian), xs) + tail);
    got := DeSerializeEachOuts(b, sz, xs, tail);
  }

  method DeSerializeEachOuts(b: DCBuffer, sz: int, ghost xs: seq<(Text, seq<Ref>)>, ghost tail: seq<Byte>) returns (got: map<Text, seq<Ref>>)
    requires b.Valid() && Unread(b) == PutAll(Ports(b.bigEndian), xs) + tail && sz == |xs| && FitsPorts(xs)
    modifies b`extracted
    ensures b.Valid() && b.bigEndian == old(b.bigEndian) && b.Contents() == old(b.Contents()) && got == MapOf(xs) && Unread(b) == tail
  {
    got := map[];
    var i := 0;
    assert xs[i..] == xs;
    while i < sz
      invariant 0 <= i <= sz && b.Valid() && b.bigEndian == old(b.bigEndian) && b.Contents() == old(b.Contents())
      invariant got == MapOf(xs[..i]) && Unread(b) == PutAll(Ports(b.bigEndian), xs[i..]) + tail
    {
      var x := DeSerializePortAt(b, xs, i, tail);
      MapNext(xs, i);
      got := got[x.0 := x.1];
      i := i + 1;
    }
    PutEnd(Ports(b.bigEndian), xs, i, tail);
    assert xs[..i] == xs;
  }

  /** Every in-port gets the set of what is read for it. */
  method DeSerializeIns(b: DCBuffer, ghost xs: seq<(Text, seq<Ref>)>, ghost tail: seq<Byte>) returns (got: map<Text, set<Ref>>)
    requires b.Valid() && Unread(b) == ListOf(Ports(b.bigEndian), b.bigEndian).put(xs) + tail && FitsPorts(xs)
    modifies b`extracted
    ensures b.Valid() && b.bigEndian == old(b.bigEndian) && b.Contents() == old(b.Contents())
    ensures got == MapOf(SetEntries(xs)) && Unread(b) == tail
  {
    SplitCount(Ports(b.bigEndian), b.bigEndian, xs, tail);
    var sz := TakeInt4(b, |xs|, PutAll(Ports(b.bigEndian), xs) + tail);
    assert xs[0..] == xs;
    got := DeSerializeEachIns(b, sz, xs, SetEntries(xs), tail);
    PutEnd(Ports(b.bigEndian), xs, sz, tail);
    assert SetEntries(xs)[..sz] == SetEntries(xs);
  }

  /** One more in-port of a map. */
  method DeSerializeInPortAt(b: DCBuffer, before: map<Text, set<Ref>>, ghost xs: seq<(Text, seq<Ref>)>,
                             ghost entries: seq<(Text, set<Ref>)>, ghost i: nat, ghost tail: seq<Byte>)
    returns (got: map<Text, set<Ref>>)
    requires b.Valid() && i < |xs| && Unread(b) == PutAll(Ports(b.bigEndian), xs[i..]) + tail && entries == SetEntries(xs)
    requires FitsText(xs[i].0) && FitsRefs(xs[i].1) && before == MapOf(entries[..i])
    modifies b`extracted
    ensures b.Valid() && b.bigEndian == old(b.bigEndian) && b.Contents() == old(b.Contents())
    ensures got == MapOf(entries[..i + 1]) && Unread(b) == PutAll(Ports(b.bigEndian), xs[i + 1..]) + tail
  {
    var x := DeSerializePortAt(b, xs, i, tail);
    MapNext(entries, i);
    got := before[x.0 := SetOf(x.1)];
  }

  method DeSerializeEachIns(b: DCBuffer, sz: int, ghost xs: seq<(Text, seq<Ref>)>, ghost entries: seq<(Text, set<Ref>)>,
                            ghost tail: seq<Byte>)
    returns (got: map<Text, set<Ref>>)
    requires b.Valid() && Unread(b) == PutAll(Ports(b.bigEndian), xs[0..]) + tail && sz == |xs| && FitsPorts(xs)
    requires entries == SetEntries(xs)
    modifies b`extracted
    ensures b.Valid() && b.bigEndian == old(b.bigEndian) && b.Contents() == old(b.Contents())
    ensures got == MapOf(entries[..sz]) && Unread(b) == PutAll(Ports(b.bigEndian), xs[sz..]) + tail
  {
    got := map[];
    var i := 0;
    while i < sz
      invariant 0 <= i <= sz && b.Valid() && b.bigEndian == old(b.bigEndian) && b.Contents() == old(b.Contents())
      invariant got == MapOf(entries[..i]) && Unread(b) == PutAll(Ports(b.bigEndian), xs[i..]) + tail
    {
      got := DeSerializeInPortAt(b, got, xs, entries, i, tail);
      i := i + 1;
    }
  }

  method DeSerializeParamAt(b: DCBuffer, ghost xs: seq<(Text, Text)>, ghost i: nat, ghost tail: seq<Byte>) returns (r: (Text, Text))
    requires b.Valid() && i < |xs| && Unread(b) == PutAll(Param(b.bigEndian), xs[i..]) + tail
    requires FitsText(xs[i].0) && FitsText(xs[i].1)
    modifies b`extracted
    ensures b.Valid() && b.bigEndian == old(b.bigEndian) && b.Contents() == old(b.Contents()) && r == xs[i] && Unread(b) == PutAll(Param(b.bigEndian), xs[i + 1..]) + tail
  {
    SplitFirst(Param(b.bigEndian), xs[i..], tail);
    NextSuffix(xs, i);
    ghost var more := PutAll(Param(b.bigEndian), xs[i + 1..]) + tail;
    SplitBoth(TextFormat(b.bigEndian), TextFormat(b.bigEndian), xs[i].0, xs[i].1, more);
    var k := TakeText(b, xs[i].0, TextFormat(b.bigEndian).put(xs[i].1) + more);
    var v := TakeText(b, xs[i].1, more);
    r := (k, v);
  }

  method DeSerializeParams(b: DCBuffer, ghost xs: seq<(Text, Text)>, ghost tail: seq<Byte>) returns (got: map<Text, Text>)
    requires b.Valid() && Unread(b) == ListOf(Param(b.bigEndian), b.bigEndian).put(xs) + tail && FitsParams(xs)
    modifies b`extracted
    ensures b.Valid() && b.bigEndian == old(b.bigEndian) && b.Contents() == old(b.Contents()) && got == MapOf(xs) && Unread(b) == tail
  {
    SplitCount(Param(b.bigEndian), b.bigEndian, xs, tail);
    var sz := TakeInt4(b, |xs|, PutAll(Param(b.bigEndian), xs) + tail);
    got := DeSerializeEachParams(b, sz, xs, tail);
  }

  method DeSerializeEachParams(b: DCBuffer, sz: int, ghost xs: seq<(Text, Text)>, ghost tail: seq<Byte>) returns (got: map<Text, Text>)
    requires b.Valid() && Unread(b) == PutAll(Param(b.bigEndian), xs) + tail && sz == |xs| && FitsParams(xs)
    modifies b`extracted
    ensures b.Valid() && b.bigEndian == old(b.bigEndian) && b.Contents() == old(b.Contents()) && got == MapOf(xs) && Unread(b) == tail
  {
    got := map[];
    var i := 0;
    assert xs[i..] == xs;
    while i < sz
      invariant 0 <= i <= sz && b.Valid() && b.bigEndian == old(b.bigEndian) && b.Contents() == old(b.Contents())
      invariant got == MapOf(xs[..i]) && Unread(b) == PutAll(Param(b.bigEndian), xs[i..]) + tail
    {
      var x := DeSerializeParamAt(b, xs, i, tail);
      MapNext(xs, i);
      got := got[x.0 := x.1];
      i := i + 1;
    }
    PutEnd(Param(b.bigEndian), xs, i, tail);
    assert xs[..i] == xs;
  }

  method DeSerializeBufferParamAt(b: DCBuffer, ghost xs: seq<(Text, Nested)>, ghost i: nat, ghost tail: seq<Byte>) returns (r: (Text, Nested))
    requires b.Valid() && i < |xs| && Unread(b) == PutAll(BufferParam(b.bigEndian), xs[i..]) + tail
    requires FitsText(xs[i].0) && |xs[i].1.bytes| < Power256(4)
    modifies b`extracted
    ensures b.Valid() && b.bigEndian == old(b.bigEndian) && b.Contents() == old(b.Contents()) && r == xs[i] && Unread(b) == PutAll(BufferParam(b.bigEndian), xs[i + 1..]) + tail
  {
    SplitFirst(BufferParam(b.bigEndian), xs[i..], tail);
    NextSuffix(xs, i);
    ghost var more := PutAll(BufferParam(b.bigEndian), xs[i + 1..]) + tail;
    SplitBoth(TextFormat(b.bigEndian), NestedFormat(b.bigEndian), xs[i].0, xs[i].1, more);
    var k := TakeText(b, xs[i].0, NestedFormat(b.bigEndian).put(xs[i].1) + more);
    var n := TakeNested(b, xs[i].1, more);
    r := (k, n);
  }

  method DeSerializeBufferParams(b: DCBuffer, ghost xs: seq<(Text, Nested)>, ghost tail: seq<Byte>) returns (got: map<Text, Nested>)
    requires b.Valid() && Unread(b) == ListOf(BufferParam(b.bigEndian), b.bigEndian).put(xs) + tail && FitsBuffers(xs)
    modifies b`extracted
    ensures b.Valid() && b.bigEndian == old(b.bigEndian) && b.Contents() == old(b.Contents()) && got == MapOf(xs) && Unread(b) == tail
  {
    SplitCount(BufferParam(b.bigEndian), b.bigEndian, xs, tail);
    var sz := TakeInt4(b, |xs|, PutAll(BufferParam(b.bigEndian), xs) + tail);
    got := DeSerializeEachBufferParams(b, sz, xs, tail);
  }

  method DeSerializeEachBufferParams(b: DCBuffer, sz: int, ghost xs: seq<(Text, Nested)>, ghost tail: seq<Byte>) returns (got: map<Text, Nested>)
    requires b.Valid() && Unread(b) == PutAll(BufferParam(b.bigEndian), xs) + tail && sz == |xs| && FitsBuffers(xs)
    modifies b`extracted
    ensures b.Valid() && b.bigEndian == old(b.bigEndian) && b.Contents() == old(b.Contents()) && got == MapOf(xs) && Unread(b) == tail
  {
    got := map[];
    var i := 0;
    assert xs[i..] == xs;
    while i < sz
      invariant 0 <= i <= sz && b.Valid() && b.bigEndian == old(b.bigEndian) && b.Contents() == old(b.Contents())
      invariant got == MapOf(xs[..i]) && Unread(b) == PutAll(BufferParam(b.bigEndian), xs[i..]) + tail
    {
      var x := DeSerializeBufferParamAt(b, xs, i, tail);
      MapNext(xs, i);
      got := got[x.0 := x.1];
      i := i + 1;
    }
    PutEnd(BufferParam(b.bigEndian), xs, i, tail);
    assert xs[..i] == xs;
  }

  method DeSerializeLabelAt(b: DCBuffer, ghost xs: seq<Text>, ghost i: nat, ghost tail: seq<Byte>) returns (r: Text)
    requires b.Valid() && i < |xs| && Unread(b) == PutAll(TextFormat(b.bigEndian), xs[i..]) + tail
    requires FitsText(xs[i])
    modifies b`extracted
    ensures b.Valid() && b.bigEndian == old(b.bigEndian) && b.Contents() == old(b.Contents()) && r == xs[i] && Unread(b) == PutAll(TextFormat(b.bigEndian), xs[i + 1..]) + tail
  {
    SplitFirst(TextFormat(b.bigEndian), xs[i..], tail);
    NextSuffix(xs, i);
    ghost var more := PutAll(TextFormat(b.bigEndian), xs[i + 1..]) + tail;
    r := TakeText(b, xs[i], more);
  }

  method DeSerializeLabels(b: DCBuffer, ghost xs: seq<Text>, ghost tail: seq<Byte>) returns (got: seq<Text>)
    requires b.Valid() && Unread(b) == ListOf(TextFormat(b.bigEndian), b.bigEndian).put(xs) + tail && FitsTexts(xs)
    modifies b`extracted
    ensures b.Valid() && b.bigEndian == old(b.bigEndian) && b.Contents() == old(b.Contents()) && got == xs && Unread(b) == tail
  {
    SplitCount(TextFormat(b.bigEndian), b.bigEndian, xs, tail);
    var sz := TakeInt4(b, |xs|, PutAll(TextFormat(b.bigEndian), xs) + tail);
    got := DeSerializeEachLabels(b, sz, xs, tail);
  }

  method DeSerializeEachLabels(b: DCBuffer, sz: int, ghost xs: seq<Text>, ghost tail: seq<Byte>) returns (got: seq<Text>)
    requires b.Valid() && Unread(b) == PutAll(TextFormat(b.bigEndian), xs) + tail && sz == |xs| && FitsTexts(xs)
    modifies b`extracted
    ensures b.Valid() && b.bigEndian == old(b.bigEndian) && b.Contents() == old(b.Contents()) && got == xs && Unread(b) == tail
  {
    got := [];
    var i := 0;
    assert xs[i..] == xs;
    while i < sz
      invariant 0 <= i <= sz && b.Valid() && b.bigEndian == old(b.bigEndian) && b.Contents() == old(b.Contents())
      invariant got == xs[..i] && Unread(b) == PutAll(TextFormat(b.bigEndian), xs[i..]) + tail
    {
      NextPrefix(xs, i);
      var x := DeSerializeLabelAt(b, xs, i, tail);
      got := got + [x];
      i := i + 1;
    }
    PutEnd(TextFormat(b.bigEndian), xs, i, tail);
    assert xs[..i] == xs;
  }

  // ---------------------------------------------------------------------------
  // Filter instances
  // ---------------------------------------------------------------------------

  lemma {:induction false} Put3<A, B, C>(before: seq<Byte>, f: Format<A>, g: Format<B>, h: Format<C>, x: A, y: B, z: C)
    ensures ((before + f.put(x)) + g.put(y)) + h.put(z) == before + Both(f, Both(g, h)).put((x, (y, z)))
  {
    PutBoth(before + f.put(x), g, h, y, z);
    PutBoth(before, f, Both(g, h), x, (y, z));
  }

  /** w is how the code writes x: maps and sets completely and without repetition. */
  ghost predicate Written(w: Wire, x: Instance) {
    && Writes(w, x) && Ordered(w.ins, x.ins)
    && |w.outs| == |x.outs| && |w.ins| == |x.ins| && |w.params| == |x.params| && |w.bufferParams| == |x.bufferParams|
  }

  /** What fits into the lengths and numbers of the format. */
  ghost predicate FitsInstance(x: Instance) {
    && FitsText(x.heritage) && FitsText(x.filtername) && FitsText(x.instancename)
    && Fits4(x.copyRank) && Fits4(x.numCopies) && Fits4(x.localCopyRank) && Fits4(x.localNumCopies) && Fits4(x.gftid)
    && |x.outs| < Int4Limit && (forall k :: k in x.outs ==> FitsText(k) && FitsRefs(x.outs[k]))
    && |x.ins| < Int4Limit && (forall k :: k in x.ins ==> FitsText(k) && FitsRefSet(x.ins[k]))
    && |x.params| < Int4Limit && (forall k :: k in x.params ==> FitsText(k) && FitsText(x.params[k]))
    && |x.bufferParams| < Int4Limit
    && (forall k :: k in x.bufferParams ==> FitsText(k) && |x.bufferParams[k].bytes| < Power256(4))
    && Fits4(x.rank) && Fits4(x.clusterRank) && FitsText(x.host) && FitsText(x.givenBindHost) && FitsTexts(x.labels)
  }

  ghost predicate FitsRefSet(s: set<Ref>) {
    |s| < Int4Limit && forall r :: r in s ==> Fits4(r.0) && FitsText(r.1)
  }

  lemma {:induction false} WrittenFits(w: Wire, x: Instance)
    requires Written(w, x) && FitsInstance(x)
    ensures FitsWire(w)
  {
    forall i | 0 <= i < |w.ins|
      ensures FitsText(w.ins[i].0) && FitsRefs(w.ins[i].1)
    {
      InsFit(w.ins[i].1, x.ins[w.ins[i].0]);
    }
    OutsFit(w, x);
  }

  lemma {:induction false} InsFit(rs: seq<Ref>, s: set<Ref>)
    requires SetOf(rs) == s && |rs| == |s| && FitsRefSet(s)
    ensures FitsRefs(rs)
  {
    forall i | 0 <= i < |rs|
      ensures rs[i] in s
    {
      assert rs[i] in SetOf(rs);
    }
  }

  lemma {:induction false} OutsFit(w: Wire, x: Instance)
    requires Written(w, x) && FitsInstance(x)
    ensures FitsPorts(w.outs) && FitsParams(w.params) && FitsBuffers(w.bufferParams)
  {
  }

  method SerializeNames(b: DCBuffer, x: Instance)
    requires Steady(b)
    modifies b.Repr()
    ensures Steady(b) && (b.pBuf == old(b.pBuf) || fresh(b.pBuf)) && b.extracted == old(b.extracted)
    ensures b.bigEndian == old(b.bigEndian) && b.Contents() == old(b.Contents()) + Names(b.bigEndian).put(NamesOf(x))
  {
    ghost var text := TextFormat(b.bigEndian);
    Put3(b.Contents(), text, text, text, x.heritage, x.filtername, x.instancename);
    AppendStr(b, x.heritage);
    AppendStr(b, x.filtername);
    AppendStr(b, x.instancename);
  }

  method SerializeCounts(b: DCBuffer, x: Instance)
    requires Steady(b)
    modifies b.Repr()
    ensures Steady(b) && (b.pBuf == old(b.pBuf) || fresh(b.pBuf)) && b.extracted == old(b.extracted)
    ensures b.bigEndian == old(b.bigEndian) && b.Contents() == old(b.Contents()) + Counts(b.bigEndian).put(CountsOf(x))
  {
    ghost var int4, last := Int4(b.bigEndian), LastCounts(b.bigEndian);
    Put3(b.Contents(), int4, int4, last, x.copyRank, x.numCopies, CountsOf(x).1.1);
    AppendInt4(b, x.copyRank);
    AppendInt4(b, x.numCopies);
    SerializeLastCounts(b, x);
  }

  method SerializeLastCounts(b: DCBuffer, x: Instance)
    requires Steady(b)
    modifies b.Repr()
    ensures Steady(b) && (b.pBuf == old(b.pBuf) || fresh(b.pBuf)) && b.extracted == old(b.extracted)
    ensures b.bigEndian == old(b.bigEndian)
    ensures b.Contents() == old(b.Contents()) + LastCounts(b.bigEndian).put((x.localCopyRank, (x.localNumCopies, x.gftid)))
  {
    ghost var int4 := Int4(b.bigEndian);
    Put3(b.Contents(), int4, int4, int4, x.localCopyRank, x.localNumCopies, x.gftid);
    AppendInt4(b, x.localCopyRank);
    AppendInt4(b, x.localNumCopies);
    AppendInt4(b, x.gftid);
  }

  function CountsOf(x: Instance): (int, (int, (int, (int, int)))) {
    (x.copyRank, (x.numCopies, (x.localCopyRank, (x.localNumCopies, x.gftid))))
  }

  function LastCounts(big: bool): Format<(int, (int, int))> { Both(Int4(big), Both(Int4(big), Int4(big))) }

  function UserMaps(big: bool): Format<(seq<(Text, Text)>, seq<(Text, Nested)>)> {
    Both(ListOf(Param(big), big), ListOf(BufferParam(big), big))
  }

  function Hosts(big: bool): Format<(Text, (Text, seq<Text>))> {
    Both(TextFormat(big), Both(TextFormat(big), ListOf(TextFormat(big), big)))
  }

  function PlaceOf(x: Instance): (int, (int, (Text, (Text, seq<Text>)))) {
    (x.rank, (x.clusterRank, (x.host, (x.givenBindHost, x.labels))))
  }

  /** The lists name the maps of x completely and without repetition. */
  ghost predicate MapsWritten(m: Maps, x: Instance) {
    && Lists(m.0, x.outs) && |m.0| == |x.outs|
    && Lists(SetEntries(m.1.0), x.ins) && |m.1.0| == |x.ins| && Ordered(m.1.0, x.ins)
    && UserMapsWritten(m.1.1, x)
  }

  ghost predicate UserMapsWritten(m: (seq<(Text, Text)>, seq<(Text, Nested)>), x: Instance) {
    Lists(m.0, x.params) && |m.0| == |x.params| && Lists(m.1, x.bufferParams) && |m.1| == |x.bufferParams|
  }

  method SerializeMaps(b: DCBuffer, x: Instance) returns (ghost m: Maps)
    requires Steady(b)
    modifies b.Repr()
    ensures Steady(b) && (b.pBuf == old(b.pBuf) || fresh(b.pBuf)) && b.extracted == old(b.extracted)
    ensures b.bigEndian == old(b.bigEndian) && b.Contents() == old(b.Contents()) + MapsFormat(b.bigEndian).put(m)
    ensures MapsWritten(m, x)
  {
    ghost var start, ports := b.Contents(), ListOf(Ports(b.bigEndian), b.bigEndian);
    ghost var outs, ins := SerializePorts(b, x);
    ghost var user := SerializeUserMaps(b, x);
    Put3(start, ports, ports, UserMaps(b.bigEndian), outs, ins, user);
    m := (outs, (ins, user));
  }

  method SerializePorts(b: DCBuffer, x: Instance) returns (ghost outs: seq<(Text, seq<Ref>)>, ghost ins: seq<(Text, seq<Ref>)>)
    requires Steady(b)
    modifies b.Repr()
    ensures Steady(b) && (b.pBuf == old(b.pBuf) || fresh(b.pBuf)) && b.extracted == old(b.extracted)
    ensures b.bigEndian == old(b.bigEndian)
    ensures var ports := ListOf(Ports(b.bigEndian), b.bigEndian);
            b.Contents() == (old(b.Contents()) + ports.put(outs)) + ports.put(ins)
    ensures Lists(outs, x.outs) && |outs| == |x.outs|
    ensures Lists(SetEntries(ins), x.ins) && |ins| == |x.ins| && Ordered(ins, x.ins)
  {
    outs := SerializeOuts(b, x.outs);
    ins := SerializeIns(b, x.ins);
  }

  method SerializeUserMaps(b: DCBuffer, x: Instance) returns (ghost m: (seq<(Text, Text)>, seq<(Text, Nested)>))
    requires Steady(b)
    modifies b.Repr()
    ensures Steady(b) && (b.pBuf == old(b.pBuf) || fresh(b.pBuf)) && b.extracted == old(b.extracted)
    ensures b.bigEndian == old(b.bigEndian) && b.Contents() == old(b.Contents()) + UserMaps(b.bigEndian).put(m)
    ensures UserMapsWritten(m, x)
  {
    ghost var start, big := b.Contents(), b.bigEndian;
    ghost var params := SerializeParams(b, x.params);
    ghost var bufferParams := SerializeBufferParams(b, x.bufferParams);
    PutBoth(start, ListOf(Param(big), big), ListOf(BufferParam(big), big), params, bufferParams);
    m := (params, bufferParams);
  }

  method SerializePlace(b: DCBuffer, x: Instance)
    requires Steady(b)
    modifies b.Repr()
    ensures Steady(b) && (b.pBuf == old(b.pBuf) || fresh(b.pBuf)) && b.extracted == old(b.extracted)
    ensures b.bigEndian == old(b.bigEndian) && b.Contents() == old(b.Contents()) + Place(b.bigEndian).put(PlaceOf(x))
  {
    ghost var int4 := Int4(b.bigEndian);
    Put3(b.Contents(), int4, int4, Hosts(b.bigEndian), x.rank, x.clusterRank, PlaceOf(x).1.1);
    AppendInt4(b, x.rank);
    AppendInt4(b, x.clusterRank);
    SerializeHosts(b, x);
  }

  method SerializeHosts(b: DCBuffer, x: Instance)
    requires Steady(b)
    modifies b.Repr()
    ensures Steady(b) && (b.pBuf == old(b.pBuf) || fresh(b.pBuf)) && b.extracted == old(b.extracted)
    ensures b.bigEndian == old(b.bigEndian)
    ensures b.Contents() == old(b.Contents()) + Hosts(b.bigEndian).put((x.host, (x.givenBindHost, x.labels)))
  {
    ghost var text := TextFormat(b.bigEndian);
    Put3(b.Contents(), text, text, ListOf(text, b.bigEndian), x.host, x.givenBindHost, x.labels);
    AppendStr(b, x.host);
    AppendStr(b, x.givenBindHost);
    SerializeLabels(b, x.labels);
  }

  method SerializeRest(b: DCBuffer, x: Instance, ghost before: seq<Byte>) returns (ghost m: Maps)
    requires Steady(b) && b.Contents() == before
    modifies b.Repr()
    ensures Steady(b) && (b.pBuf == old(b.pBuf) || fresh(b.pBuf)) && b.extracted == old(b.extracted)
    ensures b.bigEndian == old(b.bigEndian)
    ensures b.Contents() == before + Both(MapsFormat(b.bigEndian), Place(b.bigEndian)).put((m, PlaceOf(x)))
    ensures MapsWritten(m, x)
  {
    m := SerializeMaps(b, x);
    SerializePlace(b, x);
    PutBoth(before, MapsFormat(b.bigEndian), Place(b.bigEndian), m, PlaceOf(x));
  }

  function WireOf(x: Instance, m: Maps): Wire {
    Wire(x.heritage, x.filtername, x.instancename, x.copyRank, x.numCopies, x.localCopyRank, x.localNumCopies, x.gftid,
         m.0, m.1.0, m.1.1.0, m.1.1.1, x.rank, x.clusterRank, x.host, x.givenBindHost, x.labels)
  }

  function NamesOf(x: Instance): (Text, (Text, Text)) { (x.heritage, (x.filtername, x.instancename)) }

  lemma {:induction false} WireOfWritten(x: Instance, m: Maps)
    requires MapsWritten(m, x)
    ensures Written(WireOf(x, m), x)
  {
  }

  lemma {:induction false} WirePut(w: Wire, big: bool)
    ensures WireFormat(big).put(w) == PartsFormat(big).put(PartsOf(w))
  {
  }

  lemma {:induction false} WirePieces(before: seq<Byte>, x: Instance, m: Maps, big: bool)
    ensures ((before + Names(big).put(NamesOf(x))) + Counts(big).put(CountsOf(x))) + Both(MapsFormat(big), Place(big)).put((m, PlaceOf(x)))
         == before + WireFormat(big).put(WireOf(x, m))
  {
    Put3(before, Names(big), Counts(big), Both(MapsFormat(big), Place(big)), NamesOf(x), CountsOf(x), (m, PlaceOf(x)));
    WirePut(WireOf(x, m), big);
    assert m == (m.0, (m.1.0, (m.1.1.0, m.1.1.1)));
    assert PartsOf(WireOf(x, m)) == (NamesOf(x), (CountsOf(x), (m, PlaceOf(x))));
  }

  /** `DCFilterInstance::serialize`. */
  method Serialize(b: DCBuffer, x: Instance) returns (ghost w: Wire)
    requires Steady(b)
    modifies b.Repr()
    ensures Steady(b) && (b.pBuf == old(b.pBuf) || fresh(b.pBuf)) && b.extracted == old(b.extracted)
    ensures b.bigEndian == old(b.bigEndian) && b.Contents() == old(b.Contents()) + WireFormat(b.bigEndian).put(w)
    ensures Written(w, x)
  {
    ghost var start, big := b.Contents(), b.bigEndian;
    ghost var m := SerializeParts(b, x);
    w := WireOf(x, m);
    assert b.Contents() == start + WireFormat(big).put(w) by { WirePieces(start, x, m, big); }
    assert Written(w, x) by { WireOfWritten(x, m); }
  }

  method SerializeParts(b: DCBuffer, x: Instance) returns (ghost m: Maps)
    requires Steady(b)
    modifies b.Repr()
    ensures Steady(b) && (b.pBuf == old(b.pBuf) || fresh(b.pBuf)) && b.extracted == old(b.extracted)
    ensures b.bigEndian == old(b.bigEndian)
    ensures MapsWritten(m, x)
    ensures b.Contents() == ((old(b.Contents()) + Names(b.bigEndian).put(NamesOf(x))) + Counts(b.bigEndian).put(CountsOf(x)))
                          + Both(MapsFormat(b.bigEndian), Place(b.bigEndian)).put((m, PlaceOf(x)))
  {
    ghost var start, big := b.Contents(), b.bigEndian;
    SerializeHead(b, x);
    m := SerializeRest(b, x, (start + Names(big).put(NamesOf(x))) + Counts(big).put(CountsOf(x)));
  }

  method SerializeHead(b: DCBuffer, x: Instance)
    requires Steady(b)
    modifies b.Repr()
    ensures Steady(b) && (b.pBuf == old(b.pBuf) || fresh(b.pBuf)) && b.extracted == old(b.extracted)
    ensures b.bigEndian == old(b.bigEndian)
    ensures b.Contents() == (old(b.Contents()) + Names(b.bigEndian).put(NamesOf(x))) + Counts(b.bigEndian).put(CountsOf(x))
  {
    SerializeNames(b, x);
    SerializeCounts(b, x);
  }

  method DeSerializeNames(b: DCBuffer, ghost big: bool, ghost x: (Text, (Text, Text)), ghost tail: seq<Byte>) returns (r: (Text, (Text, Text)))
    requires b.Valid() && b.bigEndian == big && Unread(b) == Names(big).put(x) + tail
    requires FitsNames(x)
    modifies b`extracted
    ensures b.Valid() && b.bigEndian == big && b.Contents() == old(b.Contents()) && r == x && Unread(b) == tail
  {
    ghost var text := TextFormat(big);
    SplitBoth(text, Both(text, text), x.0, x.1, tail);
    SplitBoth(text, text, x.1.0, x.1.1, tail);
    var heritage := TakeText(b, x.0, Both(text, text).put(x.1) + tail);
    var filtername := TakeText(b, x.1.0, text.put(x.1.1) + tail);
    var instancename := TakeText(b, x.1.1, tail);
    r := (heritage, (filtername, instancename));
  }

  method DeSerializeCounts(b: DCBuffer, ghost big: bool, ghost x: (int, (int, (int, (int, int)))), ghost tail: seq<Byte>)
    returns (r: (int, (int, (int, (int, int)))))
    requires b.Valid() && b.bigEndian == big && Unread(b) == Counts(big).put(x) + tail
    requires FitsCounts(x)
    modifies b`extracted
    ensures b.Valid() && b.bigEndian == big && b.Contents() == old(b.Contents()) && r == x && Unread(b) == tail
  {
    ghost var int4 := Int4(big);
    ghost var two := Both(int4, int4);
    ghost var three := Both(int4, two);
    ghost var four := Both(int4, three);
    SplitBoth(int4, four, x.0, x.1, tail);
    SplitBoth(int4, three, x.1.0, x.1.1, tail);
    SplitBoth(int4, two, x.1.1.0, x.1.1.1, tail);
    SplitBoth(int4, int4, x.1.1.1.0, x.1.1.1.1, tail);
    var copyRank := TakeInt4(b, x.0, four.put(x.1) + tail);
    var numCopies := TakeInt4(b, x.1.0, three.put(x.1.1) + tail);
    var localCopyRank := TakeInt4(b, x.1.1.0, two.put(x.1.1.1) + tail);
    var localNumCopies := TakeInt4(b, x.1.1.1.0, int4.put(x.1.1.1.1) + tail);
    var gftid := TakeInt4(b, x.1.1.1.1, tail);
    r := (copyRank, (numCopies, (localCopyRank, (localNumCopies, gftid))));
  }

  method DeSerializeMaps(b: DCBuffer, ghost big: bool, ghost m: Maps, ghost tail: seq<Byte>)
    returns (outs: map<Text, seq<Ref>>, ins: map<Text, set<Ref>>, params: map<Text, Text>, bufferParams: map<Text, Nested>)
    requires b.Valid() && b.bigEndian == big && Unread(b) == MapsFormat(big).put(m) + tail
    requires FitsMaps(m)
    modifies b`extracted
    ensures b.Valid() && b.bigEndian == big && b.Contents() == old(b.Contents()) && Unread(b) == tail
    ensures outs == MapOf(m.0) && ins == MapOf(SetEntries(m.1.0)) && params == MapOf(m.1.1.0) && bufferParams == MapOf(m.1.1.1)
  {
    ghost var ports, user := ListOf(Ports(big), big), UserMaps(big);
    SplitBoth(ports, Both(ports, user), m.0, m.1, tail);
    SplitBoth(ports, user, m.1.0, m.1.1, tail);
    outs := DeSerializeOuts(b, m.0, Both(ports, user).put(m.1) + tail);
    ins := DeSerializeIns(b, m.1.0, user.put(m.1.1) + tail);
    params, bufferParams := DeSerializeUserMaps(b, big, m.1.1, tail);
  }

  method DeSerializeUserMaps(b: DCBuffer, ghost big: bool, ghost m: (seq<(Text, Text)>, seq<(Text, Nested)>), ghost tail: seq<Byte>)
    returns (params: map<Text, Text>, bufferParams: map<Text, Nested>)
    requires b.Valid() && b.bigEndian == big && Unread(b) == UserMaps(big).put(m) + tail && FitsParams(m.0) && FitsBuffers(m.1)
    modifies b`extracted
    ensures b.Valid() && b.bigEndian == big && b.Contents() == old(b.Contents()) && Unread(b) == tail
    ensures params == MapOf(m.0) && bufferParams == MapOf(m.1)
  {
    ghost var texts, buffers := ListOf(Param(big), big), ListOf(BufferParam(big), big);
    SplitBoth(texts, buffers, m.0, m.1, tail);
    params := DeSerializeParams(b, m.0, buffers.put(m.1) + tail);
    bufferParams := DeSerializeBufferParams(b, m.1, tail);
  }

  method DeSerializePlace(b: DCBuffer, ghost big: bool, ghost x: (int, (int, (Text, (Text, seq<Text>)))), ghost tail: seq<Byte>)
    returns (r: (int, (int, (Text, (Text, seq<Text>)))))
    requires b.Valid() && b.bigEndian == big && Unread(b) == Place(big).put(x) + tail
    requires FitsPlace(x)
    modifies b`extracted
    ensures b.Valid() && b.bigEndian == big && b.Contents() == old(b.Contents()) && r == x && Unread(b) == tail
  {
    ghost var int4, text := Int4(big), TextFormat(big);
    ghost var labels := ListOf(text, big);
    ghost var two := Both(text, labels);
    ghost var three := Both(text, two);
    ghost var four := Both(int4, three);
    SplitBoth(int4, four, x.0, x.1, tail);
    SplitBoth(int4, three, x.1.0, x.1.1, tail);
    SplitBoth(text, two, x.1.1.0, x.1.1.1, tail);
    SplitBoth(text, labels, x.1.1.1.0, x.1.1.1.1, tail);
    var rank := TakeInt4(b, x.0, four.put(x.1) + tail);
    var clusterRank := TakeInt4(b, x.1.0, three.put(x.1.1) + tail);
    var host := TakeText(b, x.1.1.0, two.put(x.1.1.1) + tail);
    var givenBindHost := TakeText(b, x.1.1.1.0, labels.put(x.1.1.1.1) + tail);
    var runtimeLabels := DeSerializeLabels(b, x.1.1.1.1, tail);
    r := (rank, (clusterRank, (host, (givenBindHost, runtimeLabels))));
  }

  type Places = (int, (int, (Text, (Text, seq<Text>))))

  ghost predicate FitsMaps(m: Maps) {
    FitsPorts(m.0) && FitsPorts(m.1.0) && FitsParams(m.1.1.0) && FitsBuffers(m.1.1.1)
  }

  ghost predicate FitsPlace(x: Places) {
    Fits4(x.0) && Fits4(x.1.0) && FitsText(x.1.1.0) && FitsText(x.1.1.1.0) && FitsTexts(x.1.1.1.1)
  }

  ghost predicate FitsNames(x: (Text, (Text, Text))) { FitsText(x.0) && FitsText(x.1.0) && FitsText(x.1.1) }

  ghost predicate FitsCounts(x: (int, (int, (int, (int, int))))) {
    Fits4(x.0) && Fits4(x.1.0) && Fits4(x.1.1.0) && Fits4(x.1.1.1.0) && Fits4(x.1.1.1.1)
  }

  ghost predicate FitsParts(p: Parts) {
    FitsNames(p.0) && FitsCounts(p.1.0) && FitsMaps(p.1.1.0) && FitsPlace(p.1.1.1)
  }

  /** The instance that the parts amount to. */
  function Built(x: Parts): Instance {
    var n, c, m, p := x.0, x.1.0, x.1.1.0, x.1.1.1;
    Instance(n.0, n.1.0, n.1.1, c.0, c.1.0, c.1.1.0, c.1.1.1.0, c.1.1.1.1,
             MapOf(m.0), MapOf(SetEntries(m.1.0)), MapOf(m.1.1.0), MapOf(m.1.1.1),
             p.0, p.1.0, p.1.1.0, p.1.1.1.0, p.1.1.1.1)
  }

  lemma {:induction false} BuiltIsRestored(w: Wire)
    requires FitsWire(w)
    ensures var p := PartsOf(w);
            FitsParts(p) && Built(p) == Restored(w)
  {
  }

  /** `DCFilterInstance::deSerialize` of a new instance. */
  method DeSerialize(b: DCBuffer, ghost w: Wire, ghost tail: seq<Byte>) returns (x: Instance)
    requires b.Valid() && Unread(b) == WireFormat(b.bigEndian).put(w) + tail && FitsWire(w)
    modifies b`extracted
    ensures b.Valid() && b.bigEndian == old(b.bigEndian) && b.Contents() == old(b.Contents()) && x == Restored(w) && Unread(b) == tail
  {
    ghost var big, p := b.bigEndian, PartsOf(w);
    assert Unread(b) == PartsFormat(big).put(p) + tail by { WirePut(w, big); }
    assert FitsParts(p) by { BuiltIsRestored(w); }
    x := DeSerializeParts(b, big, p, tail);
    assert Built(p) == Restored(w) by { BuiltIsRestored(w); }
  }

  method DeSerializeParts(b: DCBuffer, ghost big: bool, ghost p: Parts, ghost tail: seq<Byte>) returns (x: Instance)
    requires b.Valid() && b.bigEndian == big
    requires Unread(b) == PartsFormat(big).put(p) + tail
    requires FitsParts(p)
    modifies b`extracted
    ensures b.Valid() && b.bigEndian == big && b.Contents() == old(b.Contents()) && x == Built(p) && Unread(b) == tail
  {
    ghost var names, counts, rest := Names(big), Counts(big), Both(MapsFormat(big), Place(big));
    SplitBoth(names, Both(counts, rest), p.0, p.1, tail);
    SplitBoth(counts, rest, p.1.0, p.1.1, tail);
    var n := DeSerializeNames(b, big, p.0, Both(counts, rest).put(p.1) + tail);
    var c := DeSerializeCounts(b, big, p.1.0, rest.put(p.1.1) + tail);
    x := DeSerializeRest(b, big, n, c, p.1.1.0, p.1.1.1, tail);
  }

  method DeSerializeRest(b: DCBuffer, ghost big: bool, n: (Text, (Text, Text)), c: (int, (int, (int, (int, int)))), ghost m: Maps,
                         ghost p: Places, ghost tail: seq<Byte>)
    returns (x: Instance)
    requires b.Valid() && b.bigEndian == big && FitsMaps(m) && FitsPlace(p)
    requires Unread(b) == Both(MapsFormat(big), Place(big)).put((m, p)) + tail
    modifies b`extracted
    ensures b.Valid() && b.bigEndian == big && b.Contents() == old(b.Contents()) && x == Built((n, (c, (m, p)))) && Unread(b) == tail
  {
    SplitBoth(MapsFormat(big), Place(big), m, p, tail);
    var outs, ins, params, bufferParams := DeSerializeMaps(b, big, m, Place(big).put(p) + tail);
    var q := DeSerializePlace(b, big, p, tail);
    x := Instance(n.0, n.1.0, n.1.1, c.0, c.1.0, c.1.1.0, c.1.1.1.0, c.1.1.1.1, outs, ins, params, bufferParams,
                  q.0, q.1.0, q.1.1.0, q.1.1.1.0, q.1.1.1.1);
  }

  lemma {:induction false} NothingElse<T>(s: seq<T>)
    ensures [] + s == s && s + [] == s
  {
  }

  /** An empty buffer with its flag forced. */
  method NewBuffer(flag: bool, from: bool) returns (b: DCBuffer)
    ensures Steady(b) && fresh(b) && b.pBuf != null && fresh(b.pBuf)
    ensures b.bigEndian == flag && b.hostBig == from && b.Contents() == []
  {
    b := new DCBuffer(from);
    b.New(1);
    b.ForceEndian(flag);
  }

  method SerializeNew(x: Instance, flag: bool, from: bool) returns (b: DCBuffer, ghost w: Wire)
    ensures b.Valid() && b.bigEndian == flag && b.Contents() == WireFormat(flag).put(w) && Written(w, x)
  {
    b := NewBuffer(flag, from);
    w := Serialize(b, x);
    assert b.Contents() == WireFormat(flag).put(w) by { NothingElse(WireFormat(flag).put(w)); }
  }

  method ReceiveInstance(b: DCBuffer, ghost w: Wire, to: bool) returns (y: Instance, left: nat)
    requires b.Valid() && b.Contents() == WireFormat(b.bigEndian).put(w) && FitsWire(w)
    ensures y == Restored(w) && left == 0
  {
    var c := Receive(b, to);
    NothingElse(Unread(c));
    y := DeSerialize(c, w, []);
    assert |Unread(c)| == 0;
    left := c.wSize - c.extracted;
  }

  /** An instance sent from one machine to another, in either byte order, arrives as it was; nothing is left over. */
  method SendInstance(x: Instance, flag: bool, from: bool, to: bool) returns (y: Instance, left: nat)
    requires FitsInstance(x)
    ensures y == x && left == 0
  {
    ghost var w;
    var b;
    b, w := SerializeNew(x, flag, from);
    assert FitsWire(w) by { WrittenFits(w, x); }
    y, left := ReceiveInstance(b, w, to);
    assert Restored(w) == x by { RestoredIsWritten(w, x); }
  }

  // ---------------------------------------------------------------------------
  // Layouts
  // ---------------------------------------------------------------------------

  method SerializeVariableAt(b: DCBuffer, v: (Text, (Text, int)), ghost before: seq<Byte>, ghost done: seq<(Text, (Text, int))>)
    requires Steady(b) && b.Contents() == before + PutAll(Variable(b.bigEndian), done)
    modifies b.Repr()
    ensures Steady(b) && (b.pBuf == old(b.pBuf) || fresh(b.pBuf)) && b.extracted == old(b.extracted)
    ensures b.bigEndian == old(b.bigEndian) && b.Contents() == before + PutAll(Variable(b.bigEndian), done + [v])
  {
    PutNext(before, Variable(b.bigEndian), done, v);
    Put3(b.Contents(), TextFormat(b.bigEndian), TextFormat(b.bigEndian), Int4(b.bigEndian), v.0, v.1.0, v.1.1);
    AppendStr(b, v.0);
    AppendStr(b, v.1.0);
    AppendInt4(b, v.1.1);
  }

  /** The environment variables to pass on: name, value, and whether not to override. */
  method SerializeVariables(b: DCBuffer, xs: seq<(Text, (Text, int))>)
    requires Steady(b)
    modifies b.Repr()
    ensures Steady(b) && (b.pBuf == old(b.pBuf) || fresh(b.pBuf)) && b.extracted == old(b.extracted)
    ensures b.bigEndian == old(b.bigEndian) && b.Contents() == old(b.Contents()) + ListOf(Variable(b.bigEndian), b.bigEndian).put(xs)
  {
    ghost var start := b.Contents();
    AppendInt4(b, |xs|);
    SerializeEachVariable(b, xs);
    PutCounted(start, Variable(b.bigEndian), xs, b.bigEndian);
  }

  method SerializeEachVariable(b: DCBuffer, xs: seq<(Text, (Text, int))>)
    requires Steady(b)
    modifies b.Repr()
    ensures Steady(b) && (b.pBuf == old(b.pBuf) || fresh(b.pBuf)) && b.extracted == old(b.extracted)
    ensures b.bigEndian == old(b.bigEndian) && b.Contents() == old(b.Contents()) + PutAll(Variable(b.bigEndian), xs)
  {
    ghost var before := b.Contents();
    PutNone(before, Variable(b.bigEndian));
    var u := 0;
    while u < |xs|
      invariant 0 <= u <= |xs|
      invariant Steady(b) && (b.pBuf == old(b.pBuf) || fresh(b.pBuf))
      invariant b.extracted == old(b.extracted) && b.bigEndian == old(b.bigEndian)
      invariant b.Contents() == before + PutAll(Variable(b.bigEndian), xs[..u])
    {
      NextPrefix(xs, u);
      SerializeVariableAt(b, xs[u], before, xs[..u]);
      u := u + 1;
    }
    assert xs[..u] == xs;
  }

  ghost predicate AllWritten(ws: seq<Wire>, xs: seq<Instance>) {
    |ws| == |xs| && forall i :: 0 <= i < |xs| ==> Written(ws[i], xs[i])
  }

  lemma {:induction false} AllWrittenMore(ws: seq<Wire>, w: Wire, xs: seq<Instance>, u: nat)
    requires u < |xs| && AllWritten(ws, xs[..u]) && Written(w, xs[u])
    ensures AllWritten(ws + [w], xs[..u + 1])
  {
  }

  method SerializeInstanceAt(b: DCBuffer, x: Instance, ghost before: seq<Byte>, ghost done: seq<Wire>) returns (ghost w: Wire)
    requires Steady(b) && b.Contents() == before + PutAll(WireFormat(b.bigEndian), done)
    modifies b.Repr()
    ensures Steady(b) && (b.pBuf == old(b.pBuf) || fresh(b.pBuf)) && b.extracted == old(b.extracted)
    ensures b.bigEndian == old(b.bigEndian) && b.Contents() == before + PutAll(WireFormat(b.bigEndian), done + [w]) && Written(w, x)
  {
    w := Serialize(b, x);
    PutNext(before, WireFormat(b.bigEndian), done, w);
  }

  method SerializeInstances(b: DCBuffer, xs: seq<Instance>) returns (ghost ws: seq<Wire>)
    requires Steady(b)
    modifies b.Repr()
    ensures Steady(b) && (b.pBuf == old(b.pBuf) || fresh(b.pBuf)) && b.extracted == old(b.extracted)
    ensures b.bigEndian == old(b.bigEndian) && b.Contents() == old(b.Contents()) + ListOf(WireFormat(b.bigEndian), b.bigEndian).put(ws)
    ensures AllWritten(ws, xs)
  {
    ghost var start := b.Contents();
    AppendInt4(b, |xs|);
    ws := SerializeEachInstance(b, xs);
    PutCounted(start, WireFormat(b.bigEndian), ws, b.bigEndian);
  }

  method SerializeEachInstance(b: DCBuffer, xs: seq<Instance>) returns (ghost ws: seq<Wire>)
    requires Steady(b)
    modifies b.Repr()
    ensures Steady(b) && (b.pBuf == old(b.pBuf) || fresh(b.pBuf)) && b.extracted == old(b.extracted)
    ensures b.bigEndian == old(b.bigEndian) && b.Contents() == old(b.Contents()) + PutAll(WireFormat(b.bigEndian), ws)
    ensures AllWritten(ws, xs)
  {
    ghost var before := b.Contents();
    PutNone(before, WireFormat(b.bigEndian));
    ws := [];
    var u := 0;
    while u < |xs|
      invariant 0 <= u <= |xs| && AllWritten(ws, xs[..u])
      invariant Steady(b) && (b.pBuf == old(b.pBuf) || fresh(b.pBuf))
      invariant b.extracted == old(b.extracted) && b.bigEndian == old(b.bigEndian)
      invariant b.Contents() == before + PutAll(WireFormat(b.bigEndian), ws)
    {
      ghost var w := SerializeInstanceAt(b, xs[u], before, ws);
      AllWrittenMore(ws, w, xs, u);
      ws := ws + [w];
      u := u + 1;
    }
    assert xs[..u] == xs;
  }

  method AppendFlag(b: DCBuffer, x: bool)
    requires Steady(b)
    modifies b.Repr()
    ensures Steady(b) && (b.pBuf == old(b.pBuf) || fresh(b.pBuf)) && b.extracted == old(b.extracted)
    ensures b.bigEndian == old(b.bigEndian) && b.Contents() == old(b.Contents()) + Flag().put(x)
  {
    OneByte(if x then 1 else 0, b.bigEndian);
    AppendNum(b, 1, if x then 1 else 0);
  }

  /** The buffer for all filters, if there is one. */
  method SerializeBroadcast(b: DCBuffer, x: seq<Nested>)
    requires Steady(b) && |x| <= 1
    modifies b.Repr()
    ensures Steady(b) && (b.pBuf == old(b.pBuf) || fresh(b.pBuf)) && b.extracted == old(b.extracted)
    ensures b.bigEndian == old(b.bigEndian) && b.Contents() == old(b.Contents()) + Maybe(NestedFormat(b.bigEndian)).put(x)
  {
    ghost var start := b.Contents();
    AppendFlag(b, x != []);
    if x != [] {
      AppendNested(b, x[0]);
      Assoc(start, [1], NestedFormat(b.bigEndian).put(x[0]));
    }
  }

  method SerializeTail(b: DCBuffer, x: LayoutImage, ghost before: seq<Byte>) returns (ghost libraries: seq<(Text, Text)>)
    requires Steady(b) && |x.broadcast| <= 1 && b.Contents() == before
    modifies b.Repr()
    ensures Steady(b) && (b.pBuf == old(b.pBuf) || fresh(b.pBuf)) && b.extracted == old(b.extracted)
    ensures b.bigEndian == old(b.bigEndian)
    ensures b.Contents() == before + Tail(b.bigEndian).put((x.broadcast, (x.console, libraries)))
    ensures Lists(libraries, x.libraries) && |libraries| == |x.libraries|
  {
    ghost var big := b.bigEndian;
    SerializeBroadcast(b, x.broadcast);
    AppendFlag(b, x.console);
    libraries := SerializeParams(b, x.libraries);
    Put3(before, Maybe(NestedFormat(big)), Flag(), ListOf(Param(big), big), x.broadcast, x.console, libraries);
  }

  ghost predicate BodyWritten(w: BodyWire, x: LayoutImage) {
    && AllWritten(w.0, x.instances) && w.1.0 == x.broadcast && w.1.1.0 == x.console
    && Lists(w.1.1.1, x.libraries) && |w.1.1.1| == |x.libraries|
  }

  /** `DCLayout::serialize`. */
  method SerializeLayout(b: DCBuffer, variables: seq<(Text, (Text, int))>, x: LayoutImage) returns (ghost w: LayoutWire)
    requires Steady(b) && |x.broadcast| <= 1
    modifies b.Repr()
    ensures Steady(b) && (b.pBuf == old(b.pBuf) || fresh(b.pBuf)) && b.extracted == old(b.extracted)
    ensures b.bigEndian == old(b.bigEndian)
    ensures b.Contents() == old(b.Contents()) + LayoutFormat(b.bigEndian).put(w)
    ensures BodyWritten(w.1, x) && w.0 == variables
  {
    ghost var start := b.Contents();
    SerializeVariables(b, variables);
    w := SerializeAfter(b, variables, x, start);
  }

  method SerializeAfter(b: DCBuffer, ghost variables: seq<(Text, (Text, int))>, x: LayoutImage, ghost start: seq<Byte>)
    returns (ghost w: LayoutWire)
    requires Steady(b) && |x.broadcast| <= 1
    requires b.Contents() == start + ListOf(Variable(b.bigEndian), b.bigEndian).put(variables)
    modifies b.Repr()
    ensures Steady(b) && (b.pBuf == old(b.pBuf) || fresh(b.pBuf)) && b.extracted == old(b.extracted)
    ensures b.bigEndian == old(b.bigEndian)
    ensures b.Contents() == start + LayoutFormat(b.bigEndian).put(w)
    ensures BodyWritten(w.1, x) && w.0 == variables
  {
    ghost var big := b.bigEndian;
    ghost var body := SerializeBody(b, x, start + ListOf(Variable(big), big).put(variables));
    PutBoth(start, ListOf(Variable(big), big), Body(big), variables, body);
    w := (variables, body);
  }

  method SerializeBody(b: DCBuffer, x: LayoutImage, ghost before: seq<Byte>)
    returns (ghost w: BodyWire)
    requires Steady(b) && |x.broadcast| <= 1 && b.Contents() == before
    modifies b.Repr()
    ensures Steady(b) && (b.pBuf == old(b.pBuf) || fresh(b.pBuf)) && b.extracted == old(b.extracted)
    ensures b.bigEndian == old(b.bigEndian)
    ensures b.Contents() == before + Body(b.bigEndian).put(w)
    ensures BodyWritten(w, x)
  {
    ghost var big := b.bigEndian;
    ghost var ws := SerializeInstances(b, x.instances);
    ghost var libraries := SerializeTail(b, x, before + ListOf(WireFormat(big), big).put(ws));
    ghost var rest := (x.broadcast, (x.console, libraries));
    PutBoth(before, ListOf(WireFormat(big), big), Tail(big), ws, rest);
    w := (ws, rest);
  }

  ghost predicate FitsVariable(v: (Text, (Text, int))) { FitsText(v.0) && FitsText(v.1.0) && Fits4(v.1.1) }

  ghost predicate FitsVariables(vs: seq<(Text, (Text, int))>) {
    |vs| < Int4Limit && forall i :: 0 <= i < |vs| ==> FitsVariable(vs[i])
  }

  ghost predicate FitsWires(ws: seq<Wire>) {
    |ws| < Int4Limit && forall i :: 0 <= i < |ws| ==> FitsWire(ws[i])
  }

  method DeSerializeVariableAt(b: DCBuffer, ghost xs: seq<(Text, (Text, int))>, ghost i: nat, ghost tail: seq<Byte>) returns (r: (Text, (Text, int)))
    requires b.Valid() && i < |xs| && Unread(b) == PutAll(Variable(b.bigEndian), xs[i..]) + tail
    requires FitsVariable(xs[i])
    modifies b`extracted
    ensures b.Valid() && b.bigEndian == old(b.bigEndian) && b.Contents() == old(b.Contents())
    ensures r == xs[i] && Unread(b) == PutAll(Variable(b.bigEndian), xs[i + 1..]) + tail
  {
    SplitFirst(Variable(b.bigEndian), xs[i..], tail);
    NextSuffix(xs, i);
    ghost var more := PutAll(Variable(b.bigEndian), xs[i + 1..]) + tail;
    ghost var text, int4, v := TextFormat(b.bigEndian), Int4(b.bigEndian), xs[i];
    SplitBoth(text, Both(text, int4), v.0, v.1, more);
    SplitBoth(text, int4, v.1.0, v.1.1, more);
    var name := TakeText(b, v.0, Both(text, int4).put(v.1) + more);
    var value := TakeText(b, v.1.0, int4.put(v.1.1) + more);
    var keep := TakeInt4(b, v.1.1, more);
    r := (name, (value, keep));
  }

  method DeSerializeVariables(b: DCBuffer, ghost xs: seq<(Text, (Text, int))>, ghost tail: seq<Byte>) returns (got: seq<(Text, (Text, int))>)
    requires b.Valid() && Unread(b) == ListOf(Variable(b.bigEndian), b.bigEndian).put(xs) + tail && FitsVariables(xs)
    modifies b`extracted
    ensures b.Valid() && b.bigEndian == old(b.bigEndian) && b.Contents() == old(b.Contents())
    ensures got == xs && Unread(b) == tail
  {
    SplitCount(Variable(b.bigEndian), b.bigEndian, xs, tail);
    var sz := TakeInt4(b, |xs|, PutAll(Variable(b.bigEndian), xs) + tail);
    got := DeSerializeEachVariable(b, sz, xs, tail);
  }

  method DeSerializeEachVariable(b: DCBuffer, sz: int, ghost xs: seq<(Text, (Text, int))>, ghost tail: seq<Byte>) returns (got: seq<(Text, (Text, int))>)
    requires b.Valid() && Unread(b) == PutAll(Variable(b.bigEndian), xs) + tail && sz == |xs| && FitsVariables(xs)
    modifies b`extracted
    ensures b.Valid() && b.bigEndian == old(b.bigEndian) && b.Contents() == old(b.Contents())
    ensures got == xs && Unread(b) == tail
  {
    got := [];
    var i := 0;
    assert xs[i..] == xs;
    while i < sz
      invariant 0 <= i <= sz && b.Valid() && b.bigEndian == old(b.bigEndian) && b.Contents() == old(b.Contents())
      invariant got == xs[..i] && Unread(b) == PutAll(Variable(b.bigEndian), xs[i..]) + tail
    {
      NextPrefix(xs, i);
      var x := DeSerializeVariableAt(b, xs, i, tail);
      got := got + [x];
      i := i + 1;
    }
    PutEnd(Variable(b.bigEndian), xs, i, tail);
    assert xs[..i] == xs;
  }

  /** The i-th of several instances. */
  method DeSerializeNext(b: DCBuffer, ghost xs: seq<Wire>, ghost i: nat, ghost tail: seq<Byte>) returns (x: Instance)
    requires b.Valid() && i < |xs| && FitsWire(xs[i]) && Unread(b) == PutAll(WireFormat(b.bigEndian), xs[i..]) + tail
    modifies b`extracted
    ensures b.Valid() && b.bigEndian == old(b.bigEndian) && b.Contents() == old(b.Contents())
    ensures x == Restored(xs[i]) && Unread(b) == PutAll(WireFormat(b.bigEndian), xs[i + 1..]) + tail
  {
    SplitFirst(WireFormat(b.bigEndian), xs[i..], tail);
    NextSuffix(xs, i);
    x := DeSerialize(b, xs[i], PutAll(WireFormat(b.bigEndian), xs[i + 1..]) + tail);
  }

  /** One more instance. */
  method DeSerializeInstanceAt(b: DCBuffer, before: seq<Instance>, ghost xs: seq<Wire>, ghost all: seq<Instance>, ghost i: nat,
                               ghost tail: seq<Byte>)
    returns (got: seq<Instance>)
    requires b.Valid() && i < |xs| && FitsWire(xs[i]) && Unread(b) == PutAll(WireFormat(b.bigEndian), xs[i..]) + tail
    requires all == AllRestored(xs) && before == all[..i]
    modifies b`extracted
    ensures b.Valid() && b.bigEndian == old(b.bigEndian) && b.Contents() == old(b.Contents())
    ensures got == all[..i + 1] && Unread(b) == PutAll(WireFormat(b.bigEndian), xs[i + 1..]) + tail
  {
    var x := DeSerializeNext(b, xs, i, tail);
    NextPrefix(all, i);
    got := before + [x];
  }

  method DeSerializeInstances(b: DCBuffer, ghost xs: seq<Wire>, ghost tail: seq<Byte>) returns (got: seq<Instance>)
    requires b.Valid() && Unread(b) == ListOf(WireFormat(b.bigEndian), b.bigEndian).put(xs) + tail && FitsWires(xs)
    modifies b`extracted
    ensures b.Valid() && b.bigEndian == old(b.bigEndian) && b.Contents() == old(b.Contents())
    ensures got == AllRestored(xs) && Unread(b) == tail
  {
    SplitCount(WireFormat(b.bigEndian), b.bigEndian, xs, tail);
    var sz := TakeInt4(b, |xs|, PutAll(WireFormat(b.bigEndian), xs) + tail);
    assert xs[0..] == xs;
    got := DeSerializeEachInstance(b, sz, xs, AllRestored(xs), tail);
    PutEnd(WireFormat(b.bigEndian), xs, sz, tail);
    assert AllRestored(xs)[..sz] == AllRestored(xs);
  }

  method DeSerializeEachInstance(b: DCBuffer, sz: int, ghost xs: seq<Wire>, ghost all: seq<Instance>, ghost tail: seq<Byte>)
    returns (got: seq<Instance>)
    requires b.Valid() && Unread(b) == PutAll(WireFormat(b.bigEndian), xs[0..]) + tail && sz == |xs| && FitsWires(xs)
    requires all == AllRestored(xs)
    modifies b`extracted
    ensures b.Valid() && b.bigEndian == old(b.bigEndian) && b.Contents() == old(b.Contents())
    ensures got == all[..sz] && Unread(b) == PutAll(WireFormat(b.bigEndian), xs[sz..]) + tail
  {
    got := [];
    var i := 0;
    while i < sz
      invariant 0 <= i <= sz && b.Valid() && b.bigEndian == old(b.bigEndian) && b.Contents() == old(b.Contents())
      invariant got == all[..i] && Unread(b) == PutAll(WireFormat(b.bigEndian), xs[i..]) + tail
    {
      got := DeSerializeInstanceAt(b, got, xs, all, i, tail);
      i := i + 1;
    }
  }

  method TakeFlag(b: DCBuffer, ghost x: bool, ghost tail: seq<Byte>) returns (r: bool)
    requires b.Valid() && Unread(b) == Flag().put(x) + tail
    modifies b`extracted
    ensures b.Valid() && b.bigEndian == old(b.bigEndian) && b.Contents() == old(b.Contents())
    ensures r == x && Unread(b) == tail
  {
    LoadedByte(Unread(b)[..1], b.bigEndian);
    assert Flag().put(x) == [if x then 1 else 0] && (Flag().put(x) + tail)[1..] == tail;
    var ok, n := ExtractNum(b, 1);
    r := n == 1;
  }

  method DeSerializeBroadcast(b: DCBuffer, ghost x: seq<Nested>, ghost tail: seq<Byte>) returns (r: seq<Nested>)
    requires b.Valid() && Unread(b) == Maybe(NestedFormat(b.bigEndian)).put(x) + tail
    requires |x| <= 1 && (x != [] ==> |x[0].bytes| < Power256(4))
    modifies b`extracted
    ensures b.Valid() && b.bigEndian == old(b.bigEndian) && b.Contents() == old(b.Contents())
    ensures r == x && Unread(b) == tail
  {
    if x != [] {
      Assoc([1], NestedFormat(b.bigEndian).put(x[0]), tail);
    }
    var present := TakeFlag(b, x != [], (if x == [] then [] else NestedFormat(b.bigEndian).put(x[0])) + tail);
    if present {
      var n := TakeNested(b, x[0], tail);
      r := [n];
    } else {
      r := [];
    }
  }

  method DeSerializeTail(b: DCBuffer, ghost x: TailWire, ghost tail: seq<Byte>)
    returns (broadcast: seq<Nested>, console: bool, libraries: map<Text, Text>)
    requires b.Valid() && Unread(b) == Tail(b.bigEndian).put(x) + tail
    requires |x.0| <= 1 && (x.0 != [] ==> |x.0[0].bytes| < Power256(4)) && FitsParams(x.1.1)
    modifies b`extracted
    ensures b.Valid() && b.bigEndian == old(b.bigEndian) && b.Contents() == old(b.Contents())
    ensures broadcast == x.0 && console == x.1.0 && libraries == MapOf(x.1.1) && Unread(b) == tail
  {
    ghost var maybe, texts := Maybe(NestedFormat(b.bigEndian)), ListOf(Param(b.bigEndian), b.bigEndian);
    SplitBoth(maybe, Both(Flag(), texts), x.0, x.1, tail);
    SplitBoth(Flag(), texts, x.1.0, x.1.1, tail);
    broadcast := DeSerializeBroadcast(b, x.0, Both(Flag(), texts).put(x.1) + tail);
    console := TakeFlag(b, x.1.0, texts.put(x.1.1) + tail);
    libraries := DeSerializeParams(b, x.1.1, tail);
  }

  /** `DCLayout::deSerialize` of a new layout; the variables are set in the environment. */
  method DeSerializeLayout(b: DCBuffer, ghost w: LayoutWire, ghost tail: seq<Byte>)
    returns (variables: seq<(Text, (Text, int))>, x: LayoutImage)
    requires b.Valid() && Unread(b) == LayoutFormat(b.bigEndian).put(w) + tail && FitsLayout(w)
    modifies b`extracted
    ensures b.Valid() && b.bigEndian == old(b.bigEndian) && b.Contents() == old(b.Contents())
    ensures variables == w.0 && x == RestoredLayout(w) && Unread(b) == tail
  {
    ghost var variable, body := ListOf(Variable(b.bigEndian), b.bigEndian), Body(b.bigEndian);
    SplitBoth(variable, body, w.0, w.1, tail);
    variables := DeSerializeVariables(b, w.0, body.put(w.1) + tail);
    x := DeSerializeBody(b, w, tail);
  }

  method DeSerializeBody(b: DCBuffer, ghost w: LayoutWire, ghost tail: seq<Byte>) returns (x: LayoutImage)
    requires b.Valid() && Unread(b) == Body(b.bigEndian).put(w.1) + tail && FitsLayout(w)
    modifies b`extracted
    ensures b.Valid() && b.bigEndian == old(b.bigEndian) && b.Contents() == old(b.Contents())
    ensures x == RestoredLayout(w) && Unread(b) == tail
  {
    ghost var wires, rest := ListOf(WireFormat(b.bigEndian), b.bigEndian), Tail(b.bigEndian);
    SplitBoth(wires, rest, w.1.0, w.1.1, tail);
    var instances := DeSerializeInstances(b, w.1.0, rest.put(w.1.1) + tail);
    var broadcast, console, libraries := DeSerializeTail(b, w.1.1, tail);
    x := LayoutImage(instances, broadcast, console, libraries);
  }

  ghost predicate FitsImage(x: LayoutImage) {
    && |x.instances| < Int4Limit && (forall i :: 0 <= i < |x.instances| ==> FitsInstance(x.instances[i]))
    && |x.broadcast| <= 1 && (x.broadcast != [] ==> |x.broadcast[0].bytes| < Power256(4))
    && |x.libraries| < Int4Limit && forall k :: k in x.libraries ==> FitsText(k) && FitsText(x.libraries[k])
  }

  lemma {:induction false} LayoutFits(w: LayoutWire, x: LayoutImage)
    requires BodyWritten(w.1, x) && FitsImage(x) && FitsVariables(w.0)
    ensures FitsLayout(w) && WritesLayout(w, x)
  {
    forall i | 0 <= i < |w.1.0|
      ensures FitsWire(w.1.0[i])
    {
      WrittenFits(w.1.0[i], x.instances[i]);
    }
  }

  lemma {:induction false} LayoutArrives(w: LayoutWire, x: LayoutImage)
    requires BodyWritten(w.1, x) && FitsImage(x) && FitsVariables(w.0)
    ensures FitsLayout(w) && RestoredLayout(w) == x
  {
    LayoutFits(w, x);
    LayoutRestored(w, x);
  }

  /** A layout sent from one machine to another arrives as it was, with the variables; nothing is left over. */
  method SendLayout(variables: seq<(Text, (Text, int))>, x: LayoutImage, flag: bool, from: bool, to: bool)
    returns (got: seq<(Text, (Text, int))>, y: LayoutImage, left: nat)
    requires FitsVariables(variables) && FitsImage(x)
    ensures got == variables && y == x && left == 0
  {
    ghost var w;
    var b;
    b, w := SerializeNewLayout(variables, x, flag, from);
    LayoutArrives(w, x);
    got, y, left := ReceiveLayout(b, w, to);
  }

  method SerializeNewLayout(variables: seq<(Text, (Text, int))>, x: LayoutImage, flag: bool, from: bool)
    returns (b: DCBuffer, ghost w: LayoutWire)
    requires |x.broadcast| <= 1
    ensures b.Valid() && b.bigEndian == flag && b.Contents() == LayoutFormat(flag).put(w)
    ensures BodyWritten(w.1, x) && w.0 == variables
  {
    b := NewBuffer(flag, from);
    w := SerializeLayout(b, variables, x);
    assert b.Contents() == LayoutFormat(flag).put(w) by { NothingElse(LayoutFormat(flag).put(w)); }
  }

  method ReceiveLayout(b: DCBuffer, ghost w: LayoutWire, to: bool) returns (variables: seq<(Text, (Text, int))>, y: LayoutImage, left: nat)
    requires b.Valid() && b.Contents() == LayoutFormat(b.bigEndian).put(w) && FitsLayout(w)
    ensures variables == w.0 && y == RestoredLayout(w) && left == 0
  {
    var c := Receive(b, to);
    NothingElse(Unread(c));
    variables, y := DeSerializeLayout(c, w, []);
    assert |Unread(c)| == 0;
    left := c.wSize - c.extracted;
  }
}
