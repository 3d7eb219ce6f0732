/**
  Typed values in a byte stream: numbers in the byte order of the buffer's flag, strings with
  their length, arrays element by element.  Whatever the byte orders of the two machines and the
  flag, extracting with the types that were appended gives the values back.
*/
module Streams {
  import opened Common
  import opened Bytes
  import opened Buffers

  /** Numbers are kept as the nat that their bits stand for; w is 1, 2, 4 or 8. */
  datatype Value = Num(w: nat, x: nat) | Str(s: seq<Byte>) | Arr(w: nat, xs: seq<nat>)

  datatype Type = NumT(w: nat) | StrT | ArrT(w: nat, count: nat)

  datatype Read<+T> = Failed | Got(value: T, rest: seq<Byte>)

  predicate IsWidth(w: nat) { w == 1 || w == 2 || w == 4 || w == 8 }

  predicate IsValue(v: Value) {
    match v
    case Num(w, x) => IsWidth(w) && x < Power256(w)
    case Str(s) => |s| < Power256(8)
    case Arr(w, xs) => IsWidth(w) && forall i :: 0 <= i < |xs| ==> xs[i] < Power256(w)
  }

  /** A value of which no bytes are written. */
  predicate IsNothing(v: Value) { v.Arr? && v.xs == [] }

  function TypeOf(v: Value): Type {
    match v
    case Num(w, x) => NumT(w)
    case Str(s) => StrT
    case Arr(w, xs) => ArrT(w, |xs|)
  }

  // ---------------------------------------------------------------------------
  // The format
  // ---------------------------------------------------------------------------

  function ArrayBytes(w: nat, xs: seq<nat>, big: bool): seq<Byte> {
    if xs == [] then [] else Stored(xs[0], w, big) + ArrayBytes(w, xs[1..], big)
  }

  function Encoded(v: Value, big: bool): seq<Byte> {
    match v
    case Num(w, x) => Stored(x, w, big)
    case Str(s) => Stored(|s|, 8, big) + s
    case Arr(w, xs) => ArrayBytes(w, xs, big)
  }

  function AllEncoded(vs: seq<Value>, big: bool): seq<Byte> {
    if vs == [] then [] else Encoded(vs[0], big) + AllEncoded(vs[1..], big)
  }

  function ReadNum(w: nat, s: seq<Byte>, big: bool): Read<nat> {
    if |s| < w then Failed else Got(Loaded(s[..w], big), s[w..])
  }

  function ReadStr(s: seq<Byte>, big: bool): Read<seq<Byte>> {
    match ReadNum(8, s, big)
    case Failed => Failed
    case Got(n, rest) => if |rest| < n then Failed else Got(rest[..n], rest[n..])
  }

  /** n further elements, after those in xs. */
  function ReadArr(w: nat, n: nat, xs: seq<nat>, s: seq<Byte>, big: bool): Read<seq<nat>>
    decreases n
  {
    if n == 0 then Got(xs, s)
    else
      match ReadNum(w, s, big)
      case Failed => Failed
      case Got(x, rest) => ReadArr(w, n - 1, xs + [x], rest, big)
  }

  function ReadValue(t: Type, s: seq<Byte>, big: bool): Read<Value> {
    match t
    case NumT(w) => (match ReadNum(w, s, big) case Failed => Failed case Got(x, rest) => Got(Num(w, x), rest))
    case StrT => (match ReadStr(s, big) case Failed => Failed case Got(x, rest) => Got(Str(x), rest))
    case ArrT(w, n) => (match ReadArr(w, n, [], s, big) case Failed => Failed case Got(xs, rest) => Got(Arr(w, xs), rest))
  }

  function ReadAll(ts: seq<Type>, vs: seq<Value>, s: seq<Byte>, big: bool): Read<seq<Value>>
    decreases |ts|
  {
    if ts == [] then Got(vs, s)
    else
      match ReadValue(ts[0], s, big)
      case Failed => Failed
      case Got(v, rest) => ReadAll(ts[1..], vs + [v], rest, big)
  }

  // ---------------------------------------------------------------------------
  // Reading what was written
  // ---------------------------------------------------------------------------

  lemma {:induction false} NumRoundTrip(w: nat, x: nat, rest: seq<Byte>, big: bool)
    requires x < Power256(w)
    ensures ReadNum(w, Stored(x, w, big) + rest, big) == Got(x, rest)
  {
    StoreLoad(x, w, big);
    var s := Stored(x, w, big) + rest;
    assert s[..w] == Stored(x, w, big) && s[w..] == rest;
  }

  lemma {:induction false} StrRoundTrip(t: seq<Byte>, rest: seq<Byte>, big: bool)
    requires |t| < Power256(8)
    ensures ReadStr(Stored(|t|, 8, big) + t + rest, big) == Got(t, rest)
  {
    NumRoundTrip(8, |t|, t + rest, big);
    Assoc(Stored(|t|, 8, big), t, rest);
    assert (t + rest)[..|t|] == t && (t + rest)[|t|..] == rest;
  }

  lemma {:induction false} ArrayBytesMore(w: nat, xs: seq<nat>, x: nat, big: bool)
    ensures ArrayBytes(w, xs + [x], big) == ArrayBytes(w, xs, big) + Stored(x, w, big)
    decreases |xs|
  {
    if xs == [] {
      assert xs + [x] == [x] && [x][1..] == [];
      assert Stored(x, w, big) + [] == Stored(x, w, big);
    } else {
      assert (xs + [x])[0] == xs[0] && (xs + [x])[1..] == xs[1..] + [x];
      ArrayBytesMore(w, xs[1..], x, big);
      Assoc(Stored(xs[0], w, big), ArrayBytes(w, xs[1..], big), Stored(x, w, big));
    }
  }

  lemma {:induction false} ReadArrStep(w: nat, n: nat, got: seq<nat>, s: seq<Byte>, big: bool, x: nat, rest: seq<Byte>)
    requires n > 0 && ReadNum(w, s, big) == Got(x, rest)
    ensures ReadArr(w, n, got, s, big) == ReadArr(w, n - 1, got + [x], rest, big)
  {
  }

  lemma {:induction false} ArrRoundTrip(w: nat, got: seq<nat>, xs: seq<nat>, rest: seq<Byte>, big: bool)
    requires forall i :: 0 <= i < |xs| ==> xs[i] < Power256(w)
    ensures ReadArr(w, |xs|, got, ArrayBytes(w, xs, big) + rest, big) == Got(got + xs, rest)
    decreases |xs|
  {
    if xs == [] {
      assert [] + rest == rest && got + [] == got;
    } else {
      var tail := ArrayBytes(w, xs[1..], big) + rest;
      Assoc(Stored(xs[0], w, big), ArrayBytes(w, xs[1..], big), rest);
      NumRoundTrip(w, xs[0], tail, big);
      ReadArrStep(w, |xs|, got, ArrayBytes(w, xs, big) + rest, big, xs[0], tail);
      ArrRoundTrip(w, got + [xs[0]], xs[1..], rest, big);
      Shift(got, xs);
    }
  }

  lemma {:induction false} ValueRoundTrip(v: Value, rest: seq<Byte>, big: bool)
    requires IsValue(v)
    ensures ReadValue(TypeOf(v), Encoded(v, big) + rest, big) == Got(v, rest)
  {
    match v
    case Num(w, x) => NumRoundTrip(w, x, rest, big);
    case Str(s) => StrRoundTrip(s, rest, big);
    case Arr(w, xs) => ArrRoundTrip(w, [], xs, rest, big); assert [] + xs == xs;
  }

  lemma {:induction false} AllEncodedMore(vs: seq<Value>, v: Value, big: bool)
    ensures AllEncoded(vs + [v], big) == AllEncoded(vs, big) + Encoded(v, big)
    decreases |vs|
  {
    if vs == [] {
      assert vs + [v] == [v] && [v][1..] == [];
      assert Encoded(v, big) + [] == Encoded(v, big);
    } else {
      assert (vs + [v])[0] == vs[0] && (vs + [v])[1..] == vs[1..] + [v];
      AllEncodedMore(vs[1..], v, big);
      Assoc(Encoded(vs[0], big), AllEncoded(vs[1..], big), Encoded(v, big));
    }
  }

  function Types(vs: seq<Value>): (ts: seq<Type>)
    ensures |ts| == |vs|
  {
    seq(|vs|, i requires 0 <= i < |vs| => TypeOf(vs[i]))
  }

  lemma {:induction false} ReadAllStep(v: Value, ts: seq<Type>, got: seq<Value>, tail: seq<Byte>, big: bool)
    requires IsValue(v)
    ensures ReadAll([TypeOf(v)] + ts, got, Encoded(v, big) + tail, big) == ReadAll(ts, got + [v], tail, big)
  {
    ValueRoundTrip(v, tail, big);
    assert ([TypeOf(v)] + ts)[1..] == ts;
  }

  lemma {:induction false} TypesHead(vs: seq<Value>)
    requires vs != []
    ensures Types(vs) == [TypeOf(vs[0])] + Types(vs[1..])
  {
  }

  /** Any stream of values, read with its types, is itself and is used up exactly. */
  lemma {:induction false} StreamRoundTrip(got: seq<Value>, vs: seq<Value>, rest: seq<Byte>, big: bool)
    requires forall i :: 0 <= i < |vs| ==> IsValue(vs[i])
    ensures ReadAll(Types(vs), got, AllEncoded(vs, big) + rest, big) == Got(got + vs, rest)
    decreases |vs|
  {
    if vs == [] {
      assert [] + rest == rest && got + [] == got;
    } else {
      var v, more := vs[0], vs[1..];
      TypesHead(vs);
      Assoc(Encoded(v, big), AllEncoded(more, big), rest);
      ReadAllStep(v, Types(more), got, AllEncoded(more, big) + rest, big);
      StreamRoundTrip(got + [v], more, rest, big);
      Shift(got, vs);
    }
  }

  /** A number read in the wrong byte order is right exactly when its bytes read the same both ways. */
  lemma {:induction false} WrongOrder(x: nat, w: nat, big: bool)
    requires x < Power256(w)
    ensures Loaded(Stored(x, w, big), !big) == x <==> BigEndian(x, w) == Reverse(BigEndian(x, w))
  {
    SwapStored(x, w, big);
    SwapStored(x, w, !big);
    ReverseTwice(BigEndian(x, w));
    ValueOfBigEndian(x, w);
    BigEndianOfValue(Reverse(BigEndian(x, w)));
  }

  // ---------------------------------------------------------------------------
  // The buffer methods
  // ---------------------------------------------------------------------------

  /** The buffer can grow, and its flag will not be reset by its first memory. */
  ghost predicate Steady(b: DCBuffer)
    reads b, if b.pBuf == null then {} else {b.pBuf}
  {
    b.Valid() && b.Growable() && (b.pBuf == null ==> b.bigEndian == b.hostBig)
  }

  /** The bytes not yet extracted. */
  ghost function Unread(b: DCBuffer): seq<Byte>
    requires b.Valid()
    reads b, if b.pBuf == null then {} else {b.pBuf}
  {
    b.Contents()[b.extracted..]
  }

  /** The flag after some bytes have been appended: the first memory of a buffer resets it. */
  ghost predicate FlagAfter(big: bool, hostBig: bool, bare: bool, some: bool, after: bool) {
    after == if bare && some then hostBig else big
  }

  /** A number goes into the buffer in the order `big`, as the caller has decided. */
  method AppendConverted(b: DCBuffer, w: nat, x: nat, convert: bool, ghost big: bool)
    requires b.Valid() && b.Growable() && IsWidth(w) && convert == (w != 1 && big != b.hostBig)
    modifies b.Repr()
    ensures b.Valid() && b.Growable() && (b.pBuf == old(b.pBuf) || fresh(b.pBuf)) && b.extracted == old(b.extracted)
    ensures b.Contents() == old(b.Contents()) + Stored(x, w, big) && b.pBuf != null
    ensures FlagAfter(old(b.bigEndian), b.hostBig, old(b.pBuf) == null, true, b.bigEndian)
  {
    var raw := Stored(x, w, b.hostBig);
    SwapStored(x, w, b.hostBig);
    if w == 1 {
      assert Reverse(raw) == raw;
    }
    var ok := b.Append(raw, convert);
    assert |b.Contents()| > 0;
  }

  /** The order is that of the flag, on either kind of machine. */
  method AppendNum(b: DCBuffer, w: nat, x: nat)
    requires b.Valid() && b.Growable() && IsWidth(w)
    modifies b.Repr()
    ensures b.Valid() && b.Growable() && (b.pBuf == old(b.pBuf) || fresh(b.pBuf)) && b.extracted == old(b.extracted)
    ensures b.Contents() == old(b.Contents()) + Stored(x, w, old(b.bigEndian)) && b.pBuf != null
    ensures FlagAfter(old(b.bigEndian), b.hostBig, old(b.pBuf) == null, true, b.bigEndian)
    ensures old(Steady(b)) ==> Steady(b) && b.bigEndian == old(b.bigEndian)
  {
    AppendConverted(b, w, x, if w == 1 then false else b.DoConv(), b.bigEndian);
  }

  method AppendStr(b: DCBuffer, s: seq<Byte>)
    requires b.Valid() && b.Growable()
    modifies b.Repr()
    ensures b.Valid() && b.Growable() && (b.pBuf == old(b.pBuf) || fresh(b.pBuf)) && b.extracted == old(b.extracted)
    ensures b.Contents() == old(b.Contents()) + Encoded(Str(s), old(b.bigEndian)) && b.pBuf != null
    ensures FlagAfter(old(b.bigEndian), b.hostBig, old(b.pBuf) == null, true, b.bigEndian)
    ensures old(Steady(b)) ==> Steady(b) && b.bigEndian == old(b.bigEndian)
  {
    ghost var before, big := b.Contents(), b.bigEndian;
    AppendNum(b, 8, |s|);
    var ok := b.Append(s, false);
    Assoc(before, Stored(|s|, 8, big), s);
    assert b.pBuf != null by {
      assert |b.Contents()| > 0;
    }
  }

  lemma {:induction false} ArrayStep(before: seq<Byte>, w: nat, xs: seq<nat>, x: nat, big: bool)
    ensures before + ArrayBytes(w, xs + [x], big) == (before + ArrayBytes(w, xs, big)) + Stored(x, w, big)
  {
    ArrayBytesMore(w, xs, x, big);
    Assoc(before, ArrayBytes(w, xs, big), Stored(x, w, big));
  }

  /** `_AppendArray`: whether to convert is decided once, before the first element. */
  method AppendArr(b: DCBuffer, w: nat, xs: seq<nat>)
    requires b.Valid() && b.Growable() && IsWidth(w)
    modifies b.Repr()
    ensures b.Valid() && b.Growable() && (b.pBuf == old(b.pBuf) || fresh(b.pBuf)) && b.extracted == old(b.extracted)
    ensures b.Contents() == old(b.Contents()) + ArrayBytes(w, xs, old(b.bigEndian))
    ensures FlagAfter(old(b.bigEndian), b.hostBig, old(b.pBuf) == null, xs != [], b.bigEndian)
    ensures xs == [] ==> b.pBuf == old(b.pBuf)
    ensures old(Steady(b)) ==> Steady(b) && b.bigEndian == old(b.bigEndian)
  {
    ghost var before, big, bare := b.Contents(), b.bigEndian, b.pBuf == null;
    var convert := if w == 1 then false else b.DoConv();
    assert before + [] == before;
    var i := 0;
    while i < |xs|
      invariant 0 <= i <= |xs| && b.Valid() && b.Growable() && (b.pBuf == old(b.pBuf) || fresh(b.pBuf))
      invariant b.extracted == old(b.extracted) && b.Contents() == before + ArrayBytes(w, xs[..i], big)
      invariant FlagAfter(big, b.hostBig, bare, i > 0, b.bigEndian) && (i > 0 ==> b.pBuf != null) && (i == 0 ==> b.pBuf == old(b.pBuf))
    {
      NextPrefix(xs, i);
      ArrayStep(before, w, xs[..i], xs[i], big);
      AppendConverted(b, w, xs[i], convert, big);
      i := i + 1;
    }
    assert xs[..i] == xs;
  }

  method AppendValue(b: DCBuffer, v: Value)
    requires b.Valid() && b.Growable() && IsValue(v)
    modifies b.Repr()
    ensures b.Valid() && b.Growable() && (b.pBuf == old(b.pBuf) || fresh(b.pBuf)) && b.extracted == old(b.extracted)
    ensures b.Contents() == old(b.Contents()) + Encoded(v, old(b.bigEndian))
    ensures FlagAfter(old(b.bigEndian), b.hostBig, old(b.pBuf) == null, !IsNothing(v), b.bigEndian)
    ensures b.pBuf == null <==> old(b.pBuf) == null && IsNothing(v)
    ensures old(Steady(b)) ==> Steady(b) && b.bigEndian == old(b.bigEndian)
  {
    match v {
      case Num(w, x) => AppendNum(b, w, x);
      case Str(s) => AppendStr(b, s);
      case Arr(w, xs) => AppendArr(b, w, xs);
    }
  }

  /** What an extraction gives: the value read, or nothing and no progress. */
  ghost predicate Reads<T>(r: Read<T>, before: seq<Byte>, after: seq<Byte>, ok: bool, x: T) {
    if r.Got? then ok && x == r.value && after == r.rest else !ok && after == before
  }

  /** Fewer bytes than asked for: nothing; otherwise the next w bytes, and the rest stays. */
  method ExtractRaw(b: DCBuffer, w: nat, convert: bool) returns (ok: bool, bytes: seq<Byte>)
    requires b.Valid() && w > 0
    modifies b`extracted
    ensures b.Valid() && b.Contents() == old(b.Contents()) && (ok <==> w <= |old(Unread(b))|)
    ensures ok ==> bytes == (if convert then Reverse(old(Unread(b))[..w]) else old(Unread(b))[..w])
    ensures Unread(b) == if ok then old(Unread(b))[w..] else old(Unread(b))
  {
    ghost var before, at := b.Contents(), b.extracted;
    var got;
    got, bytes := b.Extract(w, convert);
    ok := got != 0;
    if ok {
      Cut(before, at, w);
    }
  }

  method ExtractNum(b: DCBuffer, w: nat) returns (ok: bool, x: nat)
    requires b.Valid() && IsWidth(w)
    modifies b`extracted
    ensures b.Valid() && b.Contents() == old(b.Contents())
    ensures Reads(ReadNum(w, old(Unread(b)), b.bigEndian), old(Unread(b)), Unread(b), ok, x)
  {
    ghost var unread := Unread(b);
    var bytes;
    ok, bytes := ExtractRaw(b, w, if w == 1 then false else b.DoConv());
    x := 0;
    if ok {
      LoadedOnHost(unread[..w], w, b.bigEndian, b.hostBig);
      x := Loaded(bytes, b.hostBig);
    }
  }

  /** Swapping when the orders differ, and then loading on the host, loads in the order of the flag. */
  lemma {:induction false} LoadedOnHost(raw: seq<Byte>, w: nat, big: bool, hostBig: bool)
    requires |raw| == w
    ensures Loaded(if big != hostBig then Reverse(raw) else raw, hostBig) == Loaded(raw, big)
    ensures w == 1 ==> Loaded(raw, hostBig) == Loaded(raw, big)
  {
    ReverseTwice(raw);
    if w == 1 {
      assert Reverse(raw) == raw;
    }
  }

  /** The next n bytes, which the caller knows to be there. */
  method TakeBytes(b: DCBuffer, n: nat) returns (s: seq<Byte>)
    requires b.Valid() && n <= |Unread(b)|
    modifies b`extracted
    ensures b.Valid() && b.Contents() == old(b.Contents())
    ensures s == old(Unread(b))[..n] && Unread(b) == old(Unread(b))[n..]
  {
    Cut(b.Contents(), b.extracted, n);
    if b.pBuf == null {
      s := [];
    } else {
      s := b.pBuf[b.extracted..b.extracted + n];
      assert s == b.Contents()[b.extracted..b.extracted + n];
    }
    b.extracted := b.extracted + n;
  }

  /** The code does not look at how much is left; this is only used where the string is complete. */
  method ExtractStr(b: DCBuffer) returns (s: seq<Byte>)
    requires b.Valid() && ReadStr(Unread(b), b.bigEndian).Got?
    modifies b`extracted
    ensures b.Valid() && b.Contents() == old(b.Contents())
    ensures Reads(ReadStr(old(Unread(b)), b.bigEndian), old(Unread(b)), Unread(b), true, s)
  {
    var ok, n := ExtractNum(b, 8);
    s := TakeBytes(b, n);
  }

  /** `_ExtractArray`. */
  method ExtractArr(b: DCBuffer, w: nat, count: nat) returns (ok: bool, xs: seq<nat>)
    requires b.Valid() && IsWidth(w) && ReadArr(w, count, [], Unread(b), b.bigEndian).Got?
    modifies b`extracted
    ensures b.Valid() && b.Contents() == old(b.Contents())
    ensures Reads(ReadArr(w, count, [], old(Unread(b)), b.bigEndian), old(Unread(b)), Unread(b), ok, xs)
  {
    ghost var expected := ReadArr(w, count, [], Unread(b), b.bigEndian);
    xs := [];
    var i := 0;
    while i < count
      invariant 0 <= i <= count && b.Valid() && b.Contents() == old(b.Contents())
      invariant ReadArr(w, count - i, xs, Unread(b), b.bigEndian) == expected
    {
      var got, x := ExtractNum(b, w);
      xs, i := xs + [x], i + 1;
    }
    ok := true;
  }

  method ExtractValue(b: DCBuffer, t: Type) returns (v: Value)
    requires b.Valid() && (t.StrT? || IsWidth(t.w)) && ReadValue(t, Unread(b), b.bigEndian).Got?
    modifies b`extracted
    ensures b.Valid() && b.Contents() == old(b.Contents())
    ensures Reads(ReadValue(t, old(Unread(b)), b.bigEndian), old(Unread(b)), Unread(b), true, v)
  {
    match t {
      case NumT(w) =>
        var ok, x := ExtractNum(b, w);
        v := Num(w, x);
      case StrT =>
        var s := ExtractStr(b);
        v := Str(s);
      case ArrT(w, n) =>
        var ok, xs := ExtractArr(b, w, n);
        v := Arr(w, xs);
    }
  }

  /** Copy the received bytes of a buffer into another machine's buffer, together with its flag. */
  method Receive(b: DCBuffer, hostBig: bool) returns (c: DCBuffer)
    requires b.Valid()
    ensures c.Valid() && fresh(c.Repr()) && c.hostBig == hostBig
    ensures c.Contents() == b.Contents() && c.bigEndian == b.bigEndian && c.extracted == 0
  {
    c := new DCBuffer(hostBig);
    var p := new Byte[b.wSize];
    if b.pBuf != null {
      CopyBytes(b.pBuf[..b.wSize], p, 0);
    }
    assert p[..b.wSize] == b.Contents();
    c.Set(p, b.wSize, b.wSize, true);
    c.ForceEndian(b.bigEndian);
  }

  method AppendAllValues(vs: seq<Value>, flag: bool, from: bool) returns (b: DCBuffer)
    requires forall i :: 0 <= i < |vs| ==> IsValue(vs[i])
    ensures b.Valid() && fresh(b.Repr()) && b.bigEndian == flag && b.Contents() == AllEncoded(vs, flag)
  {
    b := new DCBuffer(from);
    b.New(1);
    b.ForceEndian(flag);
    var i := 0;
    while i < |vs|
      invariant 0 <= i <= |vs| && Steady(b) && fresh(b.Repr())
      invariant b.bigEndian == flag && b.Contents() == AllEncoded(vs[..i], flag)
    {
      NextPrefix(vs, i);
      AllEncodedMore(vs[..i], vs[i], flag);
      AppendValue(b, vs[i]);
      i := i + 1;
    }
    assert vs[..i] == vs;
  }

  method ExtractAllValues(c: DCBuffer, ts: seq<Type>) returns (got: seq<Value>)
    requires c.Valid() && ReadAll(ts, [], Unread(c), c.bigEndian).Got?
    requires forall i :: 0 <= i < |ts| ==> ts[i].StrT? || IsWidth(ts[i].w)
    modifies c`extracted
    ensures c.Valid() && c.Contents() == old(c.Contents())
    ensures Reads(ReadAll(ts, [], old(Unread(c)), c.bigEndian), old(Unread(c)), Unread(c), true, got)
  {
    ghost var expected := ReadAll(ts, [], Unread(c), c.bigEndian);
    var i := 0;
    got := [];
    assert ts[0..] == ts;
    while i < |ts|
      invariant 0 <= i <= |ts| && c.Valid() && c.Contents() == old(c.Contents())
      invariant ReadAll(ts[i..], got, Unread(c), c.bigEndian) == expected
    {
      NextSuffix(ts, i);
      var v := ExtractValue(c, ts[i]);
      got, i := got + [v], i + 1;
    }
  }

  /**
    Any values, appended on one machine to a buffer with any flag and extracted on another with
    the same types, come back in order and leave nothing behind.
  */
  method SendAndReceive(vs: seq<Value>, flag: bool, from: bool, to: bool) returns (got: seq<Value>, left: nat)
    requires forall i :: 0 <= i < |vs| ==> IsValue(vs[i])
    ensures got == vs && left == 0
  {
    var b := AppendAllValues(vs, flag, from);
    var c := Receive(b, to);
    WholeStream(vs, flag);
    got := ExtractAllValues(c, Types(vs));
    left := c.wSize - c.extracted;
  }

  lemma {:induction false} WholeStream(vs: seq<Value>, big: bool)
    requires forall i :: 0 <= i < |vs| ==> IsValue(vs[i])
    ensures ReadAll(Types(vs), [], AllEncoded(vs, big), big) == Got(vs, [])
    ensures forall i :: 0 <= i < |vs| ==> Types(vs)[i].StrT? || IsWidth(Types(vs)[i].w)
  {
    StreamRoundTrip([], vs, [], big);
    assert AllEncoded(vs, big) + [] == AllEncoded(vs, big) && [] + vs == vs;
    TypesHaveWidths(vs);
  }

  lemma {:induction false} TypesHaveWidths(vs: seq<Value>)
    requires forall i :: 0 <= i < |vs| ==> IsValue(vs[i])
    ensures forall i :: 0 <= i < |vs| ==> Types(vs)[i].StrT? || IsWidth(Types(vs)[i].w)
  {
  }

  // ---------------------------------------------------------------------------
  // A buffer without memory
  // ---------------------------------------------------------------------------

  /** What is written to a buffer whose flag was forced before it had any memory. */
  function BareEncoded(vs: seq<Value>, flag: bool, host: bool): seq<Byte> {
    if vs == [] then []
    else if IsNothing(vs[0]) then BareEncoded(vs[1..], flag, host)
    else Encoded(vs[0], flag) + AllEncoded(vs[1..], host)
  }

  predicate AllNothing(vs: seq<Value>) {
    forall i :: 0 <= i < |vs| ==> IsNothing(vs[i])
  }

  /** The first value that is written at all has the same bytes in both orders. */
  predicate FirstIsNeutral(vs: seq<Value>) {
    if vs == [] then true
    else if IsNothing(vs[0]) then FirstIsNeutral(vs[1..])
    else Encoded(vs[0], true) == Encoded(vs[0], false)
  }

  lemma {:induction false} BareEncodedMore(vs: seq<Value>, v: Value, flag: bool, host: bool)
    ensures BareEncoded(vs + [v], flag, host)
         == BareEncoded(vs, flag, host) + Encoded(v, if AllNothing(vs) then flag else host)
    decreases |vs|
  {
    if vs == [] {
      assert vs + [v] == [v] && [v][1..] == [];
      assert Encoded(v, flag) + [] == Encoded(v, flag);
      assert [] + Encoded(v, flag) == Encoded(v, flag);
    } else {
      var more := vs[1..];
      assert (vs + [v])[0] == vs[0] && (vs + [v])[1..] == more + [v];
      assert AllNothing(vs) <==> IsNothing(vs[0]) && AllNothing(more) by {
        assert forall i :: 0 <= i < |more| ==> more[i] == vs[i + 1];
      }
      if IsNothing(vs[0]) {
        BareEncodedMore(more, v, flag, host);
      } else {
        AllEncodedMore(more, v, host);
        Assoc(Encoded(vs[0], flag), AllEncoded(more, host), Encoded(v, host));
      }
    }
  }

  lemma {:induction false} AllNothingMore(vs: seq<Value>, v: Value)
    ensures AllNothing(vs + [v]) <==> AllNothing(vs) && IsNothing(v)
  {
    if AllNothing(vs + [v]) {
      assert (vs + [v])[|vs|] == v;
      forall i | 0 <= i < |vs|
        ensures IsNothing(vs[i])
      {
        assert (vs + [v])[i] == vs[i];
      }
    }
  }

  /** The values appended to a new buffer whose flag is forced at once. */
  method AppendToBare(vs: seq<Value>, flag: bool, from: bool) returns (b: DCBuffer)
    requires forall i :: 0 <= i < |vs| ==> IsValue(vs[i])
    ensures b.Valid() && fresh(b.Repr()) && b.Contents() == BareEncoded(vs, flag, from)
    ensures b.bigEndian == if AllNothing(vs) then flag else from
  {
    b := new DCBuffer(from);
    b.ForceEndian(flag);
    var i := 0;
    while i < |vs|
      invariant 0 <= i <= |vs| && b.Valid() && b.Growable() && fresh(b.Repr()) && b.hostBig == from
      invariant b.Contents() == BareEncoded(vs[..i], flag, from)
      invariant (b.pBuf == null <==> AllNothing(vs[..i])) && b.bigEndian == if AllNothing(vs[..i]) then flag else from
    {
      NextPrefix(vs, i);
      BareEncodedMore(vs[..i], vs[i], flag, from);
      AllNothingMore(vs[..i], vs[i]);
      AppendValue(b, vs[i]);
      i := i + 1;
    }
    assert vs[..i] == vs;
  }

  lemma {:induction false} Prefix<T>(all: seq<T>, s: seq<T>, x: T)
    requires |s| < |all| && all[..|s| + 1] == s + [x]
    ensures all[..|s|] == s && all[|s|] == x
  {
    assert all[..|s|] == all[..|s| + 1][..|s|];
    assert all[|s|] == all[..|s| + 1][|s|];
  }

  /** Reading never changes the values read before. */
  lemma {:induction false} ReadAllKeeps(ts: seq<Type>, vs: seq<Value>, s: seq<Byte>, big: bool)
    ensures var r := ReadAll(ts, vs, s, big); r.Got? ==> |vs| <= |r.value| && r.value[..|vs|] == vs
    decreases |ts|
  {
    if ts != [] {
      var r := ReadValue(ts[0], s, big);
      if r.Got? {
        ReadAllKeeps(ts[1..], vs + [r.value], r.rest, big);
        var all := ReadAll(ts[1..], vs + [r.value], r.rest, big);
        if all.Got? {
          Prefix(all.value, vs, r.value);
        }
      }
    }
  }

  lemma {:induction false} NeutralNumber(x: nat, w: nat, big: bool)
    requires x < Power256(w) && Loaded(Stored(x, w, big), !big) == x
    ensures Stored(x, w, true) == Stored(x, w, false)
  {
    WrongOrder(x, w, big);
  }

  /** What the numbers of an array become in the other order. */
  lemma {:induction false} SwappedArray(w: nat, got: seq<nat>, xs: seq<nat>, rest: seq<Byte>, big: bool)
    requires forall i :: 0 <= i < |xs| ==> xs[i] < Power256(w)
    ensures var r := ReadArr(w, |xs|, got, ArrayBytes(w, xs, big) + rest, !big);
            r.Got? && (r.value == got + xs ==> ArrayBytes(w, xs, true) == ArrayBytes(w, xs, false))
            && |got| <= |r.value| && r.value[..|got|] == got
    decreases |xs|
  {
    if xs != [] {
      var x, tail := Loaded(Stored(xs[0], w, big), !big), ArrayBytes(w, xs[1..], big) + rest;
      FirstSwapped(w, xs, rest, big);
      ReadArrStep(w, |xs|, got, ArrayBytes(w, xs, big) + rest, !big, x, tail);
      SwappedArray(w, got + [x], xs[1..], rest, big);
      var r := ReadArr(w, |xs| - 1, got + [x], tail, !big);
      Prefix(r.value, got, x);
      if r.value == got + xs {
        assert r.value[|got|] == xs[0];
        NeutralNumber(xs[0], w, big);
        Shift(got, xs);
      }
    }
  }

  lemma {:induction false} FirstSwapped(w: nat, xs: seq<nat>, rest: seq<Byte>, big: bool)
    requires xs != []
    ensures ReadNum(w, ArrayBytes(w, xs, big) + rest, !big)
         == Got(Loaded(Stored(xs[0], w, big), !big), ArrayBytes(w, xs[1..], big) + rest)
  {
    var first, tail := Stored(xs[0], w, big), ArrayBytes(w, xs[1..], big) + rest;
    Assoc(first, ArrayBytes(w, xs[1..], big), rest);
    assert (first + tail)[..w] == first && (first + tail)[w..] == tail;
  }

  /** A value read in the wrong order is right only if its bytes are the same in both. */
  lemma {:induction false} WrongOrderValue(v: Value, rest: seq<Byte>, big: bool)
    requires IsValue(v)
    ensures var r := ReadValue(TypeOf(v), Encoded(v, big) + rest, !big);
            r.Got? && r.value == v ==> Encoded(v, true) == Encoded(v, false)
  {
    var s := Encoded(v, big) + rest;
    match v
    case Num(w, x) =>
      assert s[..w] == Stored(x, w, big);
      if Loaded(Stored(x, w, big), !big) == x {
        NeutralNumber(x, w, big);
      }
    case Str(t) =>
      Assoc(Stored(|t|, 8, big), t, rest);
      assert s[..8] == Stored(|t|, 8, big);
      if Loaded(Stored(|t|, 8, big), !big) == |t| {
        NeutralNumber(|t|, 8, big);
      }
    case Arr(w, xs) =>
      SwappedArray(w, [], xs, rest, big);
      assert [] + xs == xs;
  }

  /**
    Values appended to a buffer without memory after its flag was forced come back, read in the order
    the buffer then says, exactly if the flag was the machine's own order or the first value that is
    written at all has the same bytes in both orders.
  */
  lemma {:induction false} BareRoundTrip(got: seq<Value>, vs: seq<Value>, flag: bool, host: bool)
    requires forall i :: 0 <= i < |vs| ==> IsValue(vs[i])
    ensures ReadAll(Types(vs), got, BareEncoded(vs, flag, host), host) == Got(got + vs, []) <==> flag == host || FirstIsNeutral(vs)
    decreases |vs|
  {
    if vs == [] {
      assert got + [] == got;
    } else if IsNothing(vs[0]) {
      TypesHead(vs);
      ReadAllStep(vs[0], Types(vs[1..]), got, BareEncoded(vs[1..], flag, host), host);
      assert Encoded(vs[0], host) + BareEncoded(vs[1..], flag, host) == BareEncoded(vs[1..], flag, host);
      Shift(got, vs);
      BareRoundTrip(got + [vs[0]], vs[1..], flag, host);
    } else if flag == host || FirstIsNeutral(vs) {
      StreamRoundTrip(got, vs, [], host);
      assert AllEncoded(vs, host) + [] == AllEncoded(vs, host);
    } else {
      TypesHead(vs);
      WrongFirst(got, vs, flag);
    }
  }

  lemma {:induction false} WrongFirst(got: seq<Value>, vs: seq<Value>, flag: bool)
    requires vs != [] && IsValue(vs[0]) && Encoded(vs[0], true) != Encoded(vs[0], false)
    ensures ReadAll(Types(vs), got, Encoded(vs[0], flag) + AllEncoded(vs[1..], !flag), !flag) != Got(got + vs, [])
  {
    var s := Encoded(vs[0], flag) + AllEncoded(vs[1..], !flag);
    TypesHead(vs);
    WrongOrderValue(vs[0], AllEncoded(vs[1..], !flag), flag);
    var r := ReadValue(TypeOf(vs[0]), s, !flag);
    if r.Got? {
      ReadAllKeeps(Types(vs[1..]), got + [r.value], r.rest, !flag);
      assert ([TypeOf(vs[0])] + Types(vs[1..]))[1..] == Types(vs[1..]);
      var all := ReadAll(Types(vs[1..]), got + [r.value], r.rest, !flag);
      if all.Got? {
        Prefix(all.value, got, r.value);
        assert (got + vs)[|got|] == vs[0];
      }
    }
  }
}
