/**
  Layouts and filter instances as bytes.  A format is given by how it is written and how it is
  read; it is right for a value when reading gives the value back and stops exactly behind it,
  whatever follows.  Lists, pairs and maps of right formats are right, and so are, in the end,
  filter instances and whole layouts, in either byte order.
*/
module Serialized {
  import opened Common
  import opened Bytes
  import opened Streams

  type Text = seq<Byte>

  datatype Format<!T> = Format(put: T -> seq<Byte>, get: seq<Byte> -> Read<T>)

  ghost predicate Right<T(!new)>(f: Format<T>, x: T) {
    forall rest :: f.get(f.put(x) + rest) == Got(x, rest)
  }

  // ---------------------------------------------------------------------------
  // Elements
  // ---------------------------------------------------------------------------

  const Int4Limit: int := 0x8000_0000

  /** A four-byte signed number, in two's complement. */
  function Int4(big: bool): Format<int> {
    Format((x: int) => Stored(x % (2 * Int4Limit), 4, big),
           (s: seq<Byte>) =>
             match ReadNum(4, s, big)
             case Failed => Failed
             case Got(n, rest) => Got(if n < Int4Limit then n else n - 2 * Int4Limit, rest))
  }

  lemma {:induction false} Int4Right(x: int, big: bool)
    requires -Int4Limit <= x < Int4Limit
    ensures Right(Int4(big), x)
  {
    var n := x % (2 * Int4Limit);
    assert n == if x < 0 then x + 2 * Int4Limit else x;
    assert Power256(4) == 2 * Int4Limit by {
      assert Power256(1) == 256 && Power256(2) == 256 * 256 && Power256(3) == 256 * 256 * 256;
    }
    forall rest
      ensures Int4(big).get(Int4(big).put(x) + rest) == Got(x, rest)
    {
      NumRoundTrip(4, n, rest, big);
    }
  }

  function TextFormat(big: bool): Format<Text> {
    Format((s: Text) => Encoded(Str(s), big), (s: seq<Byte>) => ReadStr(s, big))
  }

  lemma {:induction false} TextRight(t: Text, big: bool)
    requires |t| < Power256(8)
    ensures Right(TextFormat(big), t)
  {
    forall rest
      ensures TextFormat(big).get(TextFormat(big).put(t) + rest) == Got(t, rest)
    {
      StrRoundTrip(t, rest, big);
    }
  }

  /** A truth value in one byte. */
  function Flag(): Format<bool> {
    Format((b: bool) => [if b then 1 else 0],
           (s: seq<Byte>) => if s == [] then Failed else Got(s[0] == 1, s[1..]))
  }

  lemma {:induction false} FlagRight(b: bool)
    ensures Right(Flag(), b)
  {
    forall rest
      ensures Flag().get(Flag().put(b) + rest) == Got(b, rest)
    {
      assert (Flag().put(b) + rest)[1..] == rest;
    }
  }

  /** A nested buffer, with the byte order of its own numbers. */
  datatype Nested = Nested(bytes: seq<Byte>, big: bool)

  /** `saveToDCBuffer` and `restoreFromDCBuffer`. */
  function NestedFormat(big: bool): Format<Nested> {
    Format((n: Nested) => [if n.big then 1 else 0] + Stored(|n.bytes|, 4, big) + n.bytes,
           (s: seq<Byte>) =>
             if s == [] then Failed
             else
               match ReadNum(4, s[1..], big)
               case Failed => Failed
               case Got(n, rest) => if |rest| < n then Failed else Got(Nested(rest[..n], s[0] == 1), rest[n..]))
  }

  lemma {:induction false} NestedRight(n: Nested, big: bool)
    requires |n.bytes| < Power256(4)
    ensures Right(NestedFormat(big), n)
  {
    forall rest
      ensures NestedFormat(big).get(NestedFormat(big).put(n) + rest) == Got(n, rest)
    {
      var flag, count := [if n.big then 1 else 0 as Byte], Stored(|n.bytes|, 4, big);
      var s := NestedFormat(big).put(n) + rest;
      Assoc(flag, count, n.bytes);
      Assoc(flag, count + n.bytes, rest);
      Assoc(count, n.bytes, rest);
      assert s == flag + (count + (n.bytes + rest)) && s[1..] == count + (n.bytes + rest);
      NumRoundTrip(4, |n.bytes|, n.bytes + rest, big);
      assert (n.bytes + rest)[..|n.bytes|] == n.bytes && (n.bytes + rest)[|n.bytes|..] == rest;
    }
  }

  // ---------------------------------------------------------------------------
  // Combinations
  // ---------------------------------------------------------------------------

  function Both<A, B>(f: Format<A>, g: Format<B>): Format<(A, B)> {
    Format((x: (A, B)) => f.put(x.0) + g.put(x.1),
           (s: seq<Byte>) =>
             match f.get(s)
             case Failed => Failed
             case Got(a, rest) => (match g.get(rest) case Failed => Failed case Got(b, more) => Got((a, b), more)))
  }

  lemma {:induction false} BothRight<A(!new), B(!new)>(f: Format<A>, g: Format<B>, x: (A, B))
    requires Right(f, x.0) && Right(g, x.1)
    ensures Right(Both(f, g), x)
  {
    forall rest
      ensures Both(f, g).get(Both(f, g).put(x) + rest) == Got(x, rest)
    {
      Assoc(f.put(x.0), g.put(x.1), rest);
      assert f.get(f.put(x.0) + (g.put(x.1) + rest)) == Got(x.0, g.put(x.1) + rest);
      assert g.get(g.put(x.1) + rest) == Got(x.1, rest);
    }
  }

  /** A format for values that another format's values stand for. */
  function Converted<A, B>(f: Format<A>, to: B -> A, from: A -> B): Format<B> {
    Format((x: B) => f.put(to(x)),
           (s: seq<Byte>) => match f.get(s) case Failed => Failed case Got(a, rest) => Got(from(a), rest))
  }

  lemma {:induction false} ConvertedRight<A(!new), B(!new)>(f: Format<A>, to: B -> A, from: A -> B, x: B)
    requires Right(f, to(x)) && from(to(x)) == x
    ensures Right(Converted(f, to, from), x)
  {
    forall rest
      ensures Converted(f, to, from).get(Converted(f, to, from).put(x) + rest) == Got(x, rest)
    {
      assert f.get(f.put(to(x)) + rest) == Got(to(x), rest);
    }
  }

  function PutAll<T>(f: Format<T>, xs: seq<T>): seq<Byte> {
    if xs == [] then [] else f.put(xs[0]) + PutAll(f, xs[1..])
  }

  /** Read n more elements, after those in xs. */
  function GetAll<T>(f: Format<T>, n: nat, xs: seq<T>, s: seq<Byte>): Read<seq<T>>
    decreases n
  {
    if n == 0 then Got(xs, s)
    else match f.get(s) case Failed => Failed case Got(x, rest) => GetAll(f, n - 1, xs + [x], rest)
  }

  lemma {:induction false} GetAllStep<T(!new)>(f: Format<T>, n: nat, got: seq<T>, x: T, tail: seq<Byte>)
    requires Right(f, x)
    ensures GetAll(f, n + 1, got, f.put(x) + tail) == GetAll(f, n, got + [x], tail)
  {
    assert f.get(f.put(x) + tail) == Got(x, tail);
  }

  lemma {:induction false} AllRoundTrip<T(!new)>(f: Format<T>, got: seq<T>, xs: seq<T>, rest: seq<Byte>)
    requires forall x :: x in xs ==> Right(f, x)
    ensures GetAll(f, |xs|, got, PutAll(f, xs) + rest) == Got(got + xs, rest)
    decreases |xs|
  {
    if xs == [] {
      assert [] + rest == rest && got + [] == got;
    } else {
      Assoc(f.put(xs[0]), PutAll(f, xs[1..]), rest);
      GetAllStep(f, |xs| - 1, got, xs[0], PutAll(f, xs[1..]) + rest);
      AllRoundTrip(f, got + [xs[0]], xs[1..], rest);
      Shift(got, xs);
    }
  }

  /** A count and that many elements; a negative count reads none. */
  function ListOf<T>(f: Format<T>, big: bool): Format<seq<T>> {
    Format((xs: seq<T>) => Int4(big).put(|xs|) + PutAll(f, xs),
           (s: seq<Byte>) =>
             match Int4(big).get(s)
             case Failed => Failed
             case Got(n, rest) => GetAll(f, if n < 0 then 0 else n, [], rest))
  }

  lemma {:induction false} ListRight<T(!new)>(f: Format<T>, big: bool, xs: seq<T>)
    requires |xs| < Int4Limit && forall x :: x in xs ==> Right(f, x)
    ensures Right(ListOf(f, big), xs)
  {
    Int4Right(|xs|, big);
    forall rest
      ensures ListOf(f, big).get(ListOf(f, big).put(xs) + rest) == Got(xs, rest)
    {
      Assoc(Int4(big).put(|xs|), PutAll(f, xs), rest);
      assert Int4(big).get(Int4(big).put(|xs|) + (PutAll(f, xs) + rest)) == Got(|xs|, PutAll(f, xs) + rest);
      AllRoundTrip(f, [], xs, rest);
      assert [] + xs == xs;
    }
  }

  /** The map that a list of entries builds up, later entries replacing earlier ones. */
  function MapOf<K, V>(entries: seq<(K, V)>): map<K, V> {
    if entries == [] then map[]
    else
      var e := entries[|entries| - 1];
      MapOf(entries[..|entries| - 1])[e.0 := e.1]
  }

  function SetOf<T>(xs: seq<T>): set<T> {
    set x | x in xs
  }

  /** The list names every entry of the map, in whatever order. */
  ghost predicate Lists<K, V>(entries: seq<(K, V)>, m: map<K, V>) {
    && (forall e :: e in entries ==> e.0 in m && m[e.0] == e.1)
    && (forall k :: k in m ==> (k, m[k]) in entries)
  }

  lemma {:induction false} MapOfHas<K, V>(entries: seq<(K, V)>, m: map<K, V>)
    requires forall e :: e in entries ==> e.0 in m && m[e.0] == e.1
    ensures forall k :: k in MapOf(entries) <==> k in m && (k, m[k]) in entries
    ensures forall k :: k in MapOf(entries) ==> MapOf(entries)[k] == m[k]
  {
    if entries != [] {
      var k := |entries| - 1;
      assert entries == entries[..k] + [entries[k]];
      MapOfHas(entries[..k], m);
    }
  }

  lemma {:induction false} MapOfListed<K(!new), V>(entries: seq<(K, V)>, m: map<K, V>)
    requires Lists(entries, m)
    ensures MapOf(entries) == m
  {
    MapOfHas(entries, m);
    forall k
      ensures k in MapOf(entries) <==> k in m
    {
    }
  }

  /** An optional value behind a byte that says whether it is there. */
  function Maybe<T>(f: Format<T>): Format<seq<T>> {
    Format((x: seq<T>) => if x == [] then [0] else [1] + f.put(x[0]),
           (s: seq<Byte>) =>
             if s == [] then Failed
             else if s[0] == 0 then Got([], s[1..])
             else match f.get(s[1..]) case Failed => Failed case Got(x, rest) => Got([x], rest))
  }

  lemma {:induction false} MaybeRight<T(!new)>(f: Format<T>, x: seq<T>)
    requires |x| <= 1 && (x != [] ==> Right(f, x[0]))
    ensures Right(Maybe(f), x)
  {
    var zero: seq<Byte>, one: seq<Byte> := [0], [1];
    forall rest: seq<Byte>
      ensures Maybe(f).get(Maybe(f).put(x) + rest) == Got(x, rest)
    {
      if x == [] {
        assert (zero + rest)[1..] == rest;
      } else {
        Assoc(one, f.put(x[0]), rest);
        assert (one + (f.put(x[0]) + rest))[1..] == f.put(x[0]) + rest;
        assert f.get(f.put(x[0]) + rest) == Got(x[0], rest);
        assert x == [x[0]];
      }
    }
  }

  // ---------------------------------------------------------------------------
  // Filter instances
  // ---------------------------------------------------------------------------

  /** `Gftid_Port`. */
  type Ref = (int, Text)

  /** The serialized fields of a filter instance, as they are in memory. */
  datatype Instance = Instance(
    heritage: Text, filtername: Text, instancename: Text,
    copyRank: int, numCopies: int, localCopyRank: int, localNumCopies: int, gftid: int,
    outs: map<Text, seq<Ref>>, ins: map<Text, set<Ref>>,
    params: map<Text, Text>, bufferParams: map<Text, Nested>,
    rank: int, clusterRank: int, host: Text, givenBindHost: Text, labels: seq<Text>)

  /** The same with maps and sets in the order in which they are written. */
  datatype Wire = Wire(
    heritage: Text, filtername: Text, instancename: Text,
    copyRank: int, numCopies: int, localCopyRank: int, localNumCopies: int, gftid: int,
    outs: seq<(Text, seq<Ref>)>, ins: seq<(Text, seq<Ref>)>,
    params: seq<(Text, Text)>, bufferParams: seq<(Text, Nested)>,
    rank: int, clusterRank: int, host: Text, givenBindHost: Text, labels: seq<Text>)

  function SetEntries(ins: seq<(Text, seq<Ref>)>): seq<(Text, set<Ref>)> {
    seq(|ins|, i requires 0 <= i < |ins| => (ins[i].0, SetOf(ins[i].1)))
  }

  /** What `deSerialize` makes of the fields it reads. */
  function Restored(w: Wire): Instance {
    Instance(w.heritage, w.filtername, w.instancename,
             w.copyRank, w.numCopies, w.localCopyRank, w.localNumCopies, w.gftid,
             MapOf(w.outs), MapOf(SetEntries(w.ins)), MapOf(w.params), MapOf(w.bufferParams),
             w.rank, w.clusterRank, w.host, w.givenBindHost, w.labels)
  }

  /** w writes x: its maps and sets are listed completely. */
  ghost predicate Writes(w: Wire, x: Instance) {
    && Lists(w.outs, x.outs) && Lists(SetEntries(w.ins), x.ins)
    && Lists(w.params, x.params) && Lists(w.bufferParams, x.bufferParams)
    && x == Instance(w.heritage, w.filtername, w.instancename,
                     w.copyRank, w.numCopies, w.localCopyRank, w.localNumCopies, w.gftid,
                     x.outs, x.ins, x.params, x.bufferParams,
                     w.rank, w.clusterRank, w.host, w.givenBindHost, w.labels)
  }

  lemma {:induction false} RestoredIsWritten(w: Wire, x: Instance)
    requires Writes(w, x)
    ensures Restored(w) == x
  {
    MapOfListed(w.outs, x.outs);
    MapOfListed(SetEntries(w.ins), x.ins);
    MapOfListed(w.params, x.params);
    MapOfListed(w.bufferParams, x.bufferParams);
  }

  // The formats of the parts, in the order of `serialize`.

  function Names(big: bool): Format<(Text, (Text, Text))> {
    Both(TextFormat(big), Both(TextFormat(big), TextFormat(big)))
  }

  function Counts(big: bool): Format<(int, (int, (int, (int, int))))> {
    Both(Int4(big), Both(Int4(big), Both(Int4(big), Both(Int4(big), Int4(big)))))
  }

  function RefFormat(big: bool): Format<Ref> { Both(Int4(big), TextFormat(big)) }

  function Ports(big: bool): Format<(Text, seq<Ref>)> { Both(TextFormat(big), ListOf(RefFormat(big), big)) }

  function Param(big: bool): Format<(Text, Text)> { Both(TextFormat(big), TextFormat(big)) }

  function BufferParam(big: bool): Format<(Text, Nested)> { Both(TextFormat(big), NestedFormat(big)) }

  function Place(big: bool): Format<(int, (int, (Text, (Text, seq<Text>))))> {
    Both(Int4(big), Both(Int4(big), Both(TextFormat(big), Both(TextFormat(big), ListOf(TextFormat(big), big)))))
  }

  type Maps = (seq<(Text, seq<Ref>)>, (seq<(Text, seq<Ref>)>, (seq<(Text, Text)>, seq<(Text, Nested)>)))

  function MapsFormat(big: bool): Format<Maps> {
    Both(ListOf(Ports(big), big), Both(ListOf(Ports(big), big), Both(ListOf(Param(big), big), ListOf(BufferParam(big), big))))
  }

  type Parts = ((Text, (Text, Text)), ((int, (int, (int, (int, int)))), (Maps, (int, (int, (Text, (Text, seq<Text>)))))))

  function PartsOf(w: Wire): Parts {
    ((w.heritage, (w.filtername, w.instancename)),
     ((w.copyRank, (w.numCopies, (w.localCopyRank, (w.localNumCopies, w.gftid)))),
      ((w.outs, (w.ins, (w.params, w.bufferParams))),
       (w.rank, (w.clusterRank, (w.host, (w.givenBindHost, w.labels)))))))
  }

  function FromParts(x: Parts): Wire {
    var names, counts, maps, place := x.0, x.1.0, x.1.1.0, x.1.1.1;
    Wire(names.0, names.1.0, names.1.1,
         counts.0, counts.1.0, counts.1.1.0, counts.1.1.1.0, counts.1.1.1.1,
         maps.0, maps.1.0, maps.1.1.0, maps.1.1.1,
         place.0, place.1.0, place.1.1.0, place.1.1.1.0, place.1.1.1.1)
  }

  function PartsFormat(big: bool): Format<Parts> {
    Both(Names(big), Both(Counts(big), Both(MapsFormat(big), Place(big))))
  }

  /** `DCFilterInstance::serialize` and `deSerialize`. */
  function WireFormat(big: bool): Format<Wire> {
    Converted(PartsFormat(big), PartsOf, FromParts)
  }

  // What fits into the lengths and numbers of the format.

  predicate Fits4(x: int) { -Int4Limit <= x < Int4Limit }

  predicate FitsText(t: Text) { |t| < Power256(8) }

  predicate FitsRefs(rs: seq<Ref>) {
    |rs| < Int4Limit && forall i :: 0 <= i < |rs| ==> Fits4(rs[i].0) && FitsText(rs[i].1)
  }

  predicate FitsPorts(ps: seq<(Text, seq<Ref>)>) {
    |ps| < Int4Limit && forall i :: 0 <= i < |ps| ==> FitsText(ps[i].0) && FitsRefs(ps[i].1)
  }

  predicate FitsTexts(ts: seq<Text>) {
    |ts| < Int4Limit && forall i :: 0 <= i < |ts| ==> FitsText(ts[i])
  }

  predicate FitsParams(ps: seq<(Text, Text)>) {
    |ps| < Int4Limit && forall i :: 0 <= i < |ps| ==> FitsText(ps[i].0) && FitsText(ps[i].1)
  }

  predicate FitsBuffers(ps: seq<(Text, Nested)>) {
    |ps| < Int4Limit && forall i :: 0 <= i < |ps| ==> FitsText(ps[i].0) && |ps[i].1.bytes| < Power256(4)
  }

  predicate FitsWire(w: Wire) {
    && FitsText(w.heritage) && FitsText(w.filtername) && FitsText(w.instancename)
    && Fits4(w.copyRank) && Fits4(w.numCopies) && Fits4(w.localCopyRank) && Fits4(w.localNumCopies) && Fits4(w.gftid)
    && FitsPorts(w.outs) && FitsPorts(w.ins) && FitsParams(w.params) && FitsBuffers(w.bufferParams)
    && Fits4(w.rank) && Fits4(w.clusterRank) && FitsText(w.host) && FitsText(w.givenBindHost) && FitsTexts(w.labels)
  }

  lemma {:induction false} RefsRight(rs: seq<Ref>, big: bool)
    requires FitsRefs(rs)
    ensures Right(ListOf(RefFormat(big), big), rs)
  {
    forall r | r in rs
      ensures Right(RefFormat(big), r)
    {
      Int4Right(r.0, big);
      TextRight(r.1, big);
      BothRight(Int4(big), TextFormat(big), r);
    }
    ListRight(RefFormat(big), big, rs);
  }

  lemma {:induction false} PortsRight(ps: seq<(Text, seq<Ref>)>, big: bool)
    requires FitsPorts(ps)
    ensures Right(ListOf(Ports(big), big), ps)
  {
    forall p | p in ps
      ensures Right(Ports(big), p)
    {
      TextRight(p.0, big);
      RefsRight(p.1, big);
      BothRight(TextFormat(big), ListOf(RefFormat(big), big), p);
    }
    ListRight(Ports(big), big, ps);
  }

  lemma {:induction false} ParamsRight(ps: seq<(Text, Text)>, big: bool)
    requires FitsParams(ps)
    ensures Right(ListOf(Param(big), big), ps)
  {
    forall p | p in ps
      ensures Right(Param(big), p)
    {
      TextRight(p.0, big);
      TextRight(p.1, big);
      BothRight(TextFormat(big), TextFormat(big), p);
    }
    ListRight(Param(big), big, ps);
  }

  lemma {:induction false} BuffersRight(ps: seq<(Text, Nested)>, big: bool)
    requires FitsBuffers(ps)
    ensures Right(ListOf(BufferParam(big), big), ps)
  {
    forall p | p in ps
      ensures Right(BufferParam(big), p)
    {
      TextRight(p.0, big);
      NestedRight(p.1, big);
      BothRight(TextFormat(big), NestedFormat(big), p);
    }
    ListRight(BufferParam(big), big, ps);
  }

  lemma {:induction false} TextsRight(ts: seq<Text>, big: bool)
    requires FitsTexts(ts)
    ensures Right(ListOf(TextFormat(big), big), ts)
  {
    forall t | t in ts
      ensures Right(TextFormat(big), t)
    {
      TextRight(t, big);
    }
    ListRight(TextFormat(big), big, ts);
  }

  lemma {:induction false} NamesRight(x: (Text, (Text, Text)), big: bool)
    requires FitsText(x.0) && FitsText(x.1.0) && FitsText(x.1.1)
    ensures Right(Names(big), x)
  {
    TextRight(x.0, big);
    TextRight(x.1.0, big);
    TextRight(x.1.1, big);
    BothRight(TextFormat(big), TextFormat(big), x.1);
    BothRight(TextFormat(big), Both(TextFormat(big), TextFormat(big)), x);
  }

  lemma {:induction false} CountsRight(x: (int, (int, (int, (int, int)))), big: bool)
    requires Fits4(x.0) && Fits4(x.1.0) && Fits4(x.1.1.0) && Fits4(x.1.1.1.0) && Fits4(x.1.1.1.1)
    ensures Right(Counts(big), x)
  {
    var i := Int4(big);
    Int4Right(x.0, big);
    Int4Right(x.1.0, big);
    Int4Right(x.1.1.0, big);
    Int4Right(x.1.1.1.0, big);
    Int4Right(x.1.1.1.1, big);
    BothRight(i, i, x.1.1.1);
    BothRight(i, Both(i, i), x.1.1);
    BothRight(i, Both(i, Both(i, i)), x.1);
    BothRight(i, Both(i, Both(i, Both(i, i))), x);
  }

  lemma {:induction false} PlaceRight(x: (int, (int, (Text, (Text, seq<Text>)))), big: bool)
    requires Fits4(x.0) && Fits4(x.1.0) && FitsText(x.1.1.0) && FitsText(x.1.1.1.0) && FitsTexts(x.1.1.1.1)
    ensures Right(Place(big), x)
  {
    var i, t, l := Int4(big), TextFormat(big), ListOf(TextFormat(big), big);
    Int4Right(x.0, big);
    Int4Right(x.1.0, big);
    TextRight(x.1.1.0, big);
    TextRight(x.1.1.1.0, big);
    TextsRight(x.1.1.1.1, big);
    BothRight(t, l, x.1.1.1);
    BothRight(t, Both(t, l), x.1.1);
    BothRight(i, Both(t, Both(t, l)), x.1);
    BothRight(i, Both(i, Both(t, Both(t, l))), x);
  }

  lemma {:induction false} MapsRight(m: Maps, big: bool)
    requires FitsPorts(m.0) && FitsPorts(m.1.0) && FitsParams(m.1.1.0) && FitsBuffers(m.1.1.1)
    ensures Right(MapsFormat(big), m)
  {
    var ports, params, buffers := ListOf(Ports(big), big), ListOf(Param(big), big), ListOf(BufferParam(big), big);
    PortsRight(m.0, big);
    PortsRight(m.1.0, big);
    ParamsRight(m.1.1.0, big);
    BuffersRight(m.1.1.1, big);
    BothRight(params, buffers, m.1.1);
    BothRight(ports, Both(params, buffers), m.1);
    BothRight(ports, Both(ports, Both(params, buffers)), m);
  }

  lemma {:induction false} PartsRight(x: Parts, big: bool)
    requires Right(Names(big), x.0) && Right(Counts(big), x.1.0)
    requires Right(MapsFormat(big), x.1.1.0) && Right(Place(big), x.1.1.1)
    ensures Right(PartsFormat(big), x)
  {
    BothRight(MapsFormat(big), Place(big), x.1.1);
    BothRight(Counts(big), Both(MapsFormat(big), Place(big)), x.1);
    BothRight(Names(big), Both(Counts(big), Both(MapsFormat(big), Place(big))), x);
  }

  lemma {:induction false} WireRight(w: Wire, big: bool)
    requires FitsWire(w)
    ensures Right(WireFormat(big), w)
  {
    NamesRight((w.heritage, (w.filtername, w.instancename)), big);
    CountsRight((w.copyRank, (w.numCopies, (w.localCopyRank, (w.localNumCopies, w.gftid)))), big);
    MapsRight((w.outs, (w.ins, (w.params, w.bufferParams))), big);
    PlaceRight((w.rank, (w.clusterRank, (w.host, (w.givenBindHost, w.labels)))), big);
    PartsRight(PartsOf(w), big);
    ConvertedRight(PartsFormat(big), PartsOf, FromParts, w);
  }

  /**
    A filter instance written in either byte order, its maps and sets in any order, and followed by
    anything, is restored in every serialized field, and exactly its bytes are used.
  */
  lemma {:induction false} InstanceRoundTrip(x: Instance, w: Wire, rest: seq<Byte>, big: bool)
    requires Writes(w, x) && FitsWire(w)
    ensures var r := WireFormat(big).get(WireFormat(big).put(w) + rest);
            r.Got? && Restored(r.value) == x && r.rest == rest
  {
    WireRight(w, big);
    RestoredIsWritten(w, x);
  }

  // ---------------------------------------------------------------------------
  // Layouts
  // ---------------------------------------------------------------------------

  /** Variables to set on the other side, and the rest. */
  type LayoutWire = (seq<(Text, (Text, int))>, BodyWire)

  datatype LayoutImage = LayoutImage(
    instances: seq<Instance>, broadcast: seq<Nested>, console: bool, libraries: map<Text, Text>)

  function Variable(big: bool): Format<(Text, (Text, int))> {
    Both(TextFormat(big), Both(TextFormat(big), Int4(big)))
  }

  /** What follows the variables: instances, broadcast buffer, console flag, filter libraries. */
  type BodyWire = (seq<Wire>, TailWire)

  type TailWire = (seq<Nested>, (bool, seq<(Text, Text)>))

  function Tail(big: bool): Format<TailWire> {
    Both(Maybe(NestedFormat(big)), Both(Flag(), ListOf(Param(big), big)))
  }

  function Body(big: bool): Format<BodyWire> {
    Both(ListOf(WireFormat(big), big), Tail(big))
  }

  function LayoutFormat(big: bool): Format<LayoutWire> {
    Both(ListOf(Variable(big), big), Body(big))
  }

  function RestoredLayout(w: LayoutWire): LayoutImage {
    LayoutImage(AllRestored(w.1.0), w.1.1.0, w.1.1.1.0, MapOf(w.1.1.1.1))
  }

  function AllRestored(ws: seq<Wire>): seq<Instance> {
    seq(|ws|, i requires 0 <= i < |ws| => Restored(ws[i]))
  }

  ghost predicate WritesLayout(w: LayoutWire, x: LayoutImage) {
    && |w.1.0| == |x.instances| && (forall i :: 0 <= i < |w.1.0| ==> Writes(w.1.0[i], x.instances[i]))
    && w.1.1.0 == x.broadcast && w.1.1.1.0 == x.console && Lists(w.1.1.1.1, x.libraries)
  }

  predicate FitsLayout(w: LayoutWire) {
    && |w.0| < Int4Limit && (forall i :: 0 <= i < |w.0| ==> FitsText(w.0[i].0) && FitsText(w.0[i].1.0) && Fits4(w.0[i].1.1))
    && |w.1.0| < Int4Limit && (forall i :: 0 <= i < |w.1.0| ==> FitsWire(w.1.0[i]))
    && |w.1.1.0| <= 1 && (w.1.1.0 != [] ==> |w.1.1.0[0].bytes| < Power256(4))
    && FitsParams(w.1.1.1.1)
  }

  lemma {:induction false} VariablesRight(vs: seq<(Text, (Text, int))>, big: bool)
    requires |vs| < Int4Limit
    requires forall i :: 0 <= i < |vs| ==> FitsText(vs[i].0) && FitsText(vs[i].1.0) && Fits4(vs[i].1.1)
    ensures Right(ListOf(Variable(big), big), vs)
  {
    forall v | v in vs
      ensures Right(Variable(big), v)
    {
      TextRight(v.0, big);
      TextRight(v.1.0, big);
      Int4Right(v.1.1, big);
      BothRight(TextFormat(big), Int4(big), v.1);
      BothRight(TextFormat(big), Both(TextFormat(big), Int4(big)), v);
    }
    ListRight(Variable(big), big, vs);
  }

  lemma {:induction false} WiresRight(ws: seq<Wire>, big: bool)
    requires |ws| < Int4Limit && forall i :: 0 <= i < |ws| ==> FitsWire(ws[i])
    ensures Right(ListOf(WireFormat(big), big), ws)
  {
    forall w | w in ws
      ensures Right(WireFormat(big), w)
    {
      WireRight(w, big);
    }
    ListRight(WireFormat(big), big, ws);
  }

  /** A layout is restored completely as well, instance by instance. */
  lemma {:induction false} LayoutRoundTrip(x: LayoutImage, w: LayoutWire, rest: seq<Byte>, big: bool)
    requires WritesLayout(w, x) && FitsLayout(w)
    ensures LayoutFormat(big).get(LayoutFormat(big).put(w) + rest) == Got(w, rest)
    ensures RestoredLayout(w) == x
  {
    var variables, wires := ListOf(Variable(big), big), ListOf(WireFormat(big), big);
    var broadcast, libraries := Maybe(NestedFormat(big)), ListOf(Param(big), big);
    VariablesRight(w.0, big);
    WiresRight(w.1.0, big);
    if w.1.1.0 != [] {
      NestedRight(w.1.1.0[0], big);
    }
    MaybeRight(NestedFormat(big), w.1.1.0);
    FlagRight(w.1.1.1.0);
    ParamsRight(w.1.1.1.1, big);
    BothRight(Flag(), libraries, w.1.1.1);
    BothRight(broadcast, Both(Flag(), libraries), w.1.1);
    BothRight(wires, Both(broadcast, Both(Flag(), libraries)), w.1);
    BothRight(variables, Both(wires, Both(broadcast, Both(Flag(), libraries))), w);
    LayoutRestored(w, x);
  }

  lemma {:induction false} LayoutRestored(w: LayoutWire, x: LayoutImage)
    requires WritesLayout(w, x)
    ensures RestoredLayout(w) == x
  {
    forall i | 0 <= i < |w.1.0|
      ensures Restored(w.1.0[i]) == x.instances[i]
    {
      RestoredIsWritten(w.1.0[i], x.instances[i]);
    }
    assert RestoredLayout(w).instances == x.instances;
    MapOfListed(w.1.1.1.1, x.libraries);
  }
}
