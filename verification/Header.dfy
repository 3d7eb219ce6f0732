/**
  The packet header: 161 bytes at fixed positions, beginning with the byte order of the sender.
*/
module Header {
  import opened Bytes
  import opened Buffers

  const PortSize := 64
  const HeaderSize := 161

  /** int4 fields are kept as the nat that their 32 bits stand for. */
  datatype Packet = Packet(
    kind: nat, toRank: nat, toClusterRank: nat, toGftid: nat, toPort: seq<Byte>,
    fromRank: nat, fromClusterRank: nat, fromGftid: nat, fromPort: seq<Byte>, bodyLength: nat)

  predicate FitsHeader(p: Packet) {
    && p.kind < Power256(4) && p.toRank < Power256(4) && p.toClusterRank < Power256(4) && p.toGftid < Power256(4)
    && p.fromRank < Power256(4) && p.fromClusterRank < Power256(4) && p.fromGftid < Power256(4)
    && p.bodyLength < Power256(4) && |p.toPort| <= PortSize && |p.fromPort| <= PortSize
  }

  function FlagByte(big: bool): Byte { if big then 1 else 0 }

  /** A port name filled up with zero bytes. */
  function Filled(port: seq<Byte>): (s: seq<Byte>)
    requires |port| <= PortSize
    ensures |s| == PortSize
  {
    port + Zeros(PortSize - |port|)
  }

  /** The name that ends at the first zero byte. */
  function UpToNul(s: seq<Byte>): seq<Byte> {
    if s == [] || s[0] == 0 then [] else [s[0]] + UpToNul(s[1..])
  }

  /** The layout of the header, byte by byte. */
  function HeaderByte(p: Packet, big: bool, k: nat): Byte
    requires k < HeaderSize && |p.toPort| <= PortSize && |p.fromPort| <= PortSize
  {
    if k == 0 then FlagByte(big)
    else if k < 5 then Stored(p.kind, 4, big)[k - 1]
    else if k < 9 then Stored(p.toRank, 4, big)[k - 5]
    else if k < 13 then Stored(p.toClusterRank, 4, big)[k - 9]
    else if k < 17 then Stored(p.toGftid, 4, big)[k - 13]
    else if k < 81 then Filled(p.toPort)[k - 17]
    else if k < 85 then Stored(p.fromRank, 4, big)[k - 81]
    else if k < 89 then Stored(p.fromClusterRank, 4, big)[k - 85]
    else if k < 93 then Stored(p.fromGftid, 4, big)[k - 89]
    else if k < 157 then Filled(p.fromPort)[k - 93]
    else Stored(p.bodyLength, 4, big)[k - 157]
  }

  function HeaderBytes(p: Packet, big: bool): (s: seq<Byte>)
    requires |p.toPort| <= PortSize && |p.fromPort| <= PortSize
    ensures |s| == HeaderSize
  {
    seq(HeaderSize, k requires 0 <= k < HeaderSize => HeaderByte(p, big, k))
  }

  /** A number field on this machine, swapped first if the sender's byte order is not its own. */
  function Field(s: seq<Byte>, at: nat, hostBig: bool): nat
    requires at + 4 <= |s| && s != []
  {
    Swapped(s[at..at + 4], s[0] != FlagByte(hostBig), hostBig)
  }

  function Swapped(raw: seq<Byte>, swap: bool, hostBig: bool): nat {
    Loaded(if swap then Reverse(raw) else raw, hostBig)
  }

  function ParsedHeader(s: seq<Byte>, hostBig: bool): Packet
    requires |s| == HeaderSize
  {
    Packet(Field(s, 1, hostBig), Field(s, 5, hostBig), Field(s, 9, hostBig), Field(s, 13, hostBig), UpToNul(s[17..81]),
           Field(s, 81, hostBig), Field(s, 85, hostBig), Field(s, 89, hostBig), UpToNul(s[93..157]), Field(s, 157, hostBig))
  }

  // ---------------------------------------------------------------------------
  // Round trip
  // ---------------------------------------------------------------------------

  lemma {:induction false} FieldRoundTrip(s: seq<Byte>, at: nat, x: nat, big: bool, hostBig: bool)
    requires at + 4 <= |s| && s != [] && s[0] == FlagByte(big) && x < Power256(4)
    requires s[at..at + 4] == Stored(x, 4, big)
    ensures Field(s, at, hostBig) == x
  {
    SwapStored(x, 4, big);
    StoreLoad(x, 4, hostBig);
  }

  lemma {:induction false} UpToNulFilled(port: seq<Byte>, zeros: nat)
    ensures UpToNul(port + Zeros(zeros)) == UpToNul(port)
    decreases |port|
  {
    if port == [] {
      assert port + Zeros(zeros) == Zeros(zeros);
    } else {
      assert (port + Zeros(zeros))[1..] == port[1..] + Zeros(zeros);
      UpToNulFilled(port[1..], zeros);
    }
  }

  lemma {:induction false} UpToNulWhole(port: seq<Byte>)
    ensures UpToNul(port) == port <==> 0 !in port
    ensures |UpToNul(port)| <= |port|
    decreases |port|
  {
    if port != [] {
      UpToNulWhole(port[1..]);
      assert port == [port[0]] + port[1..];
      if port[0] != 0 && UpToNul(port) == port {
        assert UpToNul(port)[1..] == UpToNul(port[1..]);
      }
    }
  }

  lemma {:induction false} SliceAt(p: Packet, big: bool, at: nat, x: nat)
    requires |p.toPort| <= PortSize && |p.fromPort| <= PortSize && at + 4 <= HeaderSize
    requires forall k :: 0 <= k < 4 ==> HeaderByte(p, big, at + k) == Stored(x, 4, big)[k]
    ensures HeaderBytes(p, big)[at..at + 4] == Stored(x, 4, big)
  {
    var s := HeaderBytes(p, big);
    forall k | 0 <= k < 4
      ensures s[at..at + 4][k] == Stored(x, 4, big)[k]
    {
      assert s[at + k] == HeaderByte(p, big, at + k);
    }
  }

  lemma {:induction false} Slices(p: Packet, big: bool)
    requires |p.toPort| <= PortSize && |p.fromPort| <= PortSize
    ensures var s := HeaderBytes(p, big);
            && s[1..5] == Stored(p.kind, 4, big) && s[5..9] == Stored(p.toRank, 4, big)
            && s[9..13] == Stored(p.toClusterRank, 4, big) && s[13..17] == Stored(p.toGftid, 4, big)
            && s[81..85] == Stored(p.fromRank, 4, big) && s[85..89] == Stored(p.fromClusterRank, 4, big)
            && s[89..93] == Stored(p.fromGftid, 4, big) && s[157..161] == Stored(p.bodyLength, 4, big)
  {
    SliceAt(p, big, 1, p.kind);
    SliceAt(p, big, 5, p.toRank);
    SliceAt(p, big, 9, p.toClusterRank);
    SliceAt(p, big, 13, p.toGftid);
    SliceAt(p, big, 81, p.fromRank);
    SliceAt(p, big, 85, p.fromClusterRank);
    SliceAt(p, big, 89, p.fromGftid);
    SliceAt(p, big, 157, p.bodyLength);
  }

  lemma {:induction false} FirstByte(p: Packet, big: bool)
    requires |p.toPort| <= PortSize && |p.fromPort| <= PortSize
    ensures HeaderBytes(p, big)[0] == if big then 1 else 0
  {
  }

  lemma {:induction false} PortSlices(p: Packet, big: bool)
    requires |p.toPort| <= PortSize && |p.fromPort| <= PortSize
    ensures HeaderBytes(p, big)[17..81] == Filled(p.toPort)
    ensures HeaderBytes(p, big)[93..157] == Filled(p.fromPort)
  {
  }

  lemma {:induction false} ToFieldsRestored(p: Packet, from: bool, to: bool)
    requires FitsHeader(p)
    ensures var s := HeaderBytes(p, from);
            && Field(s, 1, to) == p.kind && Field(s, 5, to) == p.toRank
            && Field(s, 9, to) == p.toClusterRank && Field(s, 13, to) == p.toGftid
  {
    var s := HeaderBytes(p, from);
    Slices(p, from);
    FieldRoundTrip(s, 1, p.kind, from, to);
    FieldRoundTrip(s, 5, p.toRank, from, to);
    FieldRoundTrip(s, 9, p.toClusterRank, from, to);
    FieldRoundTrip(s, 13, p.toGftid, from, to);
  }

  lemma {:induction false} FromFieldsRestored(p: Packet, from: bool, to: bool)
    requires FitsHeader(p)
    ensures var s := HeaderBytes(p, from);
            && Field(s, 81, to) == p.fromRank && Field(s, 85, to) == p.fromClusterRank
            && Field(s, 89, to) == p.fromGftid && Field(s, 157, to) == p.bodyLength
  {
    var s := HeaderBytes(p, from);
    Slices(p, from);
    FieldRoundTrip(s, 81, p.fromRank, from, to);
    FieldRoundTrip(s, 85, p.fromClusterRank, from, to);
    FieldRoundTrip(s, 89, p.fromGftid, from, to);
    FieldRoundTrip(s, 157, p.bodyLength, from, to);
  }

  lemma {:induction false} PortsRestored(p: Packet, from: bool)
    requires FitsHeader(p)
    ensures var s := HeaderBytes(p, from);
            UpToNul(s[17..81]) == UpToNul(p.toPort) && UpToNul(s[93..157]) == UpToNul(p.fromPort)
  {
    PortSlices(p, from);
    UpToNulFilled(p.toPort, PortSize - |p.toPort|);
    UpToNulFilled(p.fromPort, PortSize - |p.fromPort|);
  }

  /**
    For every packet and every pair of byte orders: all numbers are restored, and each port name up
    to its first zero byte.
  */
  lemma {:induction false} HeaderRestores(p: Packet, from: bool, to: bool)
    requires FitsHeader(p)
    ensures ParsedHeader(HeaderBytes(p, from), to) == p.(toPort := UpToNul(p.toPort), fromPort := UpToNul(p.fromPort))
  {
    ToFieldsRestored(p, from, to);
    FromFieldsRestored(p, from, to);
    PortsRestored(p, from);
  }

  /** So the whole packet comes back exactly when neither port name contains a zero byte. */
  lemma {:induction false} HeaderRoundTrip(p: Packet, from: bool, to: bool)
    requires FitsHeader(p)
    ensures ParsedHeader(HeaderBytes(p, from), to) == p <==> 0 !in p.toPort && 0 !in p.fromPort
  {
    HeaderRestores(p, from, to);
    UpToNulWhole(p.toPort);
    UpToNulWhole(p.fromPort);
  }

  // ---------------------------------------------------------------------------
  // The code
  // ---------------------------------------------------------------------------

  /** Everything before the pointer is as the layout says. */
  ghost predicate Written(hdr: array<Byte>, p: Packet, big: bool, at: nat)
    requires |p.toPort| <= PortSize && |p.fromPort| <= PortSize
    reads hdr
  {
    hdr.Length == HeaderSize && at <= HeaderSize && forall k :: 0 <= k < at ==> hdr[k] == HeaderByte(p, big, k)
  }

  /** Write bytes at the pointer and move it on. */
  method Put(hdr: array<Byte>, at: nat, bytes: seq<Byte>, ghost p: Packet, ghost big: bool) returns (next: nat)
    requires |p.toPort| <= PortSize && |p.fromPort| <= PortSize
    requires Written(hdr, p, big, at) && at + |bytes| <= HeaderSize
    requires forall j :: 0 <= j < |bytes| ==> HeaderByte(p, big, at + j) == bytes[j]
    modifies hdr
    ensures next == at + |bytes| && Written(hdr, p, big, next)
  {
    forall j | 0 <= j < |bytes| {
      hdr[at + j] := bytes[j];
    }
    next := at + |bytes|;
    forall k | 0 <= k < next
      ensures hdr[k] == HeaderByte(p, big, k)
    {
      if k >= at {
        assert hdr[at + (k - at)] == bytes[k - at];
      }
    }
  }

  /** `memcpy` of the name, and `memset` of what is left of its place. */
  method PutPort(hdr: array<Byte>, at: nat, port: seq<Byte>, ghost p: Packet, ghost big: bool) returns (next: nat)
    requires |p.toPort| <= PortSize && |p.fromPort| <= PortSize && |port| <= PortSize
    requires Written(hdr, p, big, at) && at + PortSize <= HeaderSize
    requires forall j :: 0 <= j < PortSize ==> HeaderByte(p, big, at + j) == Filled(port)[j]
    modifies hdr
    ensures next == at + PortSize && Written(hdr, p, big, next)
  {
    assert forall j :: 0 <= j < |port| ==> Filled(port)[j] == port[j];
    next := Put(hdr, at, port, p, big);
    var fill := PortSize - |port|;
    forall j | 0 <= j < fill
      ensures HeaderByte(p, big, next + j) == Zeros(fill)[j]
    {
      assert HeaderByte(p, big, at + (|port| + j)) == Filled(port)[|port| + j];
    }
    next := Put(hdr, next, Zeros(fill), p, big);
  }

  /** The byte order, the type and where the packet goes. */
  method PutDestination(p: Packet, hostBig: bool, hdr: array<Byte>) returns (at: nat)
    requires hdr.Length == HeaderSize && |p.toPort| <= PortSize && |p.fromPort| <= PortSize
    modifies hdr
    ensures at == 81 && Written(hdr, p, hostBig, at)
  {
    hdr[0] := FlagByte(hostBig);
    at := 1;
    at := Put(hdr, at, Stored(p.kind, 4, hostBig), p, hostBig);
    at := Put(hdr, at, Stored(p.toRank, 4, hostBig), p, hostBig);
    at := Put(hdr, at, Stored(p.toClusterRank, 4, hostBig), p, hostBig);
    at := Put(hdr, at, Stored(p.toGftid, 4, hostBig), p, hostBig);
    at := PutPort(hdr, at, p.toPort, p, hostBig);
  }

  /** `to_bytearray`. */
  method ToByteArray(p: Packet, hostBig: bool, hdr: array<Byte>)
    requires hdr.Length == HeaderSize && |p.toPort| <= PortSize && |p.fromPort| <= PortSize
    modifies hdr
    ensures hdr[..] == HeaderBytes(p, hostBig)
  {
    var at := PutDestination(p, hostBig, hdr);
    at := Put(hdr, at, Stored(p.fromRank, 4, hostBig), p, hostBig);
    at := Put(hdr, at, Stored(p.fromClusterRank, 4, hostBig), p, hostBig);
    at := Put(hdr, at, Stored(p.fromGftid, 4, hostBig), p, hostBig);
    at := PutPort(hdr, at, p.fromPort, p, hostBig);
    at := Put(hdr, at, Stored(p.bodyLength, 4, hostBig), p, hostBig);
  }

  /** `dcmpi_endian_swap`: exchange from both ends until the pointers meet. */
  method EndianSwap(a: array<Byte>, at: nat, len: nat)
    requires at + len <= a.Length
    modifies a
    ensures forall k :: 0 <= k < a.Length && !(at <= k < at + len) ==> a[k] == old(a[k])
    ensures a[at..at + len] == Reverse(old(a[at..at + len]))
  {
    var bs, be: int := at, at + len - 1;
    while bs < be
      invariant at <= bs && bs + be == at + at + len - 1 && be >= bs - 1
      invariant forall k :: 0 <= k < a.Length ==>
        a[k] == if (at <= k < bs || be < k < at + len) then old(a[at + at + len - 1 - k]) else old(a[k])
    {
      a[bs], a[be] := a[be], a[bs];
      bs, be := bs + 1, be - 1;
    }
    ghost var now, was := a[at..at + len], old(a[at..at + len]);
    forall i | 0 <= i < |now|
      ensures now[i] == was[|was| - 1 - i]
    {
      assert a[at + i] == old(a[at + at + len - 1 - (at + i)]);
    }
    IsReverse(now, was);
  }

  /** One number at the pointer, swapped in place if necessary; what follows is still as received. */
  method TakeField(hdr: array<Byte>, at: nat, swap: bool, hostBig: bool, ghost s: seq<Byte>) returns (x: nat)
    requires hdr.Length == |s| && at + 4 <= |s| && hdr[at..] == s[at..]
    modifies hdr
    ensures x == Swapped(s[at..at + 4], swap, hostBig)
    ensures hdr[at + 4..] == s[at + 4..]
  {
    Cut(s, at, 4);
    assert hdr[at..at + 4] == hdr[at..][..4] && hdr[at + 4..] == hdr[at..][4..];
    if swap {
      EndianSwap(hdr, at, 4);
    }
    x := Loaded(hdr[at..at + 4], hostBig);
  }

  /** The name in the 64 bytes at the pointer. */
  method TakePort(hdr: array<Byte>, at: nat, ghost s: seq<Byte>) returns (port: seq<Byte>)
    requires hdr.Length == |s| && at + PortSize <= |s| && hdr[at..] == s[at..]
    ensures port == UpToNul(s[at..at + PortSize]) && hdr[at + PortSize..] == s[at + PortSize..]
  {
    Cut(s, at, PortSize);
    assert hdr[at..at + PortSize] == hdr[at..][..PortSize] && hdr[at + PortSize..] == hdr[at..][PortSize..];
    port := UpToNul(hdr[at..at + PortSize]);
  }

  /** Half of the header: three numbers and a name at the pointer. */
  method TakeAddress(hdr: array<Byte>, at: nat, swap: bool, hostBig: bool, ghost s: seq<Byte>)
    returns (rank: nat, clusterRank: nat, gftid: nat, port: seq<Byte>)
    requires hdr.Length == |s| && at + 12 + PortSize <= |s| && hdr[at..] == s[at..]
    modifies hdr
    ensures rank == Swapped(s[at..at + 4], swap, hostBig) && clusterRank == Swapped(s[at + 4..at + 8], swap, hostBig)
    ensures gftid == Swapped(s[at + 8..at + 12], swap, hostBig) && port == UpToNul(s[at + 12..at + 12 + PortSize])
    ensures hdr[at + 12 + PortSize..] == s[at + 12 + PortSize..]
  {
    rank := TakeField(hdr, at, swap, hostBig, s);
    clusterRank := TakeField(hdr, at + 4, swap, hostBig, s);
    gftid := TakeField(hdr, at + 8, swap, hostBig, s);
    port := TakePort(hdr, at + 12, s);
  }

  /** `init_from_bytearray`. */
  method InitFromByteArray(hdr: array<Byte>, hostBig: bool) returns (p: Packet)
    requires hdr.Length == HeaderSize
    modifies hdr
    ensures p == ParsedHeader(old(hdr[..]), hostBig)
  {
    ghost var s := hdr[..];
    var swap := hdr[0] != FlagByte(hostBig);
    assert hdr[1..] == s[1..];
    var kind := TakeField(hdr, 1, swap, hostBig, s);
    var toRank, toClusterRank, toGftid, toPort := TakeAddress(hdr, 5, swap, hostBig, s);
    var fromRank, fromClusterRank, fromGftid, fromPort := TakeAddress(hdr, 81, swap, hostBig, s);
    var bodyLength := TakeField(hdr, 157, swap, hostBig, s);
    p := Packet(kind, toRank, toClusterRank, toGftid, toPort, fromRank, fromClusterRank, fromGftid, fromPort, bodyLength);
  }
}
