/**
  The growable byte buffer that carries messages: appending at the end, extracting from a read
  position, and the flag that says in which byte order its numbers are kept.
*/
module Buffers {
  import opened Common
  import opened Bytes

  function Times(n: nat, x: nat): nat {
    if n == 0 then 0 else if n == 1 then x else if n == 2 then 2 * x else 3 * x
  }

  /** `SwapByteArray` on one element: the bytes of src in reverse order, from position `at` on. */
  method SwapByteArray(src: seq<Byte>, dst: array<Byte>, at: nat)
    requires at + |src| <= dst.Length
    modifies dst
    ensures dst[..] == old(dst[..at]) + Reverse(src) + old(dst[at + |src|..])
  {
    var j := 0;
    while j < |src|
      invariant 0 <= j <= |src|
      invariant forall k :: 0 <= k < dst.Length ==>
        dst[k] == if at <= k < at + j then src[|src| - 1 - (k - at)] else old(dst[k])
    {
      dst[at + j] := src[|src| - j - 1];
      j := j + 1;
    }
  }

  method CopyBytes(src: seq<Byte>, dst: array<Byte>, at: nat)
    requires at + |src| <= dst.Length
    modifies dst
    ensures dst[..] == old(dst[..at]) + src + old(dst[at + |src|..])
  {
    forall j | 0 <= j < |src| {
      dst[at + j] := src[j];
    }
  }

  class DCBuffer {
    const hostBig: bool             // dcmpi_is_big_endian of the machine
    var pBuf: array?<Byte>
    var ownsBuf: bool
    var wMax: nat
    var wSize: nat
    var extracted: nat              // wSizeExtracted
    var bigEndian: bool             // _isbigendian
    var reallocs: nat               // _appendReallocs
    ghost var copied: nat           // bytes copied by reallocations since the memory was first obtained

    ghost predicate Valid()
      reads this, if pBuf == null then {} else {pBuf}
    {
      && extracted <= wSize <= wMax
      && (pBuf == null ==> wMax == 0)
      && (pBuf != null ==> wMax <= pBuf.Length)
    }

    ghost function Repr(): set<object>
      reads this
    {
      if pBuf == null then {this} else {this, pBuf}
    }

    /** The used bytes. */
    ghost function Contents(): (s: seq<Byte>)
      requires Valid()
      reads this, if pBuf == null then {} else {pBuf}
      ensures |s| == wSize
    {
      if pBuf == null then [] else pBuf[..wSize]
    }

    /** What growing has cost so far, while nothing but appending has happened. */
    ghost predicate Amortised()
      reads this
    {
      if reallocs < 4 then copied <= Times(reallocs, wSize)
      else wMax <= 2 * wSize && copied <= 3 * wSize + wMax
    }

    constructor (hostBig: bool)
      ensures Valid() && Amortised() && Contents() == [] && extracted == 0 && fresh(Repr())
      ensures this.hostBig == hostBig && bigEndian == hostBig && pBuf == null
    {
      this.hostBig := hostBig;
      pBuf, ownsBuf, wMax, wSize, extracted := null, true, 0, 0, 0;
      bigEndian, reallocs, copied := hostBig, 0, 0;
    }

    /** Memory of the given size; the byte order becomes the machine's again. */
    method New(size: nat)
      requires size > 0
      modifies this
      ensures Valid() && Amortised() && Contents() == [] && extracted == 0 && wMax == size
      ensures pBuf != null && fresh(pBuf) && ownsBuf && bigEndian == hostBig && reallocs == 0 && copied == 0
    {
      pBuf := new Byte[size];
      wMax, wSize, extracted, ownsBuf := size, 0, 0, true;
      bigEndian, reallocs, copied := hostBig, 0, 0;
    }

    /** Take over the given memory, or only use it, as `handoff` says. */
    method Set(buf: array<Byte>, max: nat, size: nat, handoff: bool)
      requires size <= max <= buf.Length
      modifies this
      ensures Valid() && extracted == 0 && bigEndian == hostBig && ownsBuf == handoff && reallocs == 0 && copied == 0
      ensures wMax == max && Contents() == buf[..size] && pBuf == if max > 0 then buf else null
    {
      if max > 0 {
        pBuf, wMax, wSize := buf, max, size;
      } else {
        pBuf, wMax, wSize := null, 0, 0;
      }
      bigEndian, reallocs, copied, ownsBuf, extracted := hostBig, 0, 0, handoff, 0;
      assert max == 0 ==> buf[..size] == [];
    }

    method Empty()
      requires Valid()
      modifies this`wSize, this`extracted
      ensures Valid() && Contents() == [] && extracted == 0
    {
      wSize, extracted := 0, 0;
    }

    method ForceEndian(big: bool)
      modifies this`bigEndian
      ensures bigEndian == big
    {
      bigEndian := big;
    }

    /** Numbers are swapped when the buffer's byte order is not the machine's. */
    predicate DoConv()
      reads this
    {
      bigEndian != hostBig
    }

    /** An append that does not fit into memory the buffer does not own ends the program. */
    ghost predicate CanGrow(n: nat)
      reads this
    {
      wSize + n <= wMax || pBuf == null || (wMax > 0 && ownsBuf)
    }

    /** Room for n more bytes: first at least 8192, three small steps, and then twice the need. */
    method Grow(n: nat)
      requires Valid() && wSize + n > wMax && CanGrow(n)
      modifies this
      ensures Valid() && Contents() == old(Contents()) && extracted == old(extracted)
      ensures wSize + n <= wMax && pBuf != null && fresh(pBuf)
      ensures bigEndian == if old(pBuf) == null then hostBig else old(bigEndian)
      ensures ownsBuf == (old(pBuf) == null || old(ownsBuf))
      ensures old(Amortised()) ==> GrownAmortised(n)
    {
      if pBuf == null {
        New(if n < 8192 then 8192 else n);
      } else {
        reallocs := reallocs + 1;
        var newMax := if reallocs >= 4 then (wSize + n) * 2 else wSize + if n > 1024 then n else 1024;
        var newBuf := new Byte[newMax];
        CopyBytes(pBuf[..wSize], newBuf, 0);
        assert newBuf[..wSize] == pBuf[..wSize];
        copied := copied + wSize;
        pBuf, wMax := newBuf, newMax;
      }
    }

    /** The cost is covered once the n bytes are there. */
    ghost predicate GrownAmortised(n: nat)
      reads this
    {
      if reallocs < 4 then copied <= Times(reallocs, wSize + n)
      else wMax <= 2 * (wSize + n) && copied <= 3 * (wSize + n) + wMax
    }

    /** Write behind the used bytes, in reverse order if told to convert. */
    method Write(add: seq<Byte>, convert: bool)
      requires Valid() && wSize + |add| <= wMax
      modifies this`wSize, if pBuf == null then {} else {pBuf}
      ensures Valid() && Contents() == old(Contents()) + if convert then Reverse(add) else add
    {
      if pBuf != null {
        if convert {
          SwapByteArray(add, pBuf, wSize);
        } else {
          CopyBytes(add, pBuf, wSize);
        }
        assert pBuf[..wSize + |add|] == pBuf[..wSize] + (if convert then Reverse(add) else add);
      }
      wSize := wSize + |add|;
    }

    /** The buffer has no memory yet, or memory of its own. */
    predicate Growable()
      reads this
    {
      pBuf == null || (wMax > 0 && ownsBuf)
    }

    /** Append bytes; false if the program would end here. */
    method Append(add: seq<Byte>, convert: bool) returns (ok: bool)
      requires Valid()
      modifies Repr()
      ensures ok <==> old(CanGrow(|add|))
      ensures Valid() && (pBuf == old(pBuf) || fresh(pBuf))
      ensures Contents() == if ok then old(Contents()) + (if convert then Reverse(add) else add) else old(Contents())
      ensures extracted == old(extracted)
      ensures bigEndian == if old(pBuf) == null && |add| > 0 then hostBig else old(bigEndian)
      ensures old(Amortised()) ==> Amortised()
      ensures old(Growable()) ==> ok && Growable()
    {
      if wSize + |add| > wMax {
        if pBuf != null && !(wMax > 0 && ownsBuf) {
          return false;
        }
        Grow(|add|);
      }
      Write(add, convert);
      return true;
    }

    /** Copy the next n bytes and move on, or nothing at all if there are fewer. */
    method Extract(n: nat, convert: bool) returns (got: nat, bytes: seq<Byte>)
      requires Valid()
      modifies this`extracted
      ensures Valid() && Contents() == old(Contents()) && extracted == old(extracted) + got
      ensures if old(extracted) + n > wSize then got == 0 && bytes == []
              else got == n && var raw := Contents()[old(extracted)..old(extracted) + n];
                               bytes == if convert then Reverse(raw) else raw
    {
      if extracted + n > wSize {
        return 0, [];
      }
      if pBuf != null {
        bytes := pBuf[extracted..extracted + n];
        assert bytes == Contents()[extracted..extracted + n];
      } else {
        bytes := [];
      }
      if convert {
        bytes := Reverse(bytes);
      }
      extracted := extracted + n;
      return n, bytes;
    }

    /** A copy of a buffer keeps its bytes and its byte order, but not the read position. */
    constructor CopyOf(t: DCBuffer)
      requires t.Valid()
      ensures Valid() && fresh(Repr()) && hostBig == t.hostBig
      ensures Contents() == t.Contents() && bigEndian == t.bigEndian && extracted == 0
    {
      hostBig := t.hostBig;
      pBuf, ownsBuf, wMax, wSize, extracted := null, true, 0, 0, 0;
      bigEndian, reallocs, copied := t.hostBig, 0, 0;
      new;
      var p := new Byte[t.wSize];
      if t.pBuf != null {
        CopyBytes(t.pBuf[..t.wSize], p, 0);
      }
      assert p[..t.wSize] == t.Contents();
      Set(p, t.wSize, t.wSize, true);
      ForceEndian(t.bigEndian);
    }
  }

  /**
    Any run of appends to a new buffer: the contents are the pieces in order, and all reallocations
    together have copied at most five times the final size.
  */
  method AppendAll(pieces: seq<seq<Byte>>, hostBig: bool) returns (b: DCBuffer)
    ensures b.Valid() && fresh(b.Repr()) && b.Contents() == Joined(pieces) && b.copied <= 5 * b.wSize
  {
    b := new DCBuffer(hostBig);
    var i := 0;
    while i < |pieces|
      invariant 0 <= i <= |pieces| && b.Valid() && fresh(b.Repr())
      invariant b.Contents() == Joined(pieces[..i]) && b.Amortised() && b.Growable()
    {
      var ok := b.Append(pieces[i], false);
      i := i + 1;
      assert pieces[..i][..i - 1] == pieces[..i - 1];
    }
    assert pieces[..i] == pieces;
  }
}
