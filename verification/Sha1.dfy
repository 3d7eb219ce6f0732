/**
  The Secure Hash Algorithm of FIPS 180-1, and the streaming implementation: a 16-word circular
  schedule, registers that are renamed instead of shifted, and a context that takes a message in
  pieces.
*/
module Sha1 {
  import opened Common
  import opened Bytes

  type Word = bv32

  // ---------------------------------------------------------------------------
  // The standard
  // ---------------------------------------------------------------------------

  datatype Regs = Regs(a: Word, b: Word, c: Word, d: Word, e: Word)

  const H0 := Regs(0x67452301, 0xEFCDAB89, 0x98BADCFE, 0x10325476, 0xC3D2E1F0)

  function Rotl1(x: Word): Word { (x << 1) | (x >> 31) }
  function Rotl5(x: Word): Word { (x << 5) | (x >> 27) }
  function Rotl30(x: Word): Word { (x << 30) | (x >> 2) }

  /** The functions of section 5. */
  function F(t: nat, b: Word, c: Word, d: Word): Word {
    if t < 20 then (b & c) | (!b & d)
    else if t < 40 then b ^ c ^ d
    else if t < 60 then (b & c) | (b & d) | (c & d)
    else b ^ c ^ d
  }

  /** The constants of section 6. */
  function K(t: nat): Word {
    if t < 20 then 0x5A827999 else if t < 40 then 0x6ED9EBA1 else if t < 60 then 0x8F1BBCDC else 0xCA62C1D6
  }

  function ToWord(data: seq<Byte>, i: nat): Word
    requires i + 4 <= |data|
  {
    ((data[i] as Word) << 24) | ((data[i + 1] as Word) << 16) | ((data[i + 2] as Word) << 8) | (data[i + 3] as Word)
  }

  /** The message schedule W(0), W(1), ... of a block, section 7 (a) and (b). */
  function W(block: seq<Byte>, t: nat): Word
    requires |block| == 64
  {
    if t < 16 then ToWord(block, 4 * t)
    else Mix(W(block, t - 3), W(block, t - 8), W(block, t - 14), W(block, t - 16))
  }

  function Mix(w: Word, x: Word, y: Word, z: Word): Word { Rotl1(w ^ x ^ y ^ z) }

  /** One step of section 7 (d). */
  function Step(t: nat, r: Regs, w: Word): Regs {
    Regs(Sum(Rotl5(r.a), F(t, r.b, r.c, r.d), r.e, w, K(t)), r.a, Rotl30(r.b), r.c, r.d)
  }

  /** Addition modulo 2^32. */
  function Sum(s: Word, f: Word, e: Word, w: Word, k: Word): Word { s + f + e + w + k }

  function Steps(r: Regs, block: seq<Byte>, t: nat): Regs
    requires |block| == 64
    decreases block, t
  {
    if t == 0 then r else Step(t - 1, Steps(r, block, t - 1), W(block, t - 1))
  }

  function Compress(h: Regs, block: seq<Byte>): Regs
    requires |block| == 64
  {
    AddRegs(h, Steps(h, block, 80))
  }

  function AddRegs(h: Regs, r: Regs): Regs {
    Regs(h.a + r.a, h.b + r.b, h.c + r.c, h.d + r.d, h.e + r.e)
  }

  /** The chaining value after all whole blocks of m. */
  function Chain(m: seq<Byte>): Regs
    requires |m| % 64 == 0
  {
    if m == [] then H0 else Compress(Chain(m[..|m| - 64]), m[|m| - 64..])
  }

  const TwoTo32: nat := 0x1_0000_0000
  const TwoTo64: nat := 0x1_0000_0000_0000_0000

  /** How many zero bytes follow the byte 0x80, section 4. */
  function ZeroCount(n: nat): (k: nat)
    ensures k < 64 && (n + 1 + k + 8) % 64 == 0
  {
    if n % 64 < 56 then 55 - n % 64 else 119 - n % 64
  }

  /** A message padded to whole blocks, section 4; its length in bits is taken modulo 2^64. */
  function Pad(m: seq<Byte>): (p: seq<Byte>)
    ensures |p| % 64 == 0 && m <= p
  {
    m + ([0x80] + Zeros(ZeroCount(|m|))) + BigEndian(8 * |m| % TwoTo64, 8)
  }

  function WordBytes(x: Word): seq<Byte> {
    [((x >> 24) & 0xFF) as Byte, ((x >> 16) & 0xFF) as Byte, ((x >> 8) & 0xFF) as Byte, (x & 0xFF) as Byte]
  }

  function DigestOf(r: Regs): seq<Byte> {
    WordBytes(r.a) + WordBytes(r.b) + WordBytes(r.c) + WordBytes(r.d) + WordBytes(r.e)
  }

  function Digest(m: seq<Byte>): seq<Byte> {
    DigestOf(Chain(Pad(m)))
  }

  /** The padding is the shortest that ends on a block boundary. */
  lemma {:induction false} PaddingIsShortest(n: nat, k: nat)
    requires (n + 1 + k + 8) % 64 == 0
    ensures ZeroCount(n) <= k
  {
    var r := n % 64;
    assert (r + 9 + k) % 64 == 0 by {
      assert n + 1 + k + 8 == 64 * (n / 64) + (r + 9 + k);
    }
  }

  // ---------------------------------------------------------------------------
  // One block
  // ---------------------------------------------------------------------------

  /** The forms of the functions that the code uses. */
  function CodeF(t: nat, x: Word, y: Word, z: Word): Word {
    if t < 20 then z ^ (x & (y ^ z))
    else if t < 40 then x ^ y ^ z
    else if t < 60 then (x & y) | (z & (x | y))
    else x ^ y ^ z
  }

  lemma {:induction false} SameFunction(t: nat, x: Word, y: Word, z: Word)
    ensures CodeF(t, x, y, z) == F(t, x, y, z)
  {
    Choose(x, y, z);
    Majority(x, y, z);
  }

  lemma {:induction false} Choose(x: Word, y: Word, z: Word)
    ensures z ^ (x & (y ^ z)) == (x & y) | (!x & z)
  {
  }

  lemma {:induction false} Majority(x: Word, y: Word, z: Word)
    ensures (x & y) | (z & (x | y)) == (x & y) | (x & z) | (y & z)
  {
  }

  /**
    One line of the code: with the registers named as the caller names them, two of them change,
    and read in the order e, a, b, c, d they are the shifted registers of the standard.
  */
  method P(t: nat, a: Word, b: Word, c: Word, d: Word, e: Word, x: Word) returns (e': Word, b': Word)
    ensures Regs(e', a, b', c, d) == Step(t, Regs(a, b, c, d, e), x)
  {
    SameFunction(t, b, c, d);
    e' := AddTo(e, Rotl5(a), CodeF(t, b, c, d), K(t), x);
    b' := Rotl30(b);
  }

  method AddTo(e: Word, s: Word, f: Word, k: Word, x: Word) returns (r: Word)
    ensures r == Sum(s, f, e, x, k)
  {
    r := e + (s + f + k + x);
  }

  /** The circular buffer holds the last sixteen words of the schedule before t. */
  ghost predicate HoldsSchedule(w: seq<Word>, block: seq<Byte>, t: nat) {
    |w| == 16 && |block| == 64 && t >= 16 && forall j :: t - 16 <= j < t ==> w[j % 16] == W(block, j)
  }

  /** The next word of the schedule, computed in place for t >= 16. */
  method R(w: array<Word>, t: nat, ghost block: seq<Byte>) returns (x: Word)
    requires w.Length == 16 && HoldsSchedule(w[..], block, t)
    modifies w
    ensures x == W(block, t) && HoldsSchedule(w[..], block, t + 1)
  {
    assert w[..][(t - 3) % 16] == W(block, t - 3);
    assert w[..][(t - 8) % 16] == W(block, t - 8);
    assert w[..][(t - 14) % 16] == W(block, t - 14);
    assert w[..][(t - 16) % 16] == W(block, t - 16);
    x := Mix(w[(t - 3) % 16], w[(t - 8) % 16], w[(t - 14) % 16], w[t % 16]);
    w[t % 16] := x;
  }

  /** The word of step t: as loaded for the first sixteen steps, then from the schedule. */
  method NextWord(w: array<Word>, t: nat, ghost block: seq<Byte>) returns (x: Word)
    requires w.Length == 16 && |block| == 64
    requires if t < 16 then HoldsSchedule(w[..], block, 16) else HoldsSchedule(w[..], block, t)
    modifies w
    ensures x == W(block, t)
    ensures if t + 1 < 16 then HoldsSchedule(w[..], block, 16) else HoldsSchedule(w[..], block, t + 1)
  {
    if t < 16 {
      assert w[..][t % 16] == W(block, t);
      x := w[t];
    } else {
      x := R(w, t, block);
    }
  }

  /** Five lines of the code, after which the registers have their first names again. */
  method FiveSteps(w: array<Word>, t: nat, r: Regs, ghost h: Regs, ghost block: seq<Byte>) returns (r': Regs)
    requires w.Length == 16 && |block| == 64
    requires if t < 16 then HoldsSchedule(w[..], block, 16) else HoldsSchedule(w[..], block, t)
    requires r == Steps(h, block, t)
    modifies w
    ensures r' == Steps(h, block, t + 5)
    ensures if t + 5 < 16 then HoldsSchedule(w[..], block, 16) else HoldsSchedule(w[..], block, t + 5)
  {
    var A, B, C, D, E := r.a, r.b, r.c, r.d, r.e;
    var x := NextWord(w, t, block);
    E, B := P(t, A, B, C, D, E, x);
    assert Regs(E, A, B, C, D) == Steps(h, block, t + 1);
    x := NextWord(w, t + 1, block);
    D, A := P(t + 1, E, A, B, C, D, x);
    assert Regs(D, E, A, B, C) == Steps(h, block, t + 2);
    x := NextWord(w, t + 2, block);
    C, E := P(t + 2, D, E, A, B, C, x);
    assert Regs(C, D, E, A, B) == Steps(h, block, t + 3);
    x := NextWord(w, t + 3, block);
    B, D := P(t + 3, C, D, E, A, B, x);
    assert Regs(B, C, D, E, A) == Steps(h, block, t + 4);
    x := NextWord(w, t + 4, block);
    A, C := P(t + 4, B, C, D, E, A, x);
    r' := Regs(A, B, C, D, E);
  }

  method LoadBlock(data: seq<Byte>) returns (w: array<Word>)
    requires |data| == 64
    ensures fresh(w) && w.Length == 16 && HoldsSchedule(w[..], data, 16)
  {
    w := new Word[16];
    var i := 0;
    while i < 16
      invariant 0 <= i <= 16 && forall j :: 0 <= j < i ==> w[j] == ToWord(data, 4 * j)
    {
      w[i] := ToWord(data, 4 * i);
      i := i + 1;
    }
    assert forall j :: 0 <= j < 16 ==> j % 16 == j;
  }

  /** Where the last whole block of n bytes ends. */
  function Whole(n: nat): (k: nat)
    ensures k <= n < k + 64 && k % 64 == 0
    ensures n - k == n % 64
  {
    n - n % 64
  }

  lemma {:induction false} WholeIs(n: nat, k: nat)
    requires k <= n < k + 64 && k % 64 == 0
    ensures Whole(n) == k
  {
  }

  class Context {
    var total0: nat
    var total1: nat
    var state: Regs
    const buffer: array<Byte>
    ghost var message: seq<Byte>

    /** The context stands for the message taken so far. */
    ghost predicate Valid()
      reads this, buffer
    {
      var n := |message|;
      && buffer.Length == 64
      && total0 == n % TwoTo32
      && total1 == n / TwoTo32 % TwoTo32
      && state == Chain(message[..Whole(n)])
      && buffer[..n - Whole(n)] == message[Whole(n)..]
    }

    constructor ()
      ensures Valid() && fresh(buffer) && message == []
    {
      total0, total1, state, message := 0, 0, H0, [];
      buffer := new Byte[64];
    }

    /** `sha1_starts`. */
    method Starts()
      requires buffer.Length == 64
      modifies this
      ensures Valid() && message == []
    {
      total0, total1, state, message := 0, 0, H0, [];
    }

    method Process(data: seq<Byte>)
      requires |data| == 64
      modifies this`state
      ensures state == Compress(old(state), data)
    {
      var w := LoadBlock(data);
      var r, t := state, 0;
      while t < 80
        invariant 0 <= t <= 80 && t % 5 == 0
        invariant r == Steps(state, data, t) && state == old(state)
        invariant if t < 16 then HoldsSchedule(w[..], data, 16) else HoldsSchedule(w[..], data, t)
      {
        r := FiveSteps(w, t, r, state, data);
        t := t + 5;
      }
      state := AddRegs(state, r);
    }

    /** `memcpy` into the buffer. */
    method Copy(left: nat, part: seq<Byte>)
      requires buffer.Length == 64 && left + |part| <= 64
      modifies buffer
      ensures buffer[..left + |part|] == old(buffer[..left]) + part
    {
      forall i | 0 <= i < |part| {
        buffer[left + i] := part[i];
      }
    }

    /** Count the bytes of a piece: the low word wraps and the carry goes to the high word. */
    method Count(length: nat)
      requires 0 < length < TwoTo32 && total0 == |message| % TwoTo32 && total1 == |message| / TwoTo32 % TwoTo32
      modifies this`total0, this`total1
      ensures total0 == (|message| + length) % TwoTo32 && total1 == (|message| + length) / TwoTo32 % TwoTo32
    {
      CountCarries(|message|, length);
      total0 := (total0 + length) % TwoTo32;
      if total0 < length {
        total1 := (total1 + 1) % TwoTo32;
      }
    }

    /** The state after the whole blocks before `from`, with the bytes of `rest` still to come. */
    ghost predicate Resumable(from: nat, left: nat, rest: seq<Byte>, all: seq<Byte>)
      reads this`state, buffer
    {
      && buffer.Length == 64 && left < 64 && (left > 0 ==> left + |rest| < 64)
      && from % 64 == 0 && from + left + |rest| == |all|
      && state == Chain(all[..from])
      && all[from..] == buffer[..left] + rest
    }

    /** The start of `sha1_update`: complete the buffered block if the piece reaches its end. */
    method FillBuffer(start: nat, input: seq<Byte>) returns (left: nat, rest: seq<Byte>, ghost from: nat)
      requires buffer.Length == 64 && start < 64 && start <= |message| && (|message| - start) % 64 == 0
      requires state == Chain(message[..|message| - start]) && buffer[..start] == message[|message| - start..]
      modifies this`state, buffer
      ensures Resumable(from, left, rest, message + input)
    {
      var fill := 64 - start;
      from, left, rest := |message| - start, start, input;
      ghost var all := message + input;
      assert all[..from] == message[..from] && all[from..] == buffer[..left] + rest;
      if left > 0 && |rest| >= fill {
        Copy(left, rest[..fill]);
        assert buffer[..] == buffer[..64];
        NextBlock(all, from, buffer[..], rest[fill..]);
        Process(buffer[..]);
        rest := rest[fill..];
        from, left := from + 64, 0;
      }
    }

    /** The loop over whole blocks; with buffered bytes left there is not enough for one. */
    method WholeBlocks(ghost start: nat, left: nat, piece: seq<Byte>, ghost all: seq<Byte>)
      returns (rest: seq<Byte>, ghost from: nat)
      requires Resumable(start, left, piece, all)
      modifies this`state
      ensures |rest| + left < 64 && Resumable(from, left, rest, all)
    {
      rest, from := piece, start;
      while |rest| >= 64
        invariant Resumable(from, left, rest, all)
      {
        ProcessFirst(from, rest, all);
        rest, from := rest[64..], from + 64;
      }
    }

    method ProcessFirst(ghost from: nat, rest: seq<Byte>, ghost all: seq<Byte>)
      requires |rest| >= 64 && Resumable(from, 0, rest, all)
      modifies this`state
      ensures Resumable(from + 64, 0, rest[64..], all)
    {
      assert buffer[..0] + rest == rest[..64] + rest[64..];
      NextBlock(all, from, rest[..64], rest[64..]);
      Process(rest[..64]);
      assert buffer[..0] + rest[64..] == rest[64..];
    }

    /** The tail of a piece goes into the buffer. */
    method KeepTail(left: nat, rest: seq<Byte>, ghost from: nat, ghost all: seq<Byte>)
      requires |rest| + left < 64 && Resumable(from, left, rest, all)
      modifies buffer
      ensures state == Chain(all[..Whole(|all|)]) && buffer[..|all| - Whole(|all|)] == all[Whole(|all|)..]
    {
      Copy(left, rest);
      WholeIs(|all|, from);
    }

    /** The part of `sha1_update` that moves bytes. */
    method Absorb(left: nat, input: seq<Byte>)
      requires buffer.Length == 64 && left == |message| - Whole(|message|)
      requires state == Chain(message[..Whole(|message|)]) && buffer[..left] == message[Whole(|message|)..]
      modifies this`state, buffer
      ensures var all := message + input;
              state == Chain(all[..Whole(|all|)]) && buffer[..|all| - Whole(|all|)] == all[Whole(|all|)..]
    {
      ghost var all := message + input;
      var left', rest, from := FillBuffer(left, input);
      rest, from := WholeBlocks(from, left', rest, all);
      KeepTail(left', rest, from, all);
    }

    /** `sha1_update`: the context stands for the message with the piece appended. */
    method Update(input: seq<Byte>)
      requires Valid() && |input| < TwoTo32
      modifies this, buffer
      ensures Valid() && message == old(message) + input
    {
      if |input| == 0 {
        assert message + input == message;
        return;
      }
      LowBits(|message|);
      var left := total0 % 64;
      Count(|input|);
      Absorb(left, input);
      message := message + input;
    }

    /** The eight length bytes of the code are those of the standard. */
    method LengthBytes() returns (msglen: seq<Byte>)
      requires Valid()
      ensures msglen == BigEndian(8 * |message| % TwoTo64, 8)
    {
      LengthWords(|message|, total0, total1);
      var high := total0 / 0x2000_0000 + total1 * 8 % TwoTo32;
      var low := total0 * 8 % TwoTo32;
      msglen := BigEndian(high, 4) + BigEndian(low, 4);
    }

    /** The slice of the padding constant that the code appends. */
    method PaddingBytes() returns (padding: seq<Byte>)
      requires Valid()
      ensures padding == [0x80] + Zeros(ZeroCount(|message|))
    {
      LowBits(|message|);
      var last := total0 % 64;
      var padn := if last < 56 then 56 - last else 120 - last;
      padding := ([0x80] + Zeros(63))[..padn];
    }

    /** `sha1_finish`: the digest of the whole message. */
    method Finish() returns (digest: seq<Byte>)
      requires Valid()
      modifies this, buffer
      ensures digest == Digest(old(message))
    {
      var msglen := LengthBytes();
      var padding := PaddingBytes();
      Update(padding);
      Update(msglen);
      assert message == Pad(old(message));
      WholeMessage(message);
      digest := PutState();
    }

    method PutState() returns (digest: seq<Byte>)
      ensures digest == DigestOf(state)
    {
      digest := WordBytes(state.a) + WordBytes(state.b) + WordBytes(state.c) + WordBytes(state.d) + WordBytes(state.e);
    }
  }

  /** However a message is cut into pieces, its digest is that of the standard. */
  method DigestOfPieces(pieces: seq<seq<Byte>>) returns (digest: seq<Byte>)
    requires forall i :: 0 <= i < |pieces| ==> |pieces[i]| < TwoTo32
    ensures digest == Digest(Joined(pieces))
  {
    var context := new Context();
    context.Starts();
    var i := 0;
    while i < |pieces|
      invariant 0 <= i <= |pieces| && context.Valid() && fresh(context.buffer)
      invariant context.message == Joined(pieces[..i])
    {
      context.Update(pieces[i]);
      i := i + 1;
      assert pieces[..i][..i - 1] == pieces[..i - 1];
    }
    assert pieces[..i] == pieces;
    digest := context.Finish();
  }

  // ---------------------------------------------------------------------------
  // Facts the context relies on
  // ---------------------------------------------------------------------------

  lemma {:induction false} ChainGrows(m: seq<Byte>, block: seq<Byte>)
    requires |m| % 64 == 0 && |block| == 64
    ensures Chain(m + block) == Compress(Chain(m), block)
  {
    var r := m + block;
    assert r[..|r| - 64] == m && r[|r| - 64..] == block;
  }

  lemma {:induction false} NextBlock(all: seq<Byte>, from: nat, block: seq<Byte>, rest: seq<Byte>)
    requires from <= |all| && from % 64 == 0 && |block| == 64 && all[from..] == block + rest
    ensures Chain(all[..from + 64]) == Compress(Chain(all[..from]), block) && all[from + 64..] == rest
  {
    assert all == all[..from] + (block + rest);
    assert all[..from + 64] == all[..from] + block;
    ChainGrows(all[..from], block);
  }

  lemma {:induction false} WholeMessage(m: seq<Byte>)
    requires |m| % 64 == 0
    ensures m[..Whole(|m|)] == m
  {
  }

  lemma {:induction false} LowBits(n: nat)
    ensures n % TwoTo32 % 64 == n % 64
  {
    assert n == TwoTo32 * (n / TwoTo32) + n % TwoTo32;
  }

  lemma {:induction false} CountCarries(n: nat, length: nat)
    requires 0 < length < TwoTo32
    ensures var low := (n % TwoTo32 + length) % TwoTo32;
            && low == (n + length) % TwoTo32
            && (n + length) / TwoTo32 % TwoTo32
            == if low < length then (n / TwoTo32 % TwoTo32 + 1) % TwoTo32 else n / TwoTo32 % TwoTo32
  {
  }

  lemma {:induction false} FourBytes()
    ensures Power256(4) == TwoTo32
  {
    assert Power256(1) == 256 && Power256(2) == 256 * 256 && Power256(3) == 256 * 256 * 256;
  }

  /** The two length words are the halves of the length in bits. */
  lemma {:induction false} LengthWords(n: nat, total0: nat, total1: nat)
    requires total0 == n % TwoTo32 && total1 == n / TwoTo32 % TwoTo32
    ensures var high, low := total0 / 0x2000_0000 + total1 * 8 % TwoTo32, total0 * 8 % TwoTo32;
            BigEndian(high, 4) + BigEndian(low, 4) == BigEndian(8 * n % TwoTo64, 8)
  {
    var high, low := total0 / 0x2000_0000 + total1 * 8 % TwoTo32, total0 * 8 % TwoTo32;
    LengthHalves(n);
    EightBytes(high, low);
  }

  lemma {:induction false} EightBytes(high: nat, low: nat)
    requires low < TwoTo32
    ensures BigEndian(high, 4) + BigEndian(low, 4) == BigEndian(high * TwoTo32 + low, 8)
  {
    FourBytes();
    BigEndianSplit(high, low, 4, 4);
  }

  lemma {:induction false} LengthHalves(n: nat)
    ensures 8 * n % TwoTo64
         == (n % TwoTo32 / 0x2000_0000 + (n / TwoTo32 % TwoTo32) * 8 % TwoTo32) * TwoTo32 + n % TwoTo32 * 8 % TwoTo32
  {
    var q, l := n / TwoTo32, n % TwoTo32;
    var h := q % TwoTo32;
    assert n == q * TwoTo32 + l;
    assert q == (q / TwoTo32) * TwoTo32 + h;
    assert 8 * l == (l / 0x2000_0000) * TwoTo32 + l * 8 % TwoTo32;
    assert 8 * h == (h / 0x2000_0000) * TwoTo32 + h * 8 % TwoTo32;
    assert 8 * n == (8 * (q / TwoTo32) + h / 0x2000_0000) * TwoTo64
                  + (h * 8 % TwoTo32 + l / 0x2000_0000) * TwoTo32 + l * 8 % TwoTo32;
  }
}
