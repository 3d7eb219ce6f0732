/**
  What the pieces of the Secure Hash Algorithm are, said without the algorithm: its constants as
  roots and byte patterns, its rotations and sums in plain arithmetic, its words as numbers, and the
  first example of the standard (FIPS 180-1, appendix A).
*/
module Fips180 {
  import opened ByteValues
  import opened Bytes
  import opened Sha1

  // ---------------------------------------------------------------------------
  // Constants
  // ---------------------------------------------------------------------------

  /** The radicand of the constant of step t. */
  function Radicand(t: nat): nat {
    [2, 3, 5, 10][if t < 80 then t / 20 else 3]
  }

  /** The constant of step t is the integer part of 2^30 times the square root of 2, 3, 5 or 10. */
  lemma {:induction false} ConstantIsRoot(t: nat)
    ensures var k := K(t) as int;
            k * k <= Radicand(t) * 0x1000_0000_0000_0000 < (k + 1) * (k + 1)
  {
    if t < 20 {
      assert K(t) as int == 0x5A827999;
    } else if t < 40 {
      assert K(t) as int == 0x6ED9EBA1;
    } else if t < 60 {
      assert K(t) as int == 0x8F1BBCDC;
    } else {
      assert K(t) as int == 0xCA62C1D6;
    }
  }

  /** The bytes of a chaining value, low byte of each word first. */
  function LowFirst(r: Regs): seq<Byte> {
    Reverse(WordBytes(r.a)) + Reverse(WordBytes(r.b)) + Reverse(WordBytes(r.c)) + Reverse(WordBytes(r.d))
    + Reverse(WordBytes(r.e))
  }

  /** The hexadecimal digits of the first chaining value count up to F, back again, and F, 0, E, 1, D, 2, C, 3. */
  lemma {:induction false} StartIsPattern()
    ensures var s := LowFirst(H0);
            && |s| == 20
            && (forall i :: 0 <= i < 8 ==> s[i] as int == 0x01 + 0x22 * i)
            && (forall i :: 8 <= i < 16 ==> s[i] as int == 0xFE - 0x22 * (i - 8))
            && (forall i :: 16 <= i < 20 ==> s[i] as int == 0xF0 - 0x0F * (i - 16))
  {
    StartBytes();
    forall i | 0 <= i < 8
      ensures StartTable[i] as int == 0x01 + 0x22 * i && StartTable[8 + i] as int == 0xFE - 0x22 * i
      ensures i < 4 ==> StartTable[16 + i] as int == 0xF0 - 0x0F * i
    {
      TableIsPattern(i);
    }
    PatternHolds(StartTable);
  }

  lemma {:induction false} PatternHolds(s: seq<Byte>)
    requires |s| == 20
    requires forall i :: 0 <= i < 8 ==> s[i] as int == 0x01 + 0x22 * i && s[8 + i] as int == 0xFE - 0x22 * i
    requires forall i :: 0 <= i < 4 ==> s[16 + i] as int == 0xF0 - 0x0F * i
    ensures forall i :: 8 <= i < 16 ==> s[i] as int == 0xFE - 0x22 * (i - 8)
    ensures forall i :: 16 <= i < 20 ==> s[i] as int == 0xF0 - 0x0F * (i - 16)
  {
    forall i | 8 <= i < 16
      ensures s[i] as int == 0xFE - 0x22 * (i - 8)
    {
      assert s[8 + (i - 8)] as int == 0xFE - 0x22 * (i - 8);
    }
    forall i | 16 <= i < 20
      ensures s[i] as int == 0xF0 - 0x0F * (i - 16)
    {
      assert s[16 + (i - 16)] as int == 0xF0 - 0x0F * (i - 16);
    }
  }

  const StartTable: seq<Byte> :=
    [0x01, 0x23, 0x45, 0x67, 0x89, 0xAB, 0xCD, 0xEF, 0xFE, 0xDC, 0xBA, 0x98, 0x76, 0x54, 0x32, 0x10, 0xF0, 0xE1, 0xD2, 0xC3]

  lemma {:induction false} Turned(p: Byte, q: Byte, r: Byte, s: Byte)
    ensures Reverse([p, q, r, s]) == [s, r, q, p]
  {
  }

  lemma {:induction false} StartWords()
    ensures WordBytes(H0.a) == [0x67, 0x45, 0x23, 0x01] && WordBytes(H0.b) == [0xEF, 0xCD, 0xAB, 0x89]
    ensures WordBytes(H0.c) == [0x98, 0xBA, 0xDC, 0xFE] && WordBytes(H0.d) == [0x10, 0x32, 0x54, 0x76]
    ensures WordBytes(H0.e) == [0xC3, 0xD2, 0xE1, 0xF0]
  {
  }

  lemma {:induction false} StartJoined(a: seq<Byte>, b: seq<Byte>, c: seq<Byte>, d: seq<Byte>, e: seq<Byte>)
    requires a == [0x01, 0x23, 0x45, 0x67] && b == [0x89, 0xAB, 0xCD, 0xEF] && c == [0xFE, 0xDC, 0xBA, 0x98]
    requires d == [0x76, 0x54, 0x32, 0x10] && e == [0xF0, 0xE1, 0xD2, 0xC3]
    ensures a + b + c + d + e == StartTable
  {
  }

  lemma {:induction false} StartBytes()
    ensures LowFirst(H0) == StartTable
  {
    StartWords();
    Turned(0x67, 0x45, 0x23, 0x01);
    Turned(0xEF, 0xCD, 0xAB, 0x89);
    Turned(0x98, 0xBA, 0xDC, 0xFE);
    Turned(0x10, 0x32, 0x54, 0x76);
    Turned(0xC3, 0xD2, 0xE1, 0xF0);
    StartJoined(Reverse(WordBytes(H0.a)), Reverse(WordBytes(H0.b)), Reverse(WordBytes(H0.c)), Reverse(WordBytes(H0.d)),
                Reverse(WordBytes(H0.e)));
  }

  lemma {:induction false} TableIsPattern(i: nat)
    ensures i < 8 ==> StartTable[i] as int == 0x01 + 0x22 * i && StartTable[8 + i] as int == 0xFE - 0x22 * i
    ensures i < 4 ==> StartTable[16 + i] as int == 0xF0 - 0x0F * i
  {
    var s := StartTable;
    if i == 0 {
      assert s[0] as int == 0x01 && s[8] as int == 0xFE && s[16] as int == 0xF0;
    } else if i == 1 {
      assert s[1] as int == 0x23 && s[9] as int == 0xDC && s[17] as int == 0xE1;
    } else if i == 2 {
      assert s[2] as int == 0x45 && s[10] as int == 0xBA && s[18] as int == 0xD2;
    } else if i == 3 {
      assert s[3] as int == 0x67 && s[11] as int == 0x98 && s[19] as int == 0xC3;
    } else if i == 4 {
      assert s[4] as int == 0x89 && s[12] as int == 0x76;
    } else if i == 5 {
      assert s[5] as int == 0xAB && s[13] as int == 0x54;
    } else if i == 6 {
      assert s[6] as int == 0xCD && s[14] as int == 0x32;
    } else if i == 7 {
      assert s[7] as int == 0xEF && s[15] as int == 0x10;
    }
  }

  // ---------------------------------------------------------------------------
  // Words
  // ---------------------------------------------------------------------------

  // Numbers are taken 64 bits wide, so that nothing of them is lost.

  lemma {:induction false} Rotate1(x: Word, y: Word)
    requires y == ((x << 1) | (x >> 31))
    ensures y as bv64 == (x as bv64 * 2) % 0x1_0000_0000 + x as bv64 / 0x8000_0000
  {
  }

  lemma {:induction false} Rotate5(x: Word, y: Word)
    requires y == ((x << 5) | (x >> 27))
    ensures y as bv64 == (x as bv64 * 0x20) % 0x1_0000_0000 + x as bv64 / 0x800_0000
  {
  }

  lemma {:induction false} Rotate30(x: Word, y: Word)
    requires y == ((x << 30) | (x >> 2))
    ensures y as bv64 == (x as bv64 * 0x4000_0000) % 0x1_0000_0000 + x as bv64 / 4
  {
  }

  // What is shifted out at one end comes in at the other.

  lemma {:induction false} Rotl1Is(x: Word, y: Word)
    requires y == Rotl1(x)
    ensures y as bv64 == (x as bv64 * 2) % 0x1_0000_0000 + x as bv64 / 0x8000_0000
  {
    Rotate1(x, y);
  }

  lemma {:induction false} Rotl5Is(x: Word, y: Word)
    requires y == Rotl5(x)
    ensures y as bv64 == (x as bv64 * 0x20) % 0x1_0000_0000 + x as bv64 / 0x800_0000
  {
    Rotate5(x, y);
  }

  lemma {:induction false} Rotl30Is(x: Word, y: Word)
    requires y == Rotl30(x)
    ensures y as bv64 == (x as bv64 * 0x4000_0000) % 0x1_0000_0000 + x as bv64 / 4
  {
    Rotate30(x, y);
  }

  /** The sum of five words is that of their numbers, modulo 2^32. */
  lemma {:induction false} SumIs(s: Word, f: Word, e: Word, w: Word, k: Word)
    ensures Sum(s, f, e, w, k) as bv64
         == (s as bv64 + f as bv64 + e as bv64 + w as bv64 + k as bv64) % 0x1_0000_0000
  {
  }

  /** The schedule rotates the bitwise parity v of its four words by one place. */
  lemma {:induction false} MixIs(w: Word, x: Word, y: Word, z: Word, v: Word, r: Word)
    requires v == w ^ x ^ y ^ z && r == Mix(w, x, y, z)
    ensures r as bv64 == (v as bv64 * 2) % 0x1_0000_0000 + v as bv64 / 0x8000_0000
  {
    MixRotates(w, x, y, z, v);
    Rotate1(v, r);
  }

  lemma {:induction false} MixRotates(w: Word, x: Word, y: Word, z: Word, v: Word)
    requires v == w ^ x ^ y ^ z
    ensures Mix(w, x, y, z) == (v << 1) | (v >> 31)
  {
  }

  lemma {:induction false} Choice(b: Word, c: Word, d: Word, f: Word)
    requires f == (b & c) | (!b & d)
    ensures f & b == c & b && f & !b == d & !b
  {
  }

  lemma {:induction false} Parity(b: Word, c: Word, d: Word, f: Word)
    requires f == b ^ c ^ d
    ensures f ^ b == c ^ d
  {
  }

  lemma {:induction false} MajorityAgreed(b: Word, c: Word, d: Word, f: Word)
    requires f == (b & c) | (b & d) | (c & d)
    ensures f & !(b ^ c) == b & c
  {
  }

  lemma {:induction false} MajorityDecided(b: Word, c: Word, d: Word, f: Word)
    requires f == (b & c) | (b & d) | (c & d)
    ensures f & (b ^ c) == d & (b ^ c)
  {
  }

  // The functions, bit by bit.

  /** In the first twenty steps b chooses between c and d. */
  lemma {:induction false} FirstFunctionIs(t: nat, b: Word, c: Word, d: Word, f: Word)
    requires t < 20 && f == F(t, b, c, d)
    ensures f & b == c & b && f & !b == d & !b
  {
    Choice(b, c, d, f);
  }

  /** In the second and the last twenty it is the parity of the three. */
  lemma {:induction false} EvenFunctionIs(t: nat, b: Word, c: Word, d: Word, f: Word)
    requires (20 <= t < 40 || 60 <= t) && f == F(t, b, c, d)
    ensures f ^ b == c ^ d
  {
    Parity(b, c, d, f);
  }

  /** In the third twenty it is what b and c agree on and, where they differ, what d says. */
  lemma {:induction false} ThirdFunctionIs(t: nat, b: Word, c: Word, d: Word, f: Word)
    requires 40 <= t < 60 && f == F(t, b, c, d)
    ensures f & !(b ^ c) == b & c && f & (b ^ c) == d & (b ^ c)
  {
    MajorityAgreed(b, c, d, f);
    MajorityDecided(b, c, d, f);
  }

  lemma {:induction false} ValueOf(x: Word, p: Byte, q: Byte, r: Byte, s: Byte)
    requires x == ((p as Word) << 24) | ((q as Word) << 16) | ((r as Word) << 8) | (s as Word)
    ensures x as int == ((p as int * 256 + q as int) * 256 + r as int) * 256 + s as int
  {
  }

  lemma {:induction false} FourValues(s: seq<Byte>)
    requires |s| == 4
    ensures Value(s) == ((s[0] as int * 256 + s[1] as int) * 256 + s[2] as int) * 256 + s[3] as int
  {
    assert s[..3][..2] == s[..2] && s[..3][..2][..1] == s[..1];
    assert Value(s[..1]) == s[0] as int;
    assert Value(s[..2]) == Value(s[..1]) * 256 + s[1] as int;
    assert Value(s[..3]) == Value(s[..2]) * 256 + s[2] as int;
  }

  /** A word is loaded from four bytes, most significant first. */
  lemma {:induction false} ToWordIs(data: seq<Byte>, i: nat)
    requires i + 4 <= |data|
    ensures ToWord(data, i) as int == Value(data[i..i + 4])
  {
    var s := data[i..i + 4];
    LoadedFrom(data, i, s[0], s[1], s[2], s[3]);
    FourValues(s);
  }

  lemma {:induction false} LoadedFrom(data: seq<Byte>, i: nat, p: Byte, q: Byte, r: Byte, s: Byte)
    requires i + 4 <= |data| && p == data[i] && q == data[i + 1] && r == data[i + 2] && s == data[i + 3]
    ensures ToWord(data, i) as int == ((p as int * 256 + q as int) * 256 + r as int) * 256 + s as int
  {
    ValueOf(ToWord(data, i), p, q, r, s);
  }

  /** And stored in the same order. */
  lemma {:induction false} WordBytesIs(x: Word)
    ensures WordBytes(x) == BigEndian(x as int, 4)
  {
    var s := WordBytes(x);
    Recombine(x);
    ValueOf(x, s[0], s[1], s[2], s[3]);
    FourValues(s);
    BigEndianOfValue(s);
  }

  lemma {:induction false} Recombine(x: Word)
    ensures x == ((((x >> 24) & 0xFF) as Byte as Word) << 24) | ((((x >> 16) & 0xFF) as Byte as Word) << 16)
               | ((((x >> 8) & 0xFF) as Byte as Word) << 8) | ((x & 0xFF) as Byte as Word)
  {
  }

  // ---------------------------------------------------------------------------
  // Sixteen steps at a time
  // ---------------------------------------------------------------------------

  datatype Sixteen = Sixteen(
    w0: Word, w1: Word, w2: Word, w3: Word, w4: Word, w5: Word, w6: Word, w7: Word,
    w8: Word, w9: Word, w10: Word, w11: Word, w12: Word, w13: Word, w14: Word, w15: Word)

  predicate Scheduled(block: seq<Byte>, t: nat, x: Sixteen) {
    && |block| == 64
    && W(block, t) == x.w0 && W(block, t + 1) == x.w1 && W(block, t + 2) == x.w2 && W(block, t + 3) == x.w3
    && W(block, t + 4) == x.w4 && W(block, t + 5) == x.w5 && W(block, t + 6) == x.w6 && W(block, t + 7) == x.w7
    && W(block, t + 8) == x.w8 && W(block, t + 9) == x.w9 && W(block, t + 10) == x.w10 && W(block, t + 11) == x.w11
    && W(block, t + 12) == x.w12 && W(block, t + 13) == x.w13 && W(block, t + 14) == x.w14 && W(block, t + 15) == x.w15
  }

  lemma {:induction false} NextSixteen(block: seq<Byte>, t: nat, x: Sixteen, y: Sixteen)
    requires Scheduled(block, t, x)
    requires y.w0 == Mix(x.w13, x.w8, x.w2, x.w0)
    requires y.w1 == Mix(x.w14, x.w9, x.w3, x.w1)
    requires y.w2 == Mix(x.w15, x.w10, x.w4, x.w2)
    requires y.w3 == Mix(y.w0, x.w11, x.w5, x.w3)
    requires y.w4 == Mix(y.w1, x.w12, x.w6, x.w4)
    requires y.w5 == Mix(y.w2, x.w13, x.w7, x.w5)
    requires y.w6 == Mix(y.w3, x.w14, x.w8, x.w6)
    requires y.w7 == Mix(y.w4, x.w15, x.w9, x.w7)
    requires y.w8 == Mix(y.w5, y.w0, x.w10, x.w8)
    requires y.w9 == Mix(y.w6, y.w1, x.w11, x.w9)
    requires y.w10 == Mix(y.w7, y.w2, x.w12, x.w10)
    requires y.w11 == Mix(y.w8, y.w3, x.w13, x.w11)
    requires y.w12 == Mix(y.w9, y.w4, x.w14, x.w12)
    requires y.w13 == Mix(y.w10, y.w5, x.w15, x.w13)
    requires y.w14 == Mix(y.w11, y.w6, y.w0, x.w14)
    requires y.w15 == Mix(y.w12, y.w7, y.w1, x.w15)
    ensures Scheduled(block, t + 16, y)
  {
  }

  lemma {:induction false} NextStep(block: seq<Byte>, t: nat, r: Regs, w: Word) returns (r': Regs)
    requires |block| == 64 && Steps(H0, block, t) == r && W(block, t) == w
    ensures r' == Step(t, r, w) && Steps(H0, block, t + 1) == r'
  {
    r' := Step(t, r, w);
  }

  lemma {:induction false} SixteenSteps(block: seq<Byte>, t: nat, r: Regs, x: Sixteen) returns (r': Regs)
    requires Scheduled(block, t, x) && Steps(H0, block, t) == r
    ensures Steps(H0, block, t + 16) == r'
    ensures r' == Step(t + 15, Step(t + 14, Step(t + 13, Step(t + 12, Step(t + 11, Step(t + 10, Step(t + 9, Step(t + 8,
                  Step(t + 7, Step(t + 6, Step(t + 5, Step(t + 4, Step(t + 3, Step(t + 2, Step(t + 1, Step(t, r,
                  x.w0), x.w1), x.w2), x.w3), x.w4), x.w5), x.w6), x.w7),
                  x.w8), x.w9), x.w10), x.w11), x.w12), x.w13), x.w14), x.w15)
  {
    r' := NextStep(block, t, r, x.w0);
    r' := NextStep(block, t + 1, r', x.w1);
    r' := NextStep(block, t + 2, r', x.w2);
    r' := NextStep(block, t + 3, r', x.w3);
    r' := NextStep(block, t + 4, r', x.w4);
    r' := NextStep(block, t + 5, r', x.w5);
    r' := NextStep(block, t + 6, r', x.w6);
    r' := NextStep(block, t + 7, r', x.w7);
    r' := NextStep(block, t + 8, r', x.w8);
    r' := NextStep(block, t + 9, r', x.w9);
    r' := NextStep(block, t + 10, r', x.w10);
    r' := NextStep(block, t + 11, r', x.w11);
    r' := NextStep(block, t + 12, r', x.w12);
    r' := NextStep(block, t + 13, r', x.w13);
    r' := NextStep(block, t + 14, r', x.w14);
    r' := NextStep(block, t + 15, r', x.w15);
  }

  // ---------------------------------------------------------------------------
  // The example
  // ---------------------------------------------------------------------------

  const Words0 := Sixteen(0x61626380, 0x00000000, 0x00000000, 0x00000000, 0x00000000, 0x00000000, 0x00000000, 0x00000000,
                  0x00000000, 0x00000000, 0x00000000, 0x00000000, 0x00000000, 0x00000000, 0x00000000, 0x00000018)
  const Words1 := Sixteen(0xC2C4C700, 0x00000000, 0x00000030, 0x85898E01, 0x00000000, 0x00000060, 0x0B131C03, 0x00000030,
                  0x85898EC1, 0x16263806, 0x00000000, 0x00000180, 0x2C4C700C, 0x000000F0, 0x93AFB507, 0x5898E048)
  const Words2 := Sixteen(0x8E9A9202, 0x00000600, 0xB131C0F0, 0x16263BC6, 0x4EBED41E, 0x626380A1, 0x16263806, 0x000018C0,
                  0xD2E138C4, 0x00000F00, 0x3AFB5079, 0x898E04E5, 0xE2BA3C2B, 0x000060C0, 0x053A37CD, 0x74458547)
  const Words3 := Sixteen(0xDA9415ED, 0x26380A16, 0x626383A1, 0x4EBF54DE, 0x3835B44B, 0x0000F600, 0x1E84C7A3, 0x98E04D98,
                  0x651D16A0, 0x62658CA1, 0x458544D6, 0x44584CB7, 0x7BA06619, 0x6380AEA2, 0x0AE55269, 0x627B49A1)
  const Words4 := Sixteen(0x7CD45C9D, 0x000F0000, 0xFB50753A, 0xEC6765E8, 0xBA3C2BE2, 0x0060C000, 0x3A37CD05, 0x458546F4,
                  0xB8599DD6, 0x380A1A26, 0x01E02203, 0xE7CC3456, 0xE6E60B69, 0x00F60A00, 0x5795EF4F, 0x822E0879)
  const Regs1 := Regs(0x20BDD62F, 0x196BEE77, 0x644A3DA5, 0x1181ED99, 0x18C623F9)
  const Regs2 := Regs(0x3B845D33, 0x1267B407, 0x717EEBD7, 0xA0DC2D4B, 0xD2AA1365)
  const Regs3 := Regs(0xBEAD02CA, 0xA01B846C, 0x8714787C, 0x503CA382, 0xFB86C6AB)
  const Regs4 := Regs(0x6B61C9E1, 0xB66C020B, 0x9523272C, 0xF5D5B051, 0x8FD4B796)
  const Regs5 := Regs(0x42541B35, 0x5738D5E1, 0x21834873, 0x681E6DF6, 0xD8FDF6AD)

  lemma {:induction false} Part0(block: seq<Byte>)
    requires Scheduled(block, 0, Words0) && Steps(H0, block, 0) == H0
    ensures Steps(H0, block, 16) == Regs1
    ensures Scheduled(block, 16, Words1)
  {
    var r := SixteenSteps(block, 0, H0, Words0);
    assert r == Regs1;
    NextSixteen(block, 0, Words0, Words1);
  }

  lemma {:induction false} Part1(block: seq<Byte>)
    requires Scheduled(block, 16, Words1) && Steps(H0, block, 16) == Regs1
    ensures Steps(H0, block, 32) == Regs2
    ensures Scheduled(block, 32, Words2)
  {
    var r := SixteenSteps(block, 16, Regs1, Words1);
    assert r == Regs2;
    NextSixteen(block, 16, Words1, Words2);
  }

  lemma {:induction false} Part2(block: seq<Byte>)
    requires Scheduled(block, 32, Words2) && Steps(H0, block, 32) == Regs2
    ensures Steps(H0, block, 48) == Regs3
    ensures Scheduled(block, 48, Words3)
  {
    var r := SixteenSteps(block, 32, Regs2, Words2);
    assert r == Regs3;
    NextSixteen(block, 32, Words2, Words3);
  }

  lemma {:induction false} Part3(block: seq<Byte>)
    requires Scheduled(block, 48, Words3) && Steps(H0, block, 48) == Regs3
    ensures Steps(H0, block, 64) == Regs4
    ensures Scheduled(block, 64, Words4)
  {
    var r := SixteenSteps(block, 48, Regs3, Words3);
    assert r == Regs4;
    NextSixteen(block, 48, Words3, Words4);
  }

  lemma {:induction false} Part4(block: seq<Byte>)
    requires Scheduled(block, 64, Words4) && Steps(H0, block, 64) == Regs4
    ensures Steps(H0, block, 80) == Regs5
  {
    var r := SixteenSteps(block, 64, Regs4, Words4);
    assert r == Regs5;
  }

  /** The message "abc" fills one block. */
  lemma {:induction false} PaddedAbc(block: seq<Byte>)
    requires block == Pad([0x61, 0x62, 0x63])
    ensures |block| == 64 && block[0] == 0x61 && block[1] == 0x62 && block[2] == 0x63 && block[3] == 0x80
    ensures (forall i :: 4 <= i < 63 ==> block[i] == 0) && block[63] == 0x18
  {
    var d := BigEndian(24, 8);
    SmallNumber();
    PadOfThree([0x61, 0x62, 0x63], 24);
    FourParts(block, [0x61, 0x62, 0x63], [0x80], Zeros(52), d);
    assert d[7] == 0x18 && forall i :: 0 <= i < 7 ==> d[i] == 0;
    Tail(block, Zeros(52), d);
  }

  lemma {:induction false} PadOfThree(m: seq<Byte>, bits: nat)
    requires |m| == 3 && bits == 24
    ensures Pad(m) == m + ([0x80] + Zeros(52)) + BigEndian(bits, 8)
  {
    assert ZeroCount(3) == 52 && 8 * |m| % TwoTo64 == bits;
  }

  lemma {:induction false} Tail(block: seq<Byte>, c: seq<Byte>, d: seq<Byte>)
    requires |block| == 64 && |c| == 52 && |d| == 8 && (forall i :: 0 <= i < 52 ==> c[i] == 0)
    requires forall i :: 4 <= i < 56 ==> block[i] == c[i - 4]
    requires forall i :: 56 <= i < 64 ==> block[i] == d[i - 56]
    requires d[7] == 0x18 && forall i :: 0 <= i < 7 ==> d[i] == 0
    ensures (forall i :: 4 <= i < 63 ==> block[i] == 0) && block[63] == 0x18
  {
  }

  lemma {:induction false} FourParts(block: seq<Byte>, a: seq<Byte>, b: seq<Byte>, c: seq<Byte>, d: seq<Byte>)
    requires block == a + (b + c) + d && |a| == 3 && |b| == 1 && |c| == 52 && |d| == 8
    ensures |block| == 64 && (forall i :: 0 <= i < 3 ==> block[i] == a[i]) && block[3] == b[0]
    ensures forall i :: 4 <= i < 56 ==> block[i] == c[i - 4]
    ensures forall i :: 56 <= i < 64 ==> block[i] == d[i - 56]
  {
  }

  lemma {:induction false} SmallNumber()
    ensures BigEndian(24, 8) == [0, 0, 0, 0, 0, 0, 0, 0x18]
  {
    assert BigEndian(0, 1) == [0];
    assert BigEndian(0, 2) == [0, 0];
    assert BigEndian(0, 3) == [0, 0, 0];
    assert BigEndian(0, 4) == [0, 0, 0, 0];
    assert BigEndian(0, 5) == [0, 0, 0, 0, 0];
    assert BigEndian(0, 6) == [0, 0, 0, 0, 0, 0];
    assert BigEndian(0, 7) == [0, 0, 0, 0, 0, 0, 0];
    ByteOf(24);
  }

  lemma {:induction false} ScheduledAbc(block: seq<Byte>)
    requires |block| == 64 && block[0] == 0x61 && block[1] == 0x62 && block[2] == 0x63 && block[3] == 0x80
    requires (forall i :: 4 <= i < 63 ==> block[i] == 0) && block[63] == 0x18
    ensures Scheduled(block, 0, Words0)
  {
  }

  const AbcDigest: seq<Byte> :=
    [0xA9, 0x99, 0x3E, 0x36, 0x47, 0x06, 0x81, 0x6A, 0xBA, 0x3E, 0x25, 0x71, 0x78, 0x50, 0xC2, 0x6C, 0x9C, 0xD0, 0xD8, 0x9D]

  lemma {:induction false} DigestBytes()
    ensures DigestOf(AddRegs(H0, Regs5)) == AbcDigest
  {
    var r := AddRegs(H0, Regs5);
    assert r == Regs(0xA9993E36, 0x4706816A, 0xBA3E2571, 0x7850C26C, 0x9CD0D89D);
    assert WordBytes(r.a) == [0xA9, 0x99, 0x3E, 0x36];
    assert WordBytes(r.b) == [0x47, 0x06, 0x81, 0x6A];
    assert WordBytes(r.c) == [0xBA, 0x3E, 0x25, 0x71];
    assert WordBytes(r.d) == [0x78, 0x50, 0xC2, 0x6C];
    assert WordBytes(r.e) == [0x9C, 0xD0, 0xD8, 0x9D];
  }

  lemma {:induction false} ChainOfOne(block: seq<Byte>)
    requires |block| == 64
    ensures Chain(block) == AddRegs(H0, Steps(H0, block, 80))
  {
    assert block[..0] == [] && block[0..] == block;
  }

  lemma {:induction false} StepsOfAbc(block: seq<Byte>)
    requires Scheduled(block, 0, Words0)
    ensures Steps(H0, block, 80) == Regs5
  {
    Part0(block);
    Part1(block);
    Part2(block);
    Part3(block);
    Part4(block);
  }

  /** The first example of the standard: the digest of "abc". */
  lemma {:induction false} DigestOfAbc()
    ensures Digest([0x61, 0x62, 0x63]) == AbcDigest
  {
    var block := Pad([0x61, 0x62, 0x63]);
    PaddedAbc(block);
    ScheduledAbc(block);
    StepsOfAbc(block);
    ChainOfOne(block);
    DigestBytes();
  }
}
