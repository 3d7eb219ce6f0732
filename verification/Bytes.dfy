/** A byte and the number it stands for. */
module ByteValues {

  lemma {:induction false} ByteBack(b: bv8)
    ensures 0 <= b as int < 256 && (b as int) as bv8 == b
  {
  }

  lemma {:induction false} NextByte(b: bv8)
    requires b < 255
    ensures (b + 1) as int == b as int + 1
  {
  }

  lemma {:induction false} SomeByte(x: int) returns (b: bv8)
    requires 0 <= x < 256
    ensures b as int == x
    decreases x, 0
  {
    if x == 0 {
      b := 0;
    } else {
      var a := SomeByte(x - 1);
      NextByte(a);
      b := a + 1;
    }
  }

  lemma {:induction false} ByteOf(x: int)
    requires 0 <= x < 256
    ensures (x as bv8) as int == x
  {
    var b := SomeByte(x);
    ByteBack(b);
  }
}

/** Numbers written as bytes in either order. */
module Bytes {
  import opened Common
  import opened ByteValues

  type Byte = bv8

  function Power256(i: nat): (p: nat)
    ensures p > 0
  {
    if i == 0 then 1 else 256 * Power256(i - 1)
  }

  /** The n low bytes of x, most significant first. */
  function BigEndian(x: nat, n: nat): (s: seq<Byte>)
    ensures |s| == n
    decreases n, x
  {
    if n == 0 then [] else BigEndian(x / 256, n - 1) + [(x % 256) as Byte]
  }

  /** The number that s stands for, most significant byte first. */
  function Value(s: seq<Byte>): nat {
    if s == [] then 0 else Value(s[..|s| - 1]) * 256 + s[|s| - 1] as int
  }

  function Zeros(n: nat): (s: seq<Byte>)
    ensures |s| == n
  {
    seq(n, _ => 0)
  }

  function Reverse(s: seq<Byte>): (r: seq<Byte>)
    ensures |r| == |s|
    ensures forall i :: 0 <= i < |s| ==> r[i] == s[|s| - 1 - i]
  {
    if s == [] then [] else Reverse(s[1..]) + [s[0]]
  }

  /** How a machine keeps the w low bytes of x in memory. */
  function Stored(x: nat, w: nat, big: bool): (s: seq<Byte>)
    ensures |s| == w
  {
    if big then BigEndian(x, w) else Reverse(BigEndian(x, w))
  }

  /** The number a machine sees in its memory. */
  function Loaded(s: seq<Byte>, big: bool): nat {
    Value(if big then s else Reverse(s))
  }

  lemma {:induction false} ValueOfBigEndian(x: nat, n: nat)
    requires x < Power256(n)
    ensures Value(BigEndian(x, n)) == x
    decreases n
  {
    if n > 0 {
      ValueOfBigEndian(x / 256, n - 1);
      ByteOf(x % 256);
      assert BigEndian(x, n)[..n - 1] == BigEndian(x / 256, n - 1);
    }
  }

  lemma {:induction false} LastDigit(v: nat, d: nat)
    requires d < 256
    ensures (v * 256 + d) / 256 == v && (v * 256 + d) % 256 == d
  {
  }

  lemma {:induction false} BigEndianOfValue(s: seq<Byte>)
    ensures BigEndian(Value(s), |s|) == s
  {
    if s != [] {
      var k := |s| - 1;
      BigEndianOfValue(s[..k]);
      ByteBack(s[k]);
      LastDigit(Value(s[..k]), s[k] as int);
      assert BigEndian(Value(s), |s|) == s[..k] + [s[k]];
    }
  }

  lemma {:induction false} Cut<T>(s: seq<T>, at: nat, n: nat)
    requires at + n <= |s|
    ensures s[at..][..n] == s[at..at + n] && s[at..][n..] == s[at + n..]
  {
  }

  lemma {:induction false} NextPrefix<T>(s: seq<T>, i: nat)
    requires i < |s|
    ensures s[..i + 1] == s[..i] + [s[i]]
  {
  }

  lemma {:induction false} NextSuffix<T>(s: seq<T>, i: nat)
    requires i < |s|
    ensures s[i..][0] == s[i] && s[i..][1..] == s[i + 1..]
  {
  }

  /** Moving the first element of the second list to the end of the first. */
  lemma {:induction false} Shift<T>(a: seq<T>, b: seq<T>)
    requires b != []
    ensures (a + [b[0]]) + b[1..] == a + b
  {
  }

  lemma {:induction false} IsReverse(a: seq<Byte>, b: seq<Byte>)
    requires |a| == |b| && forall i :: 0 <= i < |a| ==> a[i] == b[|b| - 1 - i]
    ensures a == Reverse(b)
  {
  }

  lemma {:induction false} ReverseTwice(s: seq<Byte>)
    ensures Reverse(Reverse(s)) == s
  {
  }

  /** A number read back in the byte order in which it was written is the number. */
  lemma {:induction false} StoreLoad(x: nat, w: nat, big: bool)
    requires x < Power256(w)
    ensures Loaded(Stored(x, w, big), big) == x
  {
    ReverseTwice(BigEndian(x, w));
    ValueOfBigEndian(x, w);
  }

  /** x without its i low digits in base 256. */
  function Higher(x: nat, i: nat): nat
    decreases i
  {
    if i == 0 then x else Higher(x / 256, i - 1)
  }

  /** The i-th byte from the right is the i-th digit in base 256. */
  lemma {:induction false} DigitAt(x: nat, w: nat, i: nat)
    requires i < w
    ensures BigEndian(x, w)[w - 1 - i] as int == Higher(x, i) % 256
    decreases w
  {
    ByteOf(x % 256);
    if i > 0 {
      DigitAt(x / 256, w - 1, i - 1);
    }
  }

  /** A machine of one kind keeps the most significant byte first, one of the other kind last. */
  lemma {:induction false} StoredDigit(x: nat, w: nat, big: bool, i: nat)
    requires i < w
    ensures Stored(x, w, big)[if big then w - 1 - i else i] as int == Higher(x, i) % 256
  {
    StoredAt(x, w, big, i);
    DigitAt(x, w, i);
  }

  lemma {:induction false} StoredAt(x: nat, w: nat, big: bool, i: nat)
    requires i < w
    ensures Stored(x, w, big)[if big then w - 1 - i else i] == BigEndian(x, w)[w - 1 - i]
  {
  }

  /** And reads it there. */
  lemma {:induction false} LoadedDigit(s: seq<Byte>, big: bool, i: nat)
    requires i < |s|
    ensures s[if big then |s| - 1 - i else i] as int == Higher(Loaded(s, big), i) % 256
  {
    var t := if big then s else Reverse(s);
    BigEndianOfValue(t);
    DigitAt(Value(t), |s|, i);
  }

  /** Swapping the bytes of a stored number stores it for the other kind of machine. */
  lemma {:induction false} SwapStored(x: nat, w: nat, big: bool)
    ensures Reverse(Stored(x, w, big)) == Stored(x, w, !big)
  {
    ReverseTwice(BigEndian(x, w));
  }

  lemma {:induction false} BigEndianSplit(h: nat, l: nat, n: nat, k: nat)
    requires l < Power256(k)
    ensures BigEndian(h * Power256(k) + l, n + k) == BigEndian(h, n) + BigEndian(l, k)
    decreases k
  {
    if k == 0 {
      assert h * Power256(k) + l == h;
      assert BigEndian(h, n) + [] == BigEndian(h, n);
    } else {
      var x, p := h * Power256(k) + l, Power256(k - 1);
      assert x == 256 * (h * p) + l by {
        assert h * (256 * p) == 256 * (h * p);
      }
      assert x / 256 == h * p + l / 256 && x % 256 == l % 256;
      BigEndianSplit(h, l / 256, n, k - 1);
      Assoc(BigEndian(h, n), BigEndian(l / 256, k - 1), [(l % 256) as Byte]);
    }
  }
}
