/**
  Quoting a string for the shell and undoing it.  Quoting keeps letters and digits and writes every
  other byte as `=` and two hexadecimal digits; unquoting cuts the text at `=` and reads two digits
  from the front of every piece but the first.  The cutting throws away empty pieces, so a text
  that starts with `=` is not restored.
*/
module ShellQuote {
  import opened Common

  import opened Bytes

  type Octet = c: int | 0 <= c < 256

  type Text = seq<Octet>

  const Equals: Octet := 61

  predicate Digit(c: Octet) { 48 <= c <= 57 }
  predicate Upper(c: Octet) { 65 <= c <= 90 }
  predicate Lower(c: Octet) { 97 <= c <= 122 }
  predicate Alnum(c: Octet) { Digit(c) || Upper(c) || Lower(c) }

  // ---------------------------------------------------------------------------
  // Numbers in base 16
  // ---------------------------------------------------------------------------

  function HexDigit(k: int): Octet
    requires 0 <= k < 16
  {
    if k < 10 then 48 + k else 87 + k
  }

  /** The value of a hexadecimal digit of either case, or -1. */
  function DigitValue(c: Octet): (v: int)
    ensures -1 <= v < 16
  {
    if Digit(c) then c - 48
    else if 65 <= c <= 70 then c - 55
    else if 97 <= c <= 102 then c - 87
    else -1
  }

  const Digits: string := "0123456789"
  const Capitals: string := "ABCDEFGHIJKLMNOPQRSTUVWXYZ"
  const Smalls: string := "abcdefghijklmnopqrstuvwxyz"

  // The bytes that are kept are those of the letters and digits.

  lemma {:induction false} DigitsAre(c: Octet)
    ensures Digit(c) <==> c as char in Digits
  {
    if Digit(c) {
      assert Digits[c - 48] == c as char;
    }
  }

  lemma {:induction false} CapitalsAre(c: Octet)
    ensures Upper(c) <==> c as char in Capitals
  {
    if Upper(c) {
      assert Capitals[c - 65] == c as char;
    }
  }

  lemma {:induction false} SmallsAre(c: Octet)
    ensures Lower(c) <==> c as char in Smalls
  {
    if Lower(c) {
      assert Smalls[c - 97] == c as char;
    }
  }

  /** Quoting keeps exactly the bytes of these characters as they are. */
  lemma {:induction false} KeptAre(c: Octet)
    ensures Quoted([c]) == [c] <==> c as char in Digits || c as char in Capitals || c as char in Smalls
  {
    DigitsAre(c);
    CapitalsAre(c);
    SmallsAre(c);
  }

  /** Quoting writes lower-case hexadecimal digits after an equals sign; unquoting reads either case. */
  lemma {:induction false} HexDigitsAre(k: int)
    requires 0 <= k < 16
    ensures HexDigit(k) as char == "0123456789abcdef"[k] && Equals as char == '='
    ensures DigitValue(HexDigit(k)) == k
    ensures DigitValue("0123456789ABCDEF"[k] as int) == k
  {
  }

  predicate Space(c: Octet) { c == 32 || 9 <= c <= 13 }

  function AfterSpace(s: Text): Text {
    if s != [] && Space(s[0]) then AfterSpace(s[1..]) else s
  }

  /** The number written by the hexadecimal digits at the front of s, after what acc stands for. */
  function Leading(s: Text, acc: nat): nat
    decreases |s|
  {
    if s == [] || DigitValue(s[0]) < 0 then acc
    else Leading(s[1..], 16 * acc + DigitValue(s[0]))
  }

  /** `strtol` in base 16: white space, a sign, `0x`, and then as many digits as there are. */
  function Strtol16(s: Text): int {
    var t := AfterSpace(s);
    var signed := t != [] && (t[0] == 43 || t[0] == 45);
    var u := if signed then t[1..] else t;
    var prefixed := |u| > 2 && u[0] == 48 && (u[1] == 120 || u[1] == 88) && DigitValue(u[2]) >= 0;
    var v: int := Leading(if prefixed then u[2..] else u, 0);
    if signed && t[0] == 45 then -v else v
  }

  /** A `long` as a `char`. */
  function Narrow(x: int): Octet { x % 256 }

  function HexPair(c: Octet): Text { [HexDigit(c / 16), HexDigit(c % 16)] }

  lemma {:induction false} HexPairReads(c: Octet)
    ensures Strtol16(HexPair(c)) == c
    ensures Alnum(HexPair(c)[0]) && Alnum(HexPair(c)[1])
  {
    var p := HexPair(c);
    assert DigitValue(p[0]) == c / 16 && DigitValue(p[1]) == c % 16;
    assert AfterSpace(p) == p && p[1..] == [p[1]] && p[1..][1..] == [];
    assert Leading(p[1..][1..], c) == c;
    assert Leading(p[1..], c / 16) == c;
  }

  // ---------------------------------------------------------------------------
  // Pieces between delimiters
  // ---------------------------------------------------------------------------

  /** The maximal runs of s without a delimiter. */
  function Tokens(s: Text, d: Text): (ts: seq<Text>)
    ensures s != [] && s[0] !in d ==> ts != []
  {
    if s == [] then []
    else if s[0] in d then Tokens(s[1..], d)
    else if |s| == 1 || s[1] in d then [[s[0]]] + Tokens(s[1..], d)
    else
      var ts := Tokens(s[1..], d);
      [[s[0]] + ts[0]] + ts[1..]
  }

  lemma {:induction false} TokensSkip(s: Text, d: Text, k: nat)
    requires k <= |s| && forall i :: 0 <= i < k ==> s[i] in d
    ensures Tokens(s, d) == Tokens(s[k..], d)
  {
    if k == 0 {
      assert s[k..] == s;
    } else {
      TokensSkip(s[1..], d, k - 1);
      assert s[1..][k - 1..] == s[k..];
    }
  }

  /** A maximal run at the front is the first token, and the others come from what is behind it. */
  lemma {:induction false} TokensRun(s: Text, d: Text, k: nat)
    requires 0 < k <= |s| && forall i :: 0 <= i < k ==> s[i] !in d
    requires k == |s| || s[k] in d
    ensures Tokens(s, d) == [s[..k]] + Tokens(s[k..], d)
  {
    if k == 1 {
      assert s[..1] == [s[0]];
      if |s| == 1 {
        assert s[1..] == [];
      }
    } else {
      TokensRun(s[1..], d, k - 1);
      assert s[1..][k - 1..] == s[k..];
      assert s[..k] == [s[0]] + s[1..][..k - 1];
    }
  }

  /** `find_first_of` (among) and `find_first_not_of`; -1 stands for `npos`. */
  function FindFirst(s: Text, d: Text, among: bool, from: int): (pos: int)
    requires -1 <= from <= |s|
    ensures -1 <= pos < |s|
    ensures pos >= 0 ==> 0 <= from <= pos && (s[pos] in d) == among
    ensures from >= 0 ==> forall i :: from <= i < (if pos < 0 then |s| else pos) ==> (s[i] in d) != among
    decreases |s| - from
  {
    if from < 0 || from == |s| then -1
    else if (s[from] in d) == among then from
    else FindFirst(s, d, among, from + 1)
  }

  /** What `dcmpi_string_tokenize` has still to deliver. */
  function Remaining(s: Text, d: Text, lastPos: int): seq<Text>
    requires -1 <= lastPos <= |s|
  {
    if lastPos < 0 then [] else Tokens(s[lastPos..], d)
  }

  lemma {:induction false} SkipTo(s: Text, d: Text, from: nat)
    requires from <= |s|
    ensures Remaining(s, d, from) == Remaining(s, d, FindFirst(s, d, false, from))
  {
    var pos := FindFirst(s, d, false, from);
    var k := (if pos < 0 then |s| else pos) - from;
    forall i | 0 <= i < k
      ensures s[from..][i] in d
    {
      assert s[from..][i] == s[from + i];
    }
    TokensSkip(s[from..], d, k);
    assert s[from..][k..] == s[from + k..];
  }

  /** The piece from lastPos to the next delimiter, then to the start of the piece after it. */
  lemma {:induction false} TakeOne(s: Text, d: Text, lastPos: nat)
    requires lastPos < |s| && s[lastPos] !in d
    ensures var pos := FindFirst(s, d, true, lastPos);
            var end := if pos < 0 then |s| else pos;
            Remaining(s, d, lastPos) == [s[lastPos..end]] + Remaining(s, d, FindFirst(s, d, false, pos))
  {
    var pos := FindFirst(s, d, true, lastPos);
    var end := if pos < 0 then |s| else pos;
    var t, k := s[lastPos..], end - lastPos;
    forall i | 0 <= i < k
      ensures t[i] !in d
    {
      assert t[i] == s[lastPos + i];
    }
    assert k < |t| ==> t[k] == s[end];
    TokensRun(t, d, k);
    assert t[..k] == s[lastPos..end] && t[k..] == s[end..];
    if pos >= 0 {
      SkipTo(s, d, pos);
    } else {
      assert s[end..] == [];
    }
  }


  /** `dcmpi_string_tokenize`. */
  method Tokenize(s: Text, delimiters: Text) returns (tokens: seq<Text>)
    ensures tokens == Tokens(s, delimiters)
  {
    tokens := [];
    var lastPos := FindFirst(s, delimiters, false, 0);
    var pos := FindFirst(s, delimiters, true, lastPos);
    SkipTo(s, delimiters, 0);
    assert s[0..] == s;
    while pos != -1 || lastPos != -1
      invariant -1 <= lastPos < |s| && pos == FindFirst(s, delimiters, true, lastPos)
      invariant lastPos >= 0 ==> s[lastPos] !in delimiters
      invariant tokens + Remaining(s, delimiters, lastPos) == Tokens(s, delimiters)
      decreases if lastPos < 0 then 0 else |s| - lastPos
    {
      var end := if pos == -1 then |s| else pos;
      TakeOne(s, delimiters, lastPos);
      var next := FindFirst(s, delimiters, false, pos);
      Assoc(tokens, [s[lastPos..end]], Remaining(s, delimiters, next));
      tokens := tokens + [s[lastPos..end]];
      lastPos := next;
      pos := FindFirst(s, delimiters, true, lastPos);
    }
  }

  // ---------------------------------------------------------------------------
  // Quoting
  // ---------------------------------------------------------------------------

  function QuotedByte(c: Octet): (q: Text)
    ensures q != []
  {
    if Alnum(c) then [c] else [Equals] + HexPair(c)
  }

  function Quoted(s: Text): (q: Text) {
    if s == [] then [] else QuotedByte(s[0]) + Quoted(s[1..])
  }

  /** What unquoting leads to; the last two are a missing first piece and a `substr` out of range. */
  datatype Outcome = Fine(text: Text) | NoPiece | TooShort

  /** Text t in front of an outcome. */
  function Before(t: Text, o: Outcome): Outcome {
    if o.Fine? then Fine(t + o.text) else o
  }

  /** The text of the pieces after the first. */
  function Decoded(toks: seq<Text>): Outcome {
    if toks == [] then Fine([])
    else if |toks[0]| < 2 then TooShort
    else Before([Narrow(Strtol16(toks[0][..2]))] + toks[0][2..], Decoded(toks[1..]))
  }

  function Unquoted(s: Text): Outcome {
    if s == [] then Fine([])
    else
      var toks := Tokens(s, [Equals]);
      if toks == [] then NoPiece else Before(toks[0], Decoded(toks[1..]))
  }

  /** How the pieces of a quoted text give back the text. */
  ghost predicate Restores(s: Text) {
    var q := Quoted(s);
    var toks := Tokens(q, [Equals]);
    if s == [] then q == [] && toks == []
    else if Alnum(s[0]) then
      && q != [] && q[0] != Equals && toks != []
      && Before(toks[0], Decoded(toks[1..])) == Fine(s)
    else
      && q != [] && q[0] == Equals && toks != []
      && HexPair(s[0]) <= toks[0] && Decoded(toks) == Fine(s)
  }

  /** One byte more in front, when the pieces of the rest are known. */
  lemma {:induction false} PlainInFront(s: Text)
    requires s != [] && Alnum(s[0]) && Restores(s[1..])
    ensures Restores(s)
  {
    var c, rest := s[0], s[1..];
    var q := Quoted(rest);
    var toks := Tokens(q, [Equals]);
    assert Quoted(s) == [c] + q && (([c] + q)[1..]) == q;
    assert s == [c] + rest;
    if rest == [] || !Alnum(rest[0]) {
      var all := Tokens([c] + q, [Equals]);
      assert all == [[c]] + toks && all[1..] == toks;
    } else {
      var all := Tokens([c] + q, [Equals]);
      assert all == [[c] + toks[0]] + toks[1..];
      assert all[1..] == toks[1..];
      assert ([c] + toks[0]) + Decoded(toks[1..]).text == [c] + (toks[0] + Decoded(toks[1..]).text);
    }
  }

  /** The pieces of two plain bytes in front of a text whose pieces are known. */
  lemma {:induction false} TwoInFront(a: Octet, b: Octet, q: Text)
    requires a != Equals && b != Equals
    ensures Tokens([a, b] + q, [Equals])
         == var toks := Tokens(q, [Equals]);
            if q == [] || q[0] == Equals then [[a, b]] + toks
            else [[a, b] + toks[0]] + toks[1..]
  {
    var toks := Tokens(q, [Equals]);
    var one := [b] + q;
    assert one[1..] == q && ([a, b] + q)[1..] == one;
    var ts := Tokens(one, [Equals]);
    if q == [] || q[0] == Equals {
      assert ts == [[b]] + toks;
      assert [a] + [b] == [a, b] && ts[1..] == toks;
    } else {
      assert ts == [[b] + toks[0]] + toks[1..];
      assert [a] + ([b] + toks[0]) == [a, b] + toks[0] && ts[1..] == toks[1..];
    }
  }

  lemma {:induction false} EscapedPieces(c: Octet, q: Text)
    requires !Alnum(c)
    ensures Tokens(QuotedByte(c) + q, [Equals])
         == var toks := Tokens(q, [Equals]);
            if q == [] || q[0] == Equals then [HexPair(c)] + toks
            else [HexPair(c) + toks[0]] + toks[1..]
  {
    var p := HexPair(c);
    HexPairReads(c);
    Assoc([Equals], p, q);
    assert ([Equals] + (p + q))[1..] == p + q;
    TwoInFront(p[0], p[1], q);
  }

  /** A first piece whose two digits stand for c. */
  lemma {:induction false} DigitsInFront(c: Octet, t: Text, more: seq<Text>)
    ensures Decoded([HexPair(c) + t] + more) == Before([c] + t, Decoded(more))
  {
    var toks := [HexPair(c) + t] + more;
    HexPairReads(c);
    assert toks[1..] == more;
    assert toks[0][..2] == HexPair(c) && toks[0][2..] == t;
  }

  lemma {:induction false} EscapedInFront(s: Text)
    requires s != [] && !Alnum(s[0]) && Restores(s[1..])
    ensures Restores(s)
  {
    var c, rest := s[0], s[1..];
    var p, toks := HexPair(c), Tokens(Quoted(rest), [Equals]);
    EscapedPieces(c, Quoted(rest));
    assert s == [c] + rest;
    if rest == [] || !Alnum(rest[0]) {
      assert p + [] == p && [c] + [] == [c];
      DigitsInFront(c, [], toks);
    } else {
      DigitsInFront(c, toks[0], toks[1..]);
      Assoc([c], toks[0], Decoded(toks[1..]).text);
    }
  }

  lemma {:induction false} PiecesRestore(s: Text)
    ensures Restores(s)
  {
    if s != [] {
      PiecesRestore(s[1..]);
      if Alnum(s[0]) {
        PlainInFront(s);
      } else {
        EscapedInFront(s);
      }
    }
  }

  /** What comes back for a text with another first byte: its two digits, and then the rest. */
  lemma {:induction false} LostFirst(s: Text)
    requires s != [] && !Alnum(s[0])
    ensures Unquoted(Quoted(s)) == Fine(HexPair(s[0]) + s[1..])
  {
    PiecesRestore(s);
    var toks := Tokens(Quoted(s), [Equals]);
    var p, o := HexPair(s[0]), Decoded(toks[1..]);
    HexPairReads(s[0]);
    assert toks[0] == p + toks[0][2..];
    assert o.Fine? && [s[0]] + toks[0][2..] + o.text == s;
    OtherFront(s, p, toks[0][2..], o.text);
  }

  lemma {:induction false} OtherFront(s: Text, p: Text, a: Text, b: Text)
    requires s != [] && [s[0]] + a + b == s
    ensures p + a + b == p + s[1..]
  {
    assert [s[0]] + a + b == [s[0]] + (a + b);
    assert ([s[0]] + (a + b))[1..] == a + b;
  }

  /** Unquoting undoes quoting exactly for texts that are empty or start with a letter or a digit. */
  lemma {:induction false} QuoteRoundTrip(s: Text)
    ensures Unquoted(Quoted(s)) == Fine(s) <==> s == [] || Alnum(s[0])
  {
    PiecesRestore(s);
    if s != [] && !Alnum(s[0]) {
      LostFirst(s);
      HexPairReads(s[0]);
      assert (HexPair(s[0]) + s[1..])[0] == HexPair(s[0])[0];
    }
  }

  /** Quoted text is safe for the shell: nothing but letters, digits and `=`. */
  lemma {:induction false} QuotedIsPlain(s: Text)
    ensures forall i :: 0 <= i < |Quoted(s)| ==> Alnum(Quoted(s)[i]) || Quoted(s)[i] == Equals
  {
    if s != [] {
      QuotedIsPlain(s[1..]);
      HexPairReads(s[0]);
    }
  }

  /** Different texts are quoted differently, even where unquoting does not restore them. */
  lemma {:induction false} QuotingIsInjective(s: Text, t: Text)
    requires Quoted(s) == Quoted(t)
    ensures s == t
  {
    PiecesRestore(s);
    PiecesRestore(t);
  }

  lemma {:induction false} QuotedMore(s: Text, c: Octet)
    ensures Quoted(s + [c]) == Quoted(s) + QuotedByte(c)
  {
    if s == [] {
      assert s + [c] == [c] && [c][1..] == [];
    } else {
      QuotedMore(s[1..], c);
      assert (s + [c])[1..] == s[1..] + [c];
      assert (s + [c])[0] == s[0];
      Assoc(QuotedByte(s[0]), Quoted(s[1..]), QuotedByte(c));
    }
  }

  /** `shell_quote`. */
  method Quote(s: Text) returns (result: Text)
    ensures result == Quoted(s)
  {
    result := [];
    var u := 0;
    while u < |s|
      invariant 0 <= u <= |s| && result == Quoted(s[..u])
    {
      var c := s[u];
      QuotedMore(s[..u], c);
      assert s[..u + 1] == s[..u] + [c];
      if Alnum(c) {
        result := result + [c];
      } else {
        result := result + ([Equals] + [HexDigit(c / 16), HexDigit(c % 16)]);
      }
      u := u + 1;
    }
    assert s[..u] == s;
  }

  lemma {:induction false} Nested(r: Text, t: Text, o: Outcome)
    ensures Before(r, Before(t, o)) == Before(r + t, o)
  {
    if o.Fine? {
      assert r + (t + o.text) == r + t + o.text;
    }
  }

  /** `shell_unquote`. */
  method Unquote(s: Text) returns (o: Outcome)
    ensures o == Unquoted(s)
  {
    if s == [] {
      return Fine([]);
    }
    var toks := Tokenize(s, [Equals]);
    if toks == [] {
      return NoPiece;
    }
    var result: Text := toks[0];
    var u := 1;
    while u < |toks|
      invariant 1 <= u <= |toks| && Before(result, Decoded(toks[u..])) == Unquoted(s)
    {
      var s2 := toks[u];
      assert toks[u..][0] == s2 && toks[u..][1..] == toks[u + 1..];
      if |s2| < 2 {
        return TooShort;
      }
      ghost var t: Text := [Narrow(Strtol16(s2[..2]))] + s2[2..];
      Nested(result, t, Decoded(toks[u + 1..]));
      assert result + [Narrow(Strtol16(s2[..2]))] + s2[2..] == result + t;
      result := result + [Narrow(Strtol16(s2[..2]))];
      result := result + s2[2..];
      u := u + 1;
    }
    assert result + [] == result;
    return Fine(result);
  }
}
