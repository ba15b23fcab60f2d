/** UTF-16 strings, the code points they spell, and their UTF-8 bytes. */
module Unicode {
  type Unit = u: nat | u < 0x1_0000

  type Byte = b: nat | b < 256

  type Text = seq<Unit>

  const REPLACEMENT: nat := 0xFFFD

  predicate High(u: Unit) {
    0xD800 <= u <= 0xDBFF
  }

  predicate Low(u: Unit) {
    0xDC00 <= u <= 0xDFFF
  }

  predicate PairAt(s: Text) {
    |s| > 1 && High(s[0]) && Low(s[1])
  }

  predicate Scalar(c: nat) {
    c < 0xD800 || 0xE000 <= c <= 0x10_FFFF
  }

  /** What TextEncoder reads: a surrogate without its partner counts as U+FFFD. */
  function CodePoints(s: Text): (cs: seq<nat>)
    ensures forall c | c in cs :: Scalar(c)
    decreases |s|
  {
    if s == [] then []
    else if PairAt(s) then [0x1_0000 + (s[0] - 0xD800) * 0x400 + (s[1] - 0xDC00)] + CodePoints(s[2..])
    else [if High(s[0]) || Low(s[0]) then REPLACEMENT else s[0]] + CodePoints(s[1..])
  }

  function Units(c: nat): Text
    requires Scalar(c)
  {
    if c < 0x1_0000 then [c] else [0xD800 + (c - 0x1_0000) / 0x400, 0xDC00 + (c - 0x1_0000) % 0x400]
  }

  function Utf16(cs: seq<nat>): Text
    requires forall c | c in cs :: Scalar(c)
  {
    if cs == [] then [] else Units(cs[0]) + Utf16(cs[1..])
  }

  predicate WellFormed(s: Text)
    decreases |s|
  {
    || s == []
    || (PairAt(s) && WellFormed(s[2..]))
    || (!High(s[0]) && !Low(s[0]) && WellFormed(s[1..]))
  }

  lemma PairSpelled(s: Text)
    requires PairAt(s)
    ensures Units(CodePoints(s)[0]) == s[..2] && CodePoints(s)[1..] == CodePoints(s[2..])
  {
    var high: int, low: int := s[0] - 0xD800, s[1] - 0xDC00;
    var c: int := 0x1_0000 + high * 0x400 + low;
    assert CodePoints(s) == [c] + CodePoints(s[2..]);
    assert (c - 0x1_0000) / 0x400 == high && (c - 0x1_0000) % 0x400 == low;
  }

  lemma SingleSpelled(s: Text)
    requires s != [] && !PairAt(s)
    ensures CodePoints(s)[1..] == CodePoints(s[1..])
    ensures Units(CodePoints(s)[0]) == [if High(s[0]) || Low(s[0]) then REPLACEMENT else s[0]]
  {
  }

  lemma SameTail(head: Text, a: Text, s: Text)
    requires |head| <= |s|
    ensures head + a == s <==> head == s[..|head|] && a == s[|head|..]
  {
    assert s == s[..|head|] + s[|head|..];
    if head + a == s {
      assert a == (head + a)[|head|..];
    }
  }

  /** A string is well formed exactly if it can be spelled again from its code points. */
  lemma {:induction false} WellFormedRoundTrip(s: Text)
    ensures WellFormed(s) <==> Utf16(CodePoints(s)) == s
    decreases |s|
  {
    if s != [] {
      var cs := CodePoints(s);
      if PairAt(s) {
        PairSpelled(s);
        SameTail(Units(cs[0]), Utf16(cs[1..]), s);
        WellFormedRoundTrip(s[2..]);
      } else {
        SingleSpelled(s);
        SameTail(Units(cs[0]), Utf16(cs[1..]), s);
        WellFormedRoundTrip(s[1..]);
      }
    }
  }

  method IsWellFormedUnicode(value: Text) returns (ok: bool)
    ensures ok <==> WellFormed(value)
  {
    var index := 0;
    while index < |value|
      invariant 0 <= index <= |value|
      invariant WellFormed(value) <==> WellFormed(value[index..])
    {
      var unit := value[index];
      if 0xD800 <= unit <= 0xDBFF {
        if index + 1 >= |value| {
          return false;
        }
        var next := value[index + 1];
        if next < 0xDC00 || next > 0xDFFF {
          return false;
        }
        assert value[index..][2..] == value[index + 2..];
        index := index + 1;
      } else if 0xDC00 <= unit <= 0xDFFF {
        return false;
      } else {
        assert value[index..][1..] == value[index + 1..];
      }
      index := index + 1;
    }
    ok := true;
  }

  // ---- UTF-8 -------------------------------------------------------------------------------

  function PointBytes(c: nat): (bs: seq<Byte>)
    requires Scalar(c)
    ensures bs != []
  {
    if c < 0x80 then [c]
    else if c < 0x800 then [0xC0 + c / 0x40, 0x80 + c % 0x40]
    else if c < 0x1_0000 then [0xE0 + c / 0x1000, 0x80 + c / 0x40 % 0x40, 0x80 + c % 0x40]
    else [0xF0 + c / 0x4_0000, 0x80 + c / 0x1000 % 0x40, 0x80 + c / 0x40 % 0x40, 0x80 + c % 0x40]
  }

  function PointsBytes(cs: seq<nat>): seq<Byte>
    requires forall c | c in cs :: Scalar(c)
  {
    if cs == [] then [] else PointBytes(cs[0]) + PointsBytes(cs[1..])
  }

  function Utf8(s: Text): seq<Byte> {
    PointsBytes(CodePoints(s))
  }

  function SizeFrom(first: Byte): nat {
    if first < 0x80 then 1 else if first < 0xE0 then 2 else if first < 0xF0 then 3 else 4
  }

  function Digit(bs: seq<Byte>, i: nat): int
    requires i < |bs|
  {
    bs[i] as int - 0x80
  }

  function PointFrom(bs: seq<Byte>): int
    requires bs != [] && |bs| == SizeFrom(bs[0])
  {
    var first: int := bs[0];
    if |bs| == 1 then first
    else if |bs| == 2 then (first - 0xC0) * 0x40 + Digit(bs, 1)
    else if |bs| == 3 then (first - 0xE0) * 0x1000 + Digit(bs, 1) * 0x40 + Digit(bs, 2)
    else (first - 0xF0) * 0x4_0000 + Digit(bs, 1) * 0x1000 + Digit(bs, 2) * 0x40 + Digit(bs, 3)
  }

  lemma ThreeDigits(c: nat)
    ensures c == c / 0x1000 * 0x1000 + c / 0x40 % 0x40 * 0x40 + c % 0x40
  {
    assert c / 0x1000 == c / 0x40 / 0x40;
  }

  lemma FourDigits(c: nat)
    ensures c == c / 0x4_0000 * 0x4_0000 + c / 0x1000 % 0x40 * 0x1000 + c / 0x40 % 0x40 * 0x40 + c % 0x40
  {
    ThreeDigits(c);
    assert c / 0x4_0000 == c / 0x1000 / 0x40;
  }

  lemma PointSize(c: nat)
    requires Scalar(c)
    ensures |PointBytes(c)| == SizeFrom(PointBytes(c)[0])
  {
  }

  lemma PointRecovered(c: nat)
    requires Scalar(c)
    ensures |PointBytes(c)| == SizeFrom(PointBytes(c)[0]) && PointFrom(PointBytes(c)) == c
  {
    PointSize(c);
    ThreeDigits(c);
    FourDigits(c);
  }

  predicate Continues(b: Byte) {
    0x80 <= b < 0xC0
  }

  /** The bytes of a code point are those of the table in section 3 of RFC 3629. */
  lemma PointBytesAreStandard(c: nat)
    requires Scalar(c)
    ensures var bs := PointBytes(c);
            if c <= 0x7F then bs == [c]
            else if c <= 0x7FF then
              && |bs| == 2 && 0xC0 <= bs[0] < 0xE0 && Continues(bs[1]) && c == (bs[0] as int - 0xC0) * 0x40 + (bs[1] as int - 0x80)
            else if c <= 0xFFFF then
              && |bs| == 3 && 0xE0 <= bs[0] < 0xF0 && Continues(bs[1]) && Continues(bs[2])
              && c == (bs[0] as int - 0xE0) * 0x1000 + (bs[1] as int - 0x80) * 0x40 + (bs[2] as int - 0x80)
            else
              && |bs| == 4 && 0xF0 <= bs[0] < 0xF8 && Continues(bs[1]) && Continues(bs[2]) && Continues(bs[3])
              && c == (bs[0] as int - 0xF0) * 0x4_0000 + (bs[1] as int - 0x80) * 0x1000 + (bs[2] as int - 0x80) * 0x40 + (bs[3] as int - 0x80)
  {
    ThreeDigits(c);
    FourDigits(c);
  }

  /** A surrogate pair is one supplementary code point; a surrogate alone counts as U+FFFD; any other unit
      counts as itself. */
  lemma FirstPoint(s: Text)
    requires s != []
    ensures var cs, u, v := CodePoints(s), s[0] as int, if |s| > 1 then s[1] as int else 0;
            if 0xD800 <= u <= 0xDBFF && 0xDC00 <= v <= 0xDFFF
            then cs != [] && cs[0] == 0x1_0000 + (u - 0xD800) * 0x400 + (v - 0xDC00) && cs[1..] == CodePoints(s[2..])
            else cs != [] && cs[0] == (if 0xD800 <= u <= 0xDFFF then 0xFFFD else u) && cs[1..] == CodePoints(s[1..])
  {
  }

  /** The bytes of a string are those of its code points one after the other. */
  lemma {:induction false} BytesByPoint(cs: seq<nat>, c: nat)
    requires (forall o | o in cs :: Scalar(o)) && Scalar(c)
    ensures PointsBytes([]) == [] && PointsBytes(cs + [c]) == PointsBytes(cs) + PointBytes(c)
    decreases |cs|
  {
    hide PointBytes;
    if cs == [] {
      assert [c][1..] == [];
      assert cs + [c] == [c];
    } else {
      assert (cs + [c])[1..] == cs[1..] + [c];
      BytesByPoint(cs[1..], c);
    }
  }

  /** A code point's bytes show where they end. */
  lemma PointEnds(a: nat, b: nat, x: seq<Byte>, y: seq<Byte>)
    requires Scalar(a) && Scalar(b) && PointBytes(a) + x == PointBytes(b) + y
    ensures a == b && x == y
  {
    PointRecovered(a);
    PointRecovered(b);
    hide PointBytes;
    hide PointFrom;
    var p, q := PointBytes(a), PointBytes(b);
    assert (p + x)[0] == p[0] && (q + y)[0] == q[0];
    assert p == (p + x)[..|p|] && q == (q + y)[..|q|];
    assert x == (p + x)[|p|..] && y == (q + y)[|q|..];
  }

  lemma {:induction false} PointsBytesInjective(a: seq<nat>, b: seq<nat>)
    requires (forall c | c in a :: Scalar(c)) && (forall c | c in b :: Scalar(c))
    requires PointsBytes(a) == PointsBytes(b)
    ensures a == b
    decreases |a|
  {
    if a != [] && b != [] {
      PointEnds(a[0], b[0], PointsBytes(a[1..]), PointsBytes(b[1..]));
      PointsBytesInjective(a[1..], b[1..]);
      assert a == [a[0]] + a[1..] && b == [b[0]] + b[1..];
    }
  }

  /** Two strings have the same bytes exactly if they spell the same code points. */
  lemma Utf8Distinguishes(s: Text, t: Text)
    ensures Utf8(s) == Utf8(t) <==> CodePoints(s) == CodePoints(t)
  {
    if Utf8(s) == Utf8(t) {
      PointsBytesInjective(CodePoints(s), CodePoints(t));
    }
  }

  lemma WellFormedPoints(s: Text, t: Text)
    requires WellFormed(s) && WellFormed(t) && CodePoints(s) == CodePoints(t)
    ensures s == t
  {
    WellFormedRoundTrip(s);
    WellFormedRoundTrip(t);
  }
}
