/** The tagged, length-prefixed encoding of everything that gets signed. */
module Canonical {
  import opened Wrappers
  import opened Unicode

  /** A number is an integer, or one of the values that are not: fractions, NaN and the infinities. */
  datatype Value = Text(text: Unicode.Text) | Number(n: int) | NotAnInteger | Null

  const MAX_SAFE_INTEGER := 9007199254740991
  const TWO_64 := 0x1_0000_0000_0000_0000
  const TWO_32 := 0x1_0000_0000
  const TAG_STRING: Byte := 1
  const TAG_INT: Byte := 2
  const TAG_NULL: Byte := 3

  predicate Safe(n: int) {
    -MAX_SAFE_INTEGER <= n <= MAX_SAFE_INTEGER
  }

  function BigEndian(n: nat, size: nat): (bs: seq<Byte>)
    ensures |bs| == size
  {
    if size == 0 then [] else BigEndian(n / 256, size - 1) + [n % 256]
  }

  /** setBigInt64: two's complement. */
  function Int64(n: int): nat {
    n % TWO_64
  }

  /** setUint32 keeps the low 32 bits. */
  function Uint32(n: nat): nat {
    n % TWO_32
  }

  predicate Encodable(v: Value) {
    !v.NotAnInteger? && (v.Number? ==> Safe(v.n))
  }

  function EncodeValue(v: Value): (bs: seq<Byte>)
    requires Encodable(v)
    ensures bs != []
  {
    match v
    case Null => [TAG_NULL]
    case Number(n) => [TAG_INT] + BigEndian(Int64(n), 8)
    case Text(s) => [TAG_STRING] + BigEndian(Uint32(|Utf8(s)|), 4) + Utf8(s)
  }

  function EncodeAll(values: seq<Value>): seq<Byte>
    requires forall v | v in values :: Encodable(v)
  {
    if values == [] then [] else EncodeValue(values[0]) + EncodeAll(values[1..])
  }

  /** canonicalEncode; no result stands for the error it throws. */
  function Encode(values: seq<Value>): Option<seq<Byte>> {
    if forall v | v in values :: Encodable(v) then Some(EncodeAll(values)) else None
  }

  // ---- The same, by the loops of the source ------------------------------------------------

  function Flat(parts: seq<seq<Byte>>): seq<Byte> {
    if parts == [] then [] else parts[0] + Flat(parts[1..])
  }

  function Total(parts: seq<seq<Byte>>): nat {
    if parts == [] then 0 else |parts[0]| + Total(parts[1..])
  }

  lemma {:induction false} FlatSnoc(parts: seq<seq<Byte>>, part: seq<Byte>)
    ensures Flat(parts + [part]) == Flat(parts) + part
    ensures Total(parts + [part]) == Total(parts) + |part|
    decreases |parts|
  {
    if parts == [] {
      assert [part][1..] == [];
    } else {
      assert (parts + [part])[1..] == parts[1..] + [part];
      FlatSnoc(parts[1..], part);
    }
  }

  lemma {:induction false} EncodeSnoc(values: seq<Value>, v: Value)
    requires (forall o | o in values :: Encodable(o)) && Encodable(v)
    ensures EncodeAll(values + [v]) == EncodeAll(values) + EncodeValue(v)
    decreases |values|
  {
    if values == [] {
      assert ([v])[1..] == [];
    } else {
      assert (values + [v])[1..] == values[1..] + [v];
      EncodeSnoc(values[1..], v);
    }
  }

  lemma {:induction false} FlatLength(parts: seq<seq<Byte>>)
    ensures |Flat(parts)| == Total(parts)
    decreases |parts|
  {
    if parts != [] {
      FlatLength(parts[1..]);
    }
  }

  method EncodeParts(values: seq<Value>) returns (parts: Option<seq<seq<Byte>>>)
    ensures parts.Some? <==> forall v | v in values :: Encodable(v)
    ensures parts.Some? ==> Flat(parts.value) == EncodeAll(values)
  {
    var done: seq<seq<Byte>> := [];
    var i := 0;
    while i < |values|
      invariant 0 <= i <= |values|
      invariant forall v | v in values[..i] :: Encodable(v)
      invariant Flat(done) == EncodeAll(values[..i])
    {
      var value := values[i];
      assert values[..i + 1] == values[..i] + [value];
      if value.NotAnInteger? || (value.Number? && !Safe(value.n)) {
        assert value in values;
        return None;
      }
      EncodeSnoc(values[..i], value);
      var part: seq<Byte>;
      match value {
        case Null => part := [TAG_NULL];
        case Number(n) => part := [TAG_INT] + BigEndian(Int64(n), 8);
        case Text(s) =>
          var bytes := Utf8(s);
          part := [TAG_STRING] + BigEndian(Uint32(|bytes|), 4) + bytes;
      }
      FlatSnoc(done, part);
      done := done + [part];
      i := i + 1;
    }
    assert values[..i] == values;
    parts := Some(done);
  }

  lemma {:induction false} TotalSplit(parts: seq<seq<Byte>>, i: nat)
    requires i <= |parts|
    ensures Total(parts) == Total(parts[..i]) + Total(parts[i..])
    decreases i
  {
    if i == 0 {
      assert parts[0..] == parts;
    } else {
      TotalSplit(parts[1..], i - 1);
      assert parts[1..][..i - 1] == parts[..i][1..];
      assert parts[1..][i - 1..] == parts[i..];
    }
  }

  lemma Room(parts: seq<seq<Byte>>, i: nat)
    requires i < |parts|
    ensures Total(parts[..i]) + |parts[i]| <= Total(parts)
  {
    TotalSplit(parts, i);
  }

  method TotalLength(parts: seq<seq<Byte>>) returns (total: nat)
    ensures total == |Flat(parts)|
  {
    total := 0;
    for i := 0 to |parts|
      invariant total == Total(parts[..i])
    {
      assert parts[..i + 1] == parts[..i] + [parts[i]];
      FlatSnoc(parts[..i], parts[i]);
      total := total + |parts[i]|;
    }
    assert parts[..|parts|] == parts;
    FlatLength(parts);
  }

  method CopyPart(out: array<Byte>, offset: nat, part: seq<Byte>)
    requires offset + |part| <= out.Length
    modifies out
    ensures out[..offset + |part|] == old(out[..offset]) + part
  {
    forall k | 0 <= k < |part| {
      out[offset + k] := part[k];
    }
  }

  /** The parts are copied into one buffer at a running offset. */
  method Joined(parts: seq<seq<Byte>>) returns (out: array<Byte>)
    ensures fresh(out) && out[..] == Flat(parts)
  {
    var total := TotalLength(parts);
    FlatLength(parts);
    out := new Byte[total];
    var offset := 0;
    for i := 0 to |parts|
      invariant offset == Total(parts[..i]) <= total
      invariant out[..offset] == Flat(parts[..i])
    {
      Room(parts, i);
      CopyPart(out, offset, parts[i]);
      assert parts[..i + 1] == parts[..i] + [parts[i]];
      FlatSnoc(parts[..i], parts[i]);
      offset := offset + |parts[i]|;
    }
    assert parts[..|parts|] == parts;
    assert out[..offset] == out[..];
  }

  method CanonicalEncode(values: seq<Value>) returns (encoded: Option<array<Byte>>)
    ensures encoded.Some? <==> Encode(values).Some?
    ensures encoded.Some? ==> fresh(encoded.value) && encoded.value[..] == Encode(values).value
  {
    var parts := EncodeParts(values);
    if parts.None? {
      return None;
    }
    var out := Joined(parts.value);
    encoded := Some(out);
  }

  // ---- Byte by byte ------------------------------------------------------------------------

  /** The number that bytes spell, most significant first. */
  function NumberOf(bs: seq<Byte>): nat {
    if bs == [] then 0 else NumberOf(bs[..|bs| - 1]) * 256 + bs[|bs| - 1]
  }

  lemma {:induction false} BigEndianSpells(n: nat, size: nat)
    requires n < Power(size)
    ensures NumberOf(BigEndian(n, size)) == n
    decreases size
  {
    if size > 0 {
      var bs := BigEndian(n, size);
      assert bs[..size - 1] == BigEndian(n / 256, size - 1);
      BigEndianSpells(n / 256, size - 1);
    }
  }

  /** Text is tag 1, four bytes of length, and its UTF-8. */
  lemma TextBytes(s: Unicode.Text)
    ensures var bs := EncodeValue(Text(s));
            && |bs| >= 5 && bs[0] == 1 && bs[5..] == Utf8(s)
            && NumberOf(bs[1..5]) == |Utf8(s)| % 0x1_0000_0000
  {
    var n := Uint32(|Utf8(s)|);
    Powers();
    BigEndianSpells(n, 4);
    assert EncodeValue(Text(s))[1..5] == BigEndian(n, 4);
  }

  /** An integer is tag 2 and the eight bytes of its 64-bit two's complement. */
  lemma NumberBytes(n: int)
    requires -9_007_199_254_740_991 <= n <= 9_007_199_254_740_991
    ensures var bs := EncodeValue(Number(n));
            && |bs| == 9 && bs[0] == 2
            && NumberOf(bs[1..]) == if n >= 0 then n else n + 0x1_0000_0000_0000_0000
  {
    Powers();
    BigEndianSpells(Int64(n), 8);
    assert EncodeValue(Number(n))[1..] == BigEndian(Int64(n), 8);
  }

  /** Null is tag 3, and the bytes of a list are those of its values one after the other. */
  lemma {:induction false} ListBytes(a: seq<Value>, v: Value)
    requires (forall o | o in a :: Encodable(o)) && Encodable(v)
    ensures EncodeValue(Null) == [3] && EncodeAll([]) == [] && EncodeAll(a + [v]) == EncodeAll(a) + EncodeValue(v)
  {
    EncodeSnoc(a, v);
  }

  /** An error is thrown exactly for a number that is no safe integer. */
  lemma EncodableExactly(values: seq<Value>)
    ensures Encode(values).Some? <==>
            forall v | v in values :: !v.NotAnInteger? && (v.Number? ==> -9_007_199_254_740_991 <= v.n <= 9_007_199_254_740_991)
  {
  }

  // ---- What the bytes say ------------------------------------------------------------------

  /** A value as the encoding sees it: text counts as the code points it spells. */
  datatype Meaning = Spelled(points: seq<nat>) | Integer(n: int) | Nothing

  function MeaningOf(v: Value): Meaning
    requires Encodable(v)
  {
    match v
    case Text(s) => Spelled(CodePoints(s))
    case Number(n) => Integer(n)
    case Null => Nothing
  }

  function Meanings(values: seq<Value>): seq<Meaning>
    requires forall v | v in values :: Encodable(v)
  {
    seq(|values|, i requires 0 <= i < |values| => MeaningOf(values[i]))
  }

  /** No JavaScript string is long enough to wrap its length prefix. */
  predicate Short(v: Value) {
    v.Text? ==> |Utf8(v.text)| < TWO_32
  }

  predicate Proper(values: seq<Value>) {
    forall v | v in values :: Encodable(v) && Short(v)
  }

  function Power(size: nat): nat {
    if size == 0 then 1 else 256 * Power(size - 1)
  }

  lemma {:induction false} BigEndianInjective(n: nat, m: nat, size: nat)
    requires n < Power(size) && m < Power(size) && BigEndian(n, size) == BigEndian(m, size)
    ensures n == m
    decreases size
  {
    if size > 0 {
      var a, b := BigEndian(n, size), BigEndian(m, size);
      assert a[size - 1] == n % 256 && b[size - 1] == m % 256;
      assert a[..size - 1] == BigEndian(n / 256, size - 1) && b[..size - 1] == BigEndian(m / 256, size - 1);
      BigEndianInjective(n / 256, m / 256, size - 1);
    }
  }

  lemma Powers()
    ensures Power(4) == TWO_32 && Power(8) == TWO_64
  {
    assert Power(1) == 256 && Power(2) == 0x1_0000 && Power(3) == 0x100_0000;
    assert Power(5) == 0x100_0000_0000 && Power(6) == 0x1_0000_0000_0000 && Power(7) == 0x100_0000_0000_0000;
  }

  lemma IntegerBytes(n: int, m: int)
    requires Safe(n) && Safe(m) && BigEndian(Int64(n), 8) == BigEndian(Int64(m), 8)
    ensures n == m
  {
    Powers();
    BigEndianInjective(Int64(n), Int64(m), 8);
  }

  lemma Prefixes<T>(a: seq<T>, b: seq<T>, x: seq<T>, y: seq<T>)
    requires a + x == b + y && |a| == |b|
    ensures a == b && x == y
  {
    assert a == (a + x)[..|a|] && b == (b + y)[..|a|];
    assert x == (a + x)[|a|..] && y == (b + y)[|a|..];
  }

  lemma Headed<T>(h: seq<T>, k: seq<T>, s: seq<T>, t: seq<T>, x: seq<T>, y: seq<T>)
    requires |h| == |k| && h + s + x == k + t + y
    ensures h == k && s + x == t + y
  {
    assert h + s + x == h + (s + x) && k + t + y == k + (t + y);
    Prefixes(h, k, s + x, t + y);
  }

  lemma LengthBytes(n: nat, m: nat)
    requires n < TWO_32 && m < TWO_32 && BigEndian(n, 4) == BigEndian(m, 4)
    ensures n == m
  {
    Powers();
    BigEndianInjective(n, m, 4);
  }

  lemma LengthPrefixed(s: seq<Byte>, t: seq<Byte>, x: seq<Byte>, y: seq<Byte>)
    requires |s| < TWO_32 && |t| < TWO_32
    requires [TAG_STRING] + BigEndian(|s|, 4) + s + x == [TAG_STRING] + BigEndian(|t|, 4) + t + y
    ensures s == t && x == y
  {
    hide BigEndian;
    var n, m := BigEndian(|s|, 4), BigEndian(|t|, 4);
    Headed([TAG_STRING] + n, [TAG_STRING] + m, s, t, x, y);
    Prefixes([TAG_STRING], [TAG_STRING], n, m);
    LengthBytes(|s|, |t|);
    Prefixes(s, t, x, y);
  }

  lemma TextEnds(s: Unicode.Text, t: Unicode.Text, x: seq<Byte>, y: seq<Byte>)
    requires |Utf8(s)| < TWO_32 && |Utf8(t)| < TWO_32
    requires EncodeValue(Text(s)) + x == EncodeValue(Text(t)) + y
    ensures Utf8(s) == Utf8(t) && x == y
  {
    hide BigEndian;
    hide Utf8;
    LengthPrefixed(Utf8(s), Utf8(t), x, y);
  }

  /** An encoded value shows its kind and where it ends. */
  lemma ValueEnds(v: Value, u: Value, x: seq<Byte>, y: seq<Byte>)
    requires Encodable(v) && Encodable(u) && Short(v) && Short(u)
    requires EncodeValue(v) + x == EncodeValue(u) + y
    ensures MeaningOf(v) == MeaningOf(u) && x == y
  {
    assert (EncodeValue(v) + x)[0] == EncodeValue(v)[0] && (EncodeValue(u) + y)[0] == EncodeValue(u)[0];
    match v
    case Text(s) =>
      TextEnds(s, u.text, x, y);
      Utf8Distinguishes(s, u.text);
    case Number(n) =>
      Prefixes(EncodeValue(v), EncodeValue(u), x, y);
      assert EncodeValue(v)[1..] == BigEndian(Int64(n), 8) && EncodeValue(u)[1..] == BigEndian(Int64(u.n), 8);
      IntegerBytes(n, u.n);
    case Null => Prefixes(EncodeValue(v), EncodeValue(u), x, y);
  }

  lemma SameMeaningSameBytes(v: Value, u: Value)
    requires Encodable(v) && Encodable(u) && MeaningOf(v) == MeaningOf(u)
    ensures EncodeValue(v) == EncodeValue(u)
  {
    if v.Text? {
      Utf8Distinguishes(v.text, u.text);
    }
  }

  lemma MeaningsSplit(a: seq<Value>)
    requires a != [] && forall v | v in a :: Encodable(v)
    ensures Meanings(a) == [MeaningOf(a[0])] + Meanings(a[1..])
  {
  }

  lemma ConsEqual<T>(x: T, xs: seq<T>, y: T, ys: seq<T>)
    ensures [x] + xs == [y] + ys <==> x == y && xs == ys
  {
    assert ([x] + xs)[1..] == xs && ([y] + ys)[1..] == ys;
    assert ([x] + xs)[0] == x && ([y] + ys)[0] == y;
  }

  /** The first values' bytes decide about them, and leave the rest to decide about the rest. */
  lemma HeadDecides(v: Value, u: Value, x: seq<Byte>, y: seq<Byte>)
    requires Encodable(v) && Encodable(u) && Short(v) && Short(u)
    ensures EncodeValue(v) + x == EncodeValue(u) + y <==> MeaningOf(v) == MeaningOf(u) && x == y
  {
    if EncodeValue(v) + x == EncodeValue(u) + y {
      ValueEnds(v, u, x, y);
    }
    if MeaningOf(v) == MeaningOf(u) {
      SameMeaningSameBytes(v, u);
    }
  }

  lemma OneIsEmpty(a: seq<Value>, b: seq<Value>)
    requires Proper(a) && Proper(b) && (a == [] || b == [])
    ensures EncodeAll(a) == EncodeAll(b) <==> Meanings(a) == Meanings(b)
  {
    assert |Meanings(a)| == |a| && |Meanings(b)| == |b|;
  }

  /** Two lists have the same bytes exactly if they mean the same, value by value. */
  lemma {:induction false} EncodingDistinguishes(a: seq<Value>, b: seq<Value>)
    requires Proper(a) && Proper(b)
    ensures EncodeAll(a) == EncodeAll(b) <==> Meanings(a) == Meanings(b)
    decreases |a|
  {
    if a == [] || b == [] {
      OneIsEmpty(a, b);
    } else {
      assert Proper(a[1..]) && Proper(b[1..]) && a[0] in a && b[0] in b;
      EncodingDistinguishes(a[1..], b[1..]);
      MeaningsSplit(a);
      MeaningsSplit(b);
      hide EncodeValue;
      hide MeaningOf;
      hide Meanings;
      HeadDecides(a[0], b[0], EncodeAll(a[1..]), EncodeAll(b[1..]));
      ConsEqual(MeaningOf(a[0]), Meanings(a[1..]), MeaningOf(b[0]), Meanings(b[1..]));
    }
  }

  predicate Clean(v: Value) {
    v.Text? ==> WellFormed(v.text)
  }

  /** On lists of well-formed strings the encoding is injective. */
  lemma EncodingIsInjective(a: seq<Value>, b: seq<Value>)
    requires Proper(a) && Proper(b) && (forall v | v in a :: Clean(v)) && (forall v | v in b :: Clean(v))
    requires Encode(a) == Encode(b)
    ensures a == b
  {
    EncodingDistinguishes(a, b);
    assert |a| == |Meanings(a)| == |b|;
    forall i | 0 <= i < |a|
      ensures a[i] == b[i]
    {
      assert Meanings(a)[i] == Meanings(b)[i];
      assert a[i] in a && b[i] in b;
      if a[i].Text? {
        WellFormedPoints(a[i].text, b[i].text);
      }
    }
  }

  /** On ill-formed strings it is not: a lone surrogate is written like U+FFFD. */
  lemma LoneSurrogateCollides()
    ensures [Text([0xD800])] != [Text([0xFFFD])] && Encode([Text([0xD800])]) == Encode([Text([0xFFFD])])
  {
    var a, b := [0xD800], [0xFFFD];
    assert CodePoints(a[1..]) == [] && CodePoints(b[1..]) == [];
    assert CodePoints(a) == [0xFFFD] == CodePoints(b);
    assert EncodeAll([Text(a)]) == EncodeValue(Text(a)) + EncodeAll([Text(a)][1..]);
    assert EncodeAll([Text(b)]) == EncodeValue(Text(b)) + EncodeAll([Text(b)][1..]);
    assert [Text(a)][1..] == [Text(b)][1..];
  }
}
