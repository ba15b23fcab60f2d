/** Unpadded base64url (RFC 4648 section 5) and its strict decoding. */
module Base64Url {
  import opened Wrappers
  import opened Unicode

  type Sextet = v: nat | v < 64

  function Symbol(v: Sextet): char {
    if v < 26 then 'A' + v as char
    else if v < 52 then 'a' + (v - 26) as char
    else if v < 62 then '0' + (v - 52) as char
    else if v == 62 then '+' else '/'
  }

  predicate InAlphabet(c: char) {
    'A' <= c <= 'Z' || 'a' <= c <= 'z' || '0' <= c <= '9' || c == '+' || c == '/'
  }

  function ValueOf(c: char): Sextet
    requires InAlphabet(c)
  {
    if 'A' <= c <= 'Z' then (c as int - 'A' as int) as nat
    else if 'a' <= c <= 'z' then (c as int - 'a' as int + 26) as nat
    else if '0' <= c <= '9' then (c as int - '0' as int + 52) as nat
    else if c == '+' then 62 else 63
  }

  function Map(s: string, f: char -> char): string {
    seq(|s|, i requires 0 <= i < |s| => f(s[i]))
  }

  function ToUrlChar(c: char): char {
    if c == '+' then '-' else if c == '/' then '_' else c
  }

  function FromUrlChar(c: char): char {
    if c == '-' then '+' else if c == '_' then '/' else c
  }

  function Equals(n: nat): string {
    if n == 0 then "" else "=" + Equals(n - 1)
  }

  function Missing(n: nat): nat {
    (4 - n % 4) % 4
  }

  /** Three bytes are four sextets; a last group of one or two bytes is filled up with zero bits. */
  function Sextets(b: seq<Byte>): seq<Sextet> {
    if b == [] then []
    else if |b| == 1 then [b[0] / 4, b[0] % 4 * 16]
    else if |b| == 2 then [b[0] / 4, b[0] % 4 * 16 + b[1] / 16, b[1] % 16 * 4]
    else [b[0] / 4, b[0] % 4 * 16 + b[1] / 16, b[1] % 16 * 4 + b[2] / 64, b[2] % 64] + Sextets(b[3..])
  }

  function Symbols(q: seq<Sextet>): string {
    seq(|q|, i requires 0 <= i < |q| => Symbol(q[i]))
  }

  /** btoa. */
  function Btoa(b: seq<Byte>): string {
    Symbols(Sextets(b)) + Equals(Missing(|Sextets(b)|))
  }

  function StripEquals(s: string): string {
    if s != "" && s[|s| - 1] == '=' then StripEquals(s[..|s| - 1]) else s
  }

  function ToBase64Url(b: seq<Byte>): string {
    StripEquals(Map(Btoa(b), ToUrlChar))
  }

  function FirstByte(x: nat, y: nat): Byte
    requires x < 64 && y < 64
  {
    x * 4 + y / 16
  }

  function SecondByte(y: nat, z: nat): Byte
    requires y < 64 && z < 64
  {
    y % 16 * 16 + z / 4
  }

  function ThirdByte(z: nat, w: nat): Byte
    requires z < 64 && w < 64
  {
    z % 4 * 64 + w
  }

  /** The bits a last group has left over are dropped, whatever they are. */
  function Bytes(q: seq<Sextet>): seq<Byte>
    requires |q| % 4 != 1
  {
    if q == [] then []
    else if |q| == 2 then [FirstByte(q[0], q[1])]
    else if |q| == 3 then [FirstByte(q[0], q[1]), SecondByte(q[1], q[2])]
    else [FirstByte(q[0], q[1]), SecondByte(q[1], q[2]), ThirdByte(q[2], q[3])] + Bytes(q[4..])
  }

  predicate Blank(c: char) {
    c == ' ' || c == '\t' || c == '\n' || c == '\r' || c as int == 12
  }

  function WithoutBlanks(s: string): string {
    if s == "" then ""
    else (if Blank(s[0]) then "" else [s[0]]) + WithoutBlanks(s[1..])
  }

  function WithoutPadding(s: string): string {
    if |s| % 4 != 0 || s == "" || s[|s| - 1] != '=' then s
    else if s[|s| - 2] == '=' then s[..|s| - 2]
    else s[..|s| - 1]
  }

  /** atob: forgiving base64; no result stands for the error it throws. */
  function Atob(s: string): Option<seq<Byte>> {
    var t := WithoutPadding(WithoutBlanks(s));
    if |t| % 4 != 1 && forall i | 0 <= i < |t| :: InAlphabet(t[i])
    then Some(Bytes(seq(|t|, i requires 0 <= i < |t| => ValueOf(t[i]))))
    else None
  }

  function FromBase64Url(value: string): Option<seq<Byte>> {
    Atob(Map(value, FromUrlChar) + Equals(Missing(|value|)))
  }

  predicate UrlChar(c: char) {
    'A' <= c <= 'Z' || 'a' <= c <= 'z' || '0' <= c <= '9' || c == '_' || c == '-'
  }

  predicate LooksLikeBase64Url(value: string) {
    value != "" && forall i | 0 <= i < |value| :: UrlChar(value[i])
  }

  function FromBase64UrlStrict(value: string): Option<seq<Byte>> {
    if !LooksLikeBase64Url(value) then None
    else
      var bytes := FromBase64Url(value);
      if bytes.Some? && ToBase64Url(bytes.value) == value then bytes else None
  }

  // ---- The loops that copy bytes to characters and back ------------------------------------

  function Latin1(b: seq<Byte>): string {
    seq(|b|, i requires 0 <= i < |b| => b[i] as char)
  }

  function CharCodes(s: string): seq<Byte>
    requires forall i | 0 <= i < |s| :: s[i] as int < 256
  {
    seq(|s|, i requires 0 <= i < |s| => s[i] as int)
  }

  method Encode(bytes: array<Byte>) returns (text: string)
    ensures text == ToBase64Url(bytes[..])
  {
    var binary := "";
    for i := 0 to bytes.Length
      invariant binary == Latin1(bytes[..i])
    {
      binary := binary + [bytes[i] as char];
    }
    assert bytes[..bytes.Length] == bytes[..];
    assert CharCodes(binary) == bytes[..];
    text := StripEquals(Map(Btoa(CharCodes(binary)), ToUrlChar));
  }

  method Decode(value: string) returns (out: Option<array<Byte>>)
    ensures out.Some? <==> FromBase64Url(value).Some?
    ensures out.Some? ==> fresh(out.value) && out.value[..] == FromBase64Url(value).value
  {
    var decoded := Atob(Map(value, FromUrlChar) + Equals(Missing(|value|)));
    if decoded.None? {
      return None;
    }
    var binary := Latin1(decoded.value);
    var bytes := new Byte[|binary|];
    for i := 0 to |binary|
      invariant forall k | 0 <= k < i :: bytes[k] == binary[k] as int
    {
      bytes[i] := binary[i] as int;
    }
    assert bytes[..] == decoded.value;
    out := Some(bytes);
  }

  // ---- Round trip --------------------------------------------------------------------------

  lemma SymbolValue(v: Sextet)
    ensures InAlphabet(Symbol(v)) && ValueOf(Symbol(v)) == v
    ensures UrlChar(ToUrlChar(Symbol(v))) && FromUrlChar(ToUrlChar(Symbol(v))) == Symbol(v)
    ensures !Blank(Symbol(v)) && Symbol(v) != '=' && ToUrlChar(Symbol(v)) != '='
  {
  }

  lemma {:induction false} SextetsLength(b: seq<Byte>)
    ensures |Sextets(b)| % 4 != 1
    ensures |Sextets(b)| == 0 <==> b == []
    decreases |b|
  {
    if |b| > 2 {
      SextetsLength(b[3..]);
    }
  }

  lemma GroupRecovered(x: Byte, y: Byte, z: Byte)
    ensures FirstByte(x / 4, x % 4 * 16 + y / 16) == x
    ensures SecondByte(x % 4 * 16 + y / 16, y % 16 * 4 + z / 64) == y
    ensures ThirdByte(y % 16 * 4 + z / 64, z % 64) == z
  {
  }

  lemma LongBytes(q: seq<Sextet>)
    requires |q| >= 4 && |q| % 4 != 1
    ensures |q[4..]| % 4 != 1
    ensures Bytes(q) == [FirstByte(q[0], q[1]), SecondByte(q[1], q[2]), ThirdByte(q[2], q[3])] + Bytes(q[4..])
  {
  }

  lemma LongSextets(b: seq<Byte>)
    requires |b| > 2
    ensures var q := Sextets(b);
            && |q| >= 4 && q[4..] == Sextets(b[3..])
            && q[0] == b[0] / 4 && q[1] == b[0] % 4 * 16 + b[1] / 16 && q[2] == b[1] % 16 * 4 + b[2] / 64 && q[3] == b[2] % 64
  {
  }

  lemma ShortGroups(b: seq<Byte>)
    requires |b| <= 2
    ensures |Sextets(b)| % 4 != 1 && Bytes(Sextets(b)) == b
  {
    if |b| == 1 {
      GroupRecovered(b[0], 0, 0);
    } else if |b| == 2 {
      GroupRecovered(b[0], b[1], 0);
    }
  }

  lemma {:induction false} BytesOfSextets(b: seq<Byte>)
    ensures |Sextets(b)| % 4 != 1 && Bytes(Sextets(b)) == b
    decreases |b|
  {
    if |b| <= 2 {
      ShortGroups(b);
    } else {
      SextetsLength(b);
      BytesOfSextets(b[3..]);
      LongSextets(b);
      LongBytes(Sextets(b));
      GroupRecovered(b[0], b[1], b[2]);
      hide Sextets;
      hide Bytes;
      hide FirstByte;
      hide SecondByte;
      hide ThirdByte;
      assert b == [b[0], b[1], b[2]] + b[3..];
    }
  }

  function UrlSymbols(q: seq<Sextet>): string {
    seq(|q|, i requires 0 <= i < |q| => ToUrlChar(Symbol(q[i])))
  }

  lemma StripOne(t: string)
    ensures StripEquals(t + "=") == StripEquals(t)
  {
    assert (t + "=")[..|t + "="| - 1] == t;
  }

  lemma StripNothing(s: string)
    requires s == "" || s[|s| - 1] != '='
    ensures StripEquals(s + "") == s
  {
    assert s + "" == s;
  }

  lemma {:induction false} StripTail(s: string, n: nat)
    requires s == "" || s[|s| - 1] != '='
    ensures StripEquals(s + Equals(n)) == s
    decreases n
  {
    hide StripEquals;
    ShortEquals();
    if n == 0 {
      StripNothing(s);
    } else {
      EqualsSnoc(n - 1);
      StripTail(s, n - 1);
      StripOne(s + Equals(n - 1));
      hide Equals;
      assert s + (Equals(n - 1) + "=") == (s + Equals(n - 1)) + "=";
    }
  }

  lemma {:induction false} EqualsSnoc(n: nat)
    ensures Equals(n + 1) == Equals(n) + "=" && |Equals(n)| == n
    ensures Map(Equals(n), ToUrlChar) == Equals(n)
    decreases n
  {
    if n > 0 {
      EqualsSnoc(n - 1);
      assert Equals(n) == "=" + Equals(n - 1);
      assert Map(Equals(n), ToUrlChar)[0] == '=';
      assert forall i | 0 < i < n :: Map(Equals(n), ToUrlChar)[i] == Map(Equals(n - 1), ToUrlChar)[i - 1];
    }
  }

  /** The encoding is the sextets in the URL alphabet and nothing else. */
  lemma EncodingIsSymbols(b: seq<Byte>)
    ensures ToBase64Url(b) == UrlSymbols(Sextets(b))
  {
    var q := Sextets(b);
    var n := Missing(|q|);
    EqualsSnoc(n);
    assert Map(Btoa(b), ToUrlChar) == UrlSymbols(q) + Map(Equals(n), ToUrlChar);
    if q != [] {
      SymbolValue(q[|q| - 1]);
    }
    StripTail(UrlSymbols(q), n);
  }

  /** The URL and filename safe alphabet of section 5 of RFC 4648, by character code. */
  function UrlCode(v: nat): nat {
    if v < 26 then 65 + v else if v < 52 then 71 + v else if v < 62 then v - 4 else if v == 62 then 45 else 95
  }

  lemma SymbolIsStandard(v: Sextet)
    ensures ToUrlChar(Symbol(v)) as int == UrlCode(v)
  {
  }

  /** Six bits of a byte string from an even position on, as a number; past its end there are zeros. */
  function SixBits(b: seq<Byte>, at: nat): nat
    requires at / 8 < |b|
  {
    var j, r := at / 8, at % 8;
    SixOf(b[j], if j + 1 < |b| then b[j + 1] else 0, r)
  }

  function SixOf(x: nat, y: nat, r: nat): nat {
    (x * 256 + y) / (if r == 0 then 1024 else if r == 2 then 256 else if r == 4 then 64 else 16) % 64
  }

  lemma SixOfByte(x: Byte, y: Byte)
    ensures SixOf(x, y, 0) == x / 4 && SixOf(x, y, 2) == x % 64
  {
  }

  lemma SixOfTwo(x: Byte, y: Byte)
    ensures SixOf(x, y, 4) == x % 16 * 4 + y / 64 && SixOf(x, y, 6) == x % 4 * 16 + y / 16
  {
    assert (x * 256 + y) / 64 == x * 4 + y / 64 && (x * 256 + y) / 16 == x * 16 + y / 16;
    LowBits(x / 16, x % 16 * 4 + y / 64);
    LowBits(x / 4, x % 4 * 16 + y / 16);
  }

  lemma LowBits(q: nat, low: nat)
    requires low < 64
    ensures (64 * q + low) % 64 == low
  {
  }

  lemma ShortSextets(b: seq<Byte>, i: nat)
    requires i < |Sextets(b)| && i < 4
    ensures 6 * i / 8 < |b| && Sextets(b)[i] == SixBits(b, 6 * i)
  {
    var j := 6 * i / 8;
    var next := if j + 1 < |b| then b[j + 1] else 0;
    assert j == (if i == 0 then 0 else i - 1) && 6 * i % 8 == (if i == 0 then 0 else 8 - 2 * i);
    assert j < |b|;
    SixOfByte(b[j], next);
    SixOfTwo(b[j], next);
    hide SixOf;
    if i == 0 {
    } else if i == 1 {
    } else if i == 2 {
    }
  }

  lemma {:induction false} SextetIsSixBits(b: seq<Byte>, i: nat)
    requires i < |Sextets(b)|
    ensures 6 * i / 8 < |b| && Sextets(b)[i] == SixBits(b, 6 * i)
    decreases |b|
  {
    if i < 4 {
      ShortSextets(b, i);
    } else {
      LongSextets(b);
      SextetIsSixBits(b[3..], i - 4);
      assert Sextets(b)[i] == Sextets(b[3..])[i - 4];
      assert 6 * i / 8 == 6 * (i - 4) / 8 + 3 && 6 * i % 8 == 6 * (i - 4) % 8;
    }
  }

  lemma {:induction false} SextetCount(b: seq<Byte>)
    ensures |Sextets(b)| == (8 * |b| + 5) / 6
    decreases |b|
  {
    if |b| > 2 {
      SextetCount(b[3..]);
    }
  }

  /** Character i of the text is the symbol for bits 6 i to 6 i + 5, and there are as many characters as
      it takes to spell all bits. */
  lemma EncodingSpellsTheBits(b: seq<Byte>, i: nat)
    ensures |ToBase64Url(b)| == (8 * |b| + 5) / 6
    ensures i < |ToBase64Url(b)| ==> 6 * i / 8 < |b| && ToBase64Url(b)[i] as int == UrlCode(SixBits(b, 6 * i))
  {
    EncodingIsSymbols(b);
    SextetCount(b);
    if i < |Sextets(b)| {
      SextetIsSixBits(b, i);
      SymbolIsStandard(Sextets(b)[i]);
    }
    hide ToBase64Url;
    hide Sextets;
    hide SixBits;
    hide UrlCode;
    hide Symbol;
  }

  lemma {:induction false} NoBlanks(s: string)
    requires forall i | 0 <= i < |s| :: !Blank(s[i])
    ensures WithoutBlanks(s) == s
    decreases |s|
  {
    if s != "" {
      NoBlanks(s[1..]);
      assert s == [s[0]] + s[1..];
    }
  }

  lemma ShortEquals()
    ensures Equals(0) == "" && Equals(1) == "=" && Equals(2) == "=="
  {
    assert Equals(1) == "=" + Equals(0);
    assert Equals(2) == "=" + Equals(1);
  }

  lemma DropsTwo(s: string)
    requires |s| % 4 == 2
    ensures WithoutPadding(s + "==") == s
  {
    var t := s + "==";
    assert |t| % 4 == 0 && t[|t| - 1] == '=' && t[|t| - 2] == '=';
    assert t[..|t| - 2] == s;
  }

  lemma DropsOne(s: string)
    requires |s| % 4 == 3 && s[|s| - 1] != '='
    ensures WithoutPadding(s + "=") == s
  {
    var t := s + "=";
    assert |t| % 4 == 0 && t[|t| - 1] == '=' && t[|t| - 2] == s[|s| - 1];
    assert t[..|t| - 1] == s;
  }

  lemma DropsNone(s: string)
    requires s != "" ==> s[|s| - 1] != '='
    ensures WithoutPadding(s + "") == s
  {
    assert s + "" == s;
  }

  lemma PaddingDropped(s: string)
    requires |s| % 4 != 1 && forall i | 0 <= i < |s| :: s[i] != '='
    ensures WithoutPadding(s + Equals(Missing(|s|))) == s
  {
    ShortEquals();
    hide Equals;
    hide WithoutPadding;
    if |s| % 4 == 2 {
      DropsTwo(s);
    } else if |s| % 4 == 3 {
      DropsOne(s);
    } else {
      DropsNone(s);
    }
  }

  lemma DecodesSymbols(q: seq<Sextet>)
    requires |q| % 4 != 1
    ensures Atob(Symbols(q) + Equals(Missing(|q|))) == Some(Bytes(q))
  {
    var n := Missing(|q|);
    var t := Symbols(q) + Equals(n);
    AllEquals(n);
    forall i | 0 <= i < |t|
      ensures !Blank(t[i])
    {
      if i < |q| {
        SymbolValue(q[i]);
      }
    }
    NoBlanks(t);
    forall i | 0 <= i < |q|
      ensures Symbols(q)[i] != '=' && InAlphabet(Symbols(q)[i]) && ValueOf(Symbols(q)[i]) == q[i]
    {
      SymbolValue(q[i]);
    }
    PaddingDropped(Symbols(q));
    assert seq(|q|, i requires 0 <= i < |q| => ValueOf(Symbols(q)[i])) == q;
  }

  lemma {:induction false} AllEquals(n: nat)
    ensures |Equals(n)| == n && forall i | 0 <= i < n :: Equals(n)[i] == '='
    decreases n
  {
    if n > 0 {
      AllEquals(n - 1);
    }
  }

  lemma DecodingInvertsEncoding(b: seq<Byte>)
    ensures FromBase64Url(ToBase64Url(b)) == Some(b)
  {
    EncodingIsSymbols(b);
    BytesOfSextets(b);
    var q := Sextets(b);
    forall i | 0 <= i < |q|
      ensures FromUrlChar(UrlSymbols(q)[i]) == Symbols(q)[i]
    {
      SymbolValue(q[i]);
    }
    assert Map(UrlSymbols(q), FromUrlChar) == Symbols(q);
    DecodesSymbols(q);
  }

  lemma EncodingLooksRight(b: seq<Byte>)
    requires b != []
    ensures LooksLikeBase64Url(ToBase64Url(b))
  {
    EncodingIsSymbols(b);
    SextetsLength(b);
    var q := Sextets(b);
    forall i | 0 <= i < |q|
      ensures UrlChar(UrlSymbols(q)[i])
    {
      SymbolValue(q[i]);
    }
  }

  /** Every non-empty byte string has exactly one accepted spelling, and nothing else is accepted. */
  lemma StrictIsExact(value: string, b: seq<Byte>)
    ensures FromBase64UrlStrict(value) == Some(b) <==> b != [] && value == ToBase64Url(b)
  {
    EncodingIsSymbols([]);
    if b != [] && value == ToBase64Url(b) {
      EncodingLooksRight(b);
      DecodingInvertsEncoding(b);
    }
  }

  lemma {:induction false} BlanksSplit(a: string, b: string)
    ensures WithoutBlanks(a + b) == WithoutBlanks(a) + WithoutBlanks(b)
    decreases |a|
  {
    if a == "" {
      assert a + b == b;
    } else {
      assert (a + b)[1..] == a[1..] + b;
      BlanksSplit(a[1..], b);
    }
  }

  lemma OneBetween(a: string, c: char, b: string)
    ensures WithoutBlanks(a + [c] + b) == WithoutBlanks(a) + (if Blank(c) then "" else [c]) + WithoutBlanks(b)
  {
    BlanksSplit(a + [c], b);
    BlanksSplit(a, [c]);
    assert [c][1..] == "";
    assert WithoutBlanks([c]) == (if Blank(c) then "" else [c]);
  }

  lemma PaddingSpares(t: string, k: nat)
    requires k < |t| && t[k] != '='
    ensures k < |WithoutPadding(t)| && WithoutPadding(t)[k] == t[k]
  {
  }

  /** `atob` passes over the five ASCII whitespace characters, wherever they stand, and throws on any
      other character that is neither a symbol nor padding. */
  lemma OnlyBlanksAreSkipped(a: string, c: char, b: string)
    ensures c as int in {9, 10, 12, 13, 32} ==> Atob(a + [c] + b) == Atob(a + b)
    ensures c as int !in {9, 10, 12, 13, 32, 61} && !UrlChar(c) && c != '+' && c != '/' ==> Atob(a + [c] + b).None?
  {
    OneBetween(a, c, b);
    BlanksSplit(a, b);
    hide WithoutBlanks;
    hide Bytes;
    hide ValueOf;
    if c as int in {9, 10, 12, 13, 32} {
      assert Blank(c);
      assert WithoutBlanks(a + [c] + b) == WithoutBlanks(a + b);
      hide WithoutPadding;
    } else if c as int != 61 && !UrlChar(c) && c != '+' && c != '/' {
      assert !Blank(c);
      var t, k := WithoutBlanks(a + [c] + b), |WithoutBlanks(a)|;
      assert t[k] == c;
      PaddingSpares(t, k);
      hide WithoutPadding;
      assert !InAlphabet(WithoutPadding(t)[k]);
    }
  }

  /** The plain decoder is more generous: it reads spellings that no encoder writes. */
  lemma PlainDecodingIsLoose()
    ensures FromBase64Url("QQ") == Some([65]) == FromBase64Url("QR")
    ensures FromBase64UrlStrict("QR") == None
  {
    DecodingInvertsEncoding([65]);
    EncodingIsSymbols([65]);
    assert UrlSymbols(Sextets([65])) == "QQ";
    var text := "QR";
    assert text[0] == 'Q' && text[1] == 'R' && |text| == 2;
    assert FromUrlChar(text[0]) == 'Q' && FromUrlChar(text[1]) == 'R';
    var mapped := Map(text, FromUrlChar);
    assert mapped[0] == FromUrlChar(text[0]) && mapped[1] == FromUrlChar(text[1]);
    assert mapped == text;
    assert Symbols([16, 17]) == "QR";
    DecodesSymbols([16, 17]);
    assert Bytes([16, 17]) == [65];
  }
}
