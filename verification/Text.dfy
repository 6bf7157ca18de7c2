/** Text encodings used on the wire: decimal integers, UUIDs, and UTF-8. */
module Text {
  import opened Wrappers

  type Byte = b: int | 0 <= b < 256

  // ---------------------------------------------------------------- decimal

  function Digit(d: nat): (c: char)
    requires d < 10
    ensures c == "0123456789"[d]
  {
    ('0' as int + d) as char
  }

  predicate IsDigit(c: char) { '0' <= c <= '9' }

  function DigitValue(c: char): (d: nat)
    requires IsDigit(c)
    ensures d < 10 && "0123456789"[d] == c
  {
    c as int - '0' as int
  }

  function DecimalNat(n: nat): (s: string)
    ensures s != [] && forall i :: 0 <= i < |s| ==> IsDigit(s[i])
  {
    if n < 10 then [Digit(n)] else DecimalNat(n / 10) + [Digit(n % 10)]
  }

  /** Python's `str` of an int. */
  function Decimal(n: int): string {
    if n < 0 then "-" + DecimalNat(-n) else DecimalNat(n)
  }

  function ParseNat(s: string): Option<nat> {
    if s == [] || !IsDigit(s[|s| - 1]) then None
    else if |s| == 1 then Some(DigitValue(s[0]))
    else match ParseNat(s[..|s| - 1])
         case None => None
         case Some(v) => Some(v * 10 + DigitValue(s[|s| - 1]))
  }

  /** Python's `int` of a string, on optionally signed digits; anything else is refused. */
  function ParseInt(s: string): Option<int> {
    if s == [] then None
    else if s[0] == '-' || s[0] == '+' then
      match ParseNat(s[1..])
      case None => None
      case Some(v) => Some(if s[0] == '-' then 0 - v as int else v as int)
    else
      match ParseNat(s)
      case None => None
      case Some(v) => Some(v as int)
  }

  lemma {:induction false} NatRoundTrip(n: nat)
    ensures ParseNat(DecimalNat(n)) == Some(n)
  {
    if n >= 10 {
      NatRoundTrip(n / 10);
      assert DecimalNat(n)[..|DecimalNat(n)| - 1] == DecimalNat(n / 10);
    }
  }

  lemma IntRoundTrip(n: int)
    ensures ParseInt(Decimal(n)) == Some(n)
  {
    var digits := DecimalNat(if n < 0 then -n else n);
    NatRoundTrip(if n < 0 then -n else n);
    assert IsDigit(digits[0]);
    if n < 0 { assert ("-" + digits)[1..] == digits; }
  }

  /** A decimal text is read digit by digit, in base ten. */
  lemma ParseNatAppend(s: string, d: nat)
    requires s != [] && ParseNat(s).Some? && d < 10
    ensures ParseNat(s + [Digit(d)]) == Some(ParseNat(s).value * 10 + d)
  {
    assert (s + [Digit(d)])[..|s|] == s;
  }

  lemma {:induction false} NoLeadingZero(n: nat)
    ensures n > 0 ==> DecimalNat(n)[0] != '0'
    ensures n == 0 ==> DecimalNat(n) == "0"
  {
    if n >= 10 { NoLeadingZero(n / 10); }
  }

  /** The canonical text: a minus sign for negative numbers only, then digits without a leading zero. */
  lemma DecimalForm(n: int)
    ensures var s := Decimal(n);
            && s != "" && (s[0] == '-' <==> n < 0)
            && var digits := if n < 0 then s[1..] else s;
               && digits != "" && (forall i :: 0 <= i < |digits| ==> '0' <= digits[i] <= '9')
               && (digits[0] == '0' ==> digits == "0" && n == 0)
  {
    var digits := DecimalNat(if n < 0 then -n else n);
    NoLeadingZero(if n < 0 then -n else n);
    assert IsDigit(digits[0]);
    if n < 0 { assert ("-" + digits)[1..] == digits; }
  }

  // ------------------------------------------------------------------- UUID

  function Pow16(n: nat): (p: nat)
    ensures p >= 1
  {
    if n == 0 then 1 else 16 * Pow16(n - 1)
  }

  function HexDigit(d: nat): (c: char)
    requires d < 16
    ensures c != '-' && HexValue(c) == Some(d) && c == "0123456789abcdef"[d]
  {
    if d < 10 then ('0' as int + d) as char else ('a' as int + d - 10) as char
  }

  function HexValue(c: char): Option<nat> {
    if '0' <= c <= '9' then Some(c as int - '0' as int)
    else if 'a' <= c <= 'f' then Some(c as int - 'a' as int + 10)
    else if 'A' <= c <= 'F' then Some(c as int - 'A' as int + 10)
    else None
  }

  /** The low `n` hexadecimal digits of `u`, most significant first. */
  function HexText(u: nat, n: nat): (s: string)
    ensures |s| == n && forall i :: 0 <= i < n ==> s[i] != '-'
    decreases n
  {
    if n == 0 then "" else HexText(u / 16, n - 1) + [HexDigit(u % 16)]
  }

  function ParseHex(s: string): Option<nat> {
    if s == [] then Some(0)
    else match (ParseHex(s[..|s| - 1]), HexValue(s[|s| - 1]))
         case (Some(v), Some(d)) => Some(v * 16 + d)
         case _ => None
  }

  lemma {:induction false} HexRoundTrip(u: nat, n: nat)
    requires u < Pow16(n)
    ensures ParseHex(HexText(u, n)) == Some(u)
    decreases n
  {
    if n > 0 {
      HexRoundTrip(u / 16, n - 1);
      assert HexText(u, n)[..n - 1] == HexText(u / 16, n - 1);
    }
  }

  /** The canonical form: 8-4-4-4-12 lower-case hexadecimal digits. */
  function UuidText(u: nat): string {
    var h := HexText(u, 32);
    h[..8] + "-" + h[8..12] + "-" + h[12..16] + "-" + h[16..20] + "-" + h[20..]
  }

  predicate IsLowerHex(c: char) { '0' <= c <= '9' || 'a' <= c <= 'f' }

  lemma {:induction false} HexTextIsLower(u: nat, n: nat)
    ensures forall i :: 0 <= i < n ==> IsLowerHex(HexText(u, n)[i])
    decreases n
  {
    if n > 0 { HexTextIsLower(u / 16, n - 1); }
  }

  /** A hexadecimal text is read digit by digit, in base sixteen. */
  lemma ParseHexAppend(s: string, d: nat)
    requires ParseHex(s).Some? && d < 16
    ensures ParseHex(s + [HexDigit(d)]) == Some(ParseHex(s).value * 16 + d)
  {
    assert (s + [HexDigit(d)])[..|s|] == s;
  }

  /** 36 characters: hyphens at 8, 13, 18 and 23, and around them the 32 lower-case digits in order. */
  lemma UuidForm(u: nat)
    ensures var t := UuidText(u);
            && |t| == 36 && t[8] == '-' && t[13] == '-' && t[18] == '-' && t[23] == '-'
            && t[..8] + t[9..13] + t[14..18] + t[19..23] + t[24..] == HexText(u, 32)
    ensures forall i :: 0 <= i < 32 ==> IsLowerHex(HexText(u, 32)[i])
  {
    var h := HexText(u, 32);
    HexTextIsLower(u, 32);
    Grouped(h[..8], h[8..12], h[12..16], h[16..20], h[20..]);
    Regroup(h);
  }

  lemma Regroup(h: string)
    requires |h| == 32
    ensures h[..8] + h[8..12] + h[12..16] + h[16..20] + h[20..] == h
  {
  }

  lemma Grouped(a: string, b: string, c: string, d: string, e: string)
    requires |a| == 8 && |b| == |c| == |d| == 4
    ensures var t := a + "-" + b + "-" + c + "-" + d + "-" + e;
            && t[8] == '-' && t[13] == '-' && t[18] == '-' && t[23] == '-'
            && t[..8] == a && t[9..13] == b && t[14..18] == c && t[19..23] == d && t[24..] == e
  {
  }

  function DropHyphens(s: string): string {
    if s == [] then [] else if s[0] == '-' then DropHyphens(s[1..]) else [s[0]] + DropHyphens(s[1..])
  }

  /** Python's `UUID` of a string: hyphens are ignored, 32 hexadecimal digits must remain. */
  function ParseUuid(s: string): Option<nat> {
    var h := DropHyphens(s);
    if |h| == 32 then ParseHex(h) else None
  }

  lemma {:induction false} DropHyphensConcat(a: string, b: string)
    ensures DropHyphens(a + b) == DropHyphens(a) + DropHyphens(b)
  {
    if a == [] {
      assert a + b == b;
    } else {
      assert (a + b)[1..] == a[1..] + b;
      DropHyphensConcat(a[1..], b);
    }
  }

  lemma {:induction false} DropHyphensNone(s: string)
    requires forall i :: 0 <= i < |s| ==> s[i] != '-'
    ensures DropHyphens(s) == s
  {
    if s != [] { DropHyphensNone(s[1..]); }
  }

  /** One group and its hyphen, in front of the rest. */
  lemma DropGroup(a: string, b: string)
    requires forall i :: 0 <= i < |a| ==> a[i] != '-'
    ensures DropHyphens(a + "-" + b) == a + DropHyphens(b)
  {
    assert a + "-" + b == a + ("-" + b);
    DropHyphensConcat(a, "-" + b);
    assert ("-" + b)[1..] == b;
    DropHyphensNone(a);
  }

  lemma GroupsJoin(h: string)
    requires |h| == 32
    ensures h[..8] + (h[8..12] + (h[12..16] + (h[16..20] + h[20..]))) == h
  {
  }

  lemma DropUuidHyphens(u: nat)
    ensures DropHyphens(UuidText(u)) == HexText(u, 32)
  {
    var h := HexText(u, 32);
    var e := h[20..];
    var d := h[16..20] + "-" + e;
    var c := h[12..16] + "-" + d;
    var b := h[8..12] + "-" + c;
    var a := h[..8] + "-" + b;
    UuidGroups(h);
    DropHyphensNone(e);
    DropGroup(h[16..20], e);
    DropGroup(h[12..16], d);
    DropGroup(h[8..12], c);
    DropGroup(h[..8], b);
    GroupsJoin(h);
  }

  lemma UuidGroups(h: string)
    requires |h| == 32
    ensures h[..8] + "-" + h[8..12] + "-" + h[12..16] + "-" + h[16..20] + "-" + h[20..]
         == h[..8] + "-" + (h[8..12] + "-" + (h[12..16] + "-" + (h[16..20] + "-" + h[20..])))
  {
  }

  lemma UuidRoundTrip(u: nat)
    requires u < Pow16(32)
    ensures ParseUuid(UuidText(u)) == Some(u)
  {
    DropUuidHyphens(u);
    HexRoundTrip(u, 32);
  }

  // ------------------------------------------------------------------ UTF-8

  predicate Continuation(b: Byte) { 0x80 <= b < 0xc0 }

  function EncodeChar(c: char): seq<Byte> {
    var n := c as int;
    if n < 0x80 then [n]
    else if n < 0x800 then [0xc0 + n / 0x40, 0x80 + n % 0x40]
    else if n < 0x10000 then [0xe0 + n / 0x1000, 0x80 + n / 0x40 % 0x40, 0x80 + n % 0x40]
    else [0xf0 + n / 0x40000, 0x80 + n / 0x1000 % 0x40, 0x80 + n / 0x40 % 0x40, 0x80 + n % 0x40]
  }

  /** One character of each length. */
  lemma EncodeForm()
    ensures EncodeChar('A') == [0x41] && EncodeChar('\U{00e9}') == [0xc3, 0xa9]
    ensures EncodeChar('\U{20ac}') == [0xe2, 0x82, 0xac] && EncodeChar('\U{10348}') == [0xf0, 0x90, 0x8d, 0x88]
  {
  }

  function Encode(s: string): seq<Byte> {
    if s == [] then [] else EncodeChar(s[0]) + Encode(s[1..])
  }

  predicate IsScalar(n: int) { 0 <= n < 0xd800 || 0xe000 <= n < 0x110000 }

  /** The code point at the front of the bytes and how many bytes it takes; overlong and surrogate forms are refused. */
  function DecodeFirst(bs: seq<Byte>): (r: Option<(char, nat)>)
    requires bs != []
    ensures r.Some? ==> 1 <= r.value.1 <= |bs|
  {
    var b: int := bs[0];
    if b < 0x80 then Some((b as char, 1))
    else if 0xc0 <= b < 0xe0 && |bs| >= 2 && Continuation(bs[1]) then
      var n: int := (b - 0xc0) * 0x40 + Low(bs[1]);
      if n >= 0x80 then Some((n as char, 2)) else None
    else if 0xe0 <= b < 0xf0 && |bs| >= 3 && Continuation(bs[1]) && Continuation(bs[2]) then
      var n: int := (b - 0xe0) * 0x1000 + Low(bs[1]) * 0x40 + Low(bs[2]);
      if n >= 0x800 && IsScalar(n) then Some((n as char, 3)) else None
    else if 0xf0 <= b < 0xf8 && |bs| >= 4 && Continuation(bs[1]) && Continuation(bs[2]) && Continuation(bs[3]) then
      var n: int := (b - 0xf0) * 0x40000 + Low(bs[1]) * 0x1000 + Low(bs[2]) * 0x40 + Low(bs[3]);
      if n >= 0x10000 && IsScalar(n) then Some((n as char, 4)) else None
    else None
  }

  /** The six payload bits of a continuation byte. */
  function Low(b: Byte): (n: int)
    requires Continuation(b)
    ensures 0 <= n < 0x40
  {
    b - 0x80
  }

  function Decode(bs: seq<Byte>): Option<string>
    decreases |bs|
  {
    if bs == [] then Some("")
    else match DecodeFirst(bs)
         case None => None
         case Some((c, k)) =>
           match Decode(bs[k..])
           case None => None
           case Some(rest) => Some([c] + rest)
  }

  lemma Digits64(n: nat)
    ensures n == n / 0x40 * 0x40 + n % 0x40
    ensures n / 0x40 == n / 0x1000 * 0x40 + n / 0x40 % 0x40
    ensures n / 0x1000 == n / 0x40000 * 0x40 + n / 0x1000 % 0x40
  {
  }

  lemma FirstOfTwo(c: char, bs: seq<Byte>)
    requires 0x80 <= c as int < 0x800 && EncodeChar(c) <= bs
    ensures DecodeFirst(bs) == Some((c, 2))
  {
    Digits64(c as int);
    assert bs[0] == EncodeChar(c)[0] && bs[1] == EncodeChar(c)[1];
  }

  lemma FirstOfThree(c: char, bs: seq<Byte>)
    requires 0x800 <= c as int < 0x10000 && EncodeChar(c) <= bs
    ensures DecodeFirst(bs) == Some((c, 3))
  {
    Digits64(c as int);
    assert bs[0] == EncodeChar(c)[0] && bs[1] == EncodeChar(c)[1] && bs[2] == EncodeChar(c)[2];
  }

  lemma FirstOfFour(c: char, bs: seq<Byte>)
    requires 0x10000 <= c as int && EncodeChar(c) <= bs
    ensures DecodeFirst(bs) == Some((c, 4))
  {
    Digits64(c as int);
    assert bs[0] == EncodeChar(c)[0] && bs[1] == EncodeChar(c)[1] && bs[2] == EncodeChar(c)[2]
           && bs[3] == EncodeChar(c)[3];
  }

  lemma FirstRoundTrip(c: char, rest: seq<Byte>)
    ensures DecodeFirst(EncodeChar(c) + rest) == Some((c, |EncodeChar(c)|))
  {
    var n, bs := c as int, EncodeChar(c) + rest;
    if 0x80 <= n < 0x800 {
      FirstOfTwo(c, bs);
    } else if 0x800 <= n < 0x10000 {
      FirstOfThree(c, bs);
    } else if 0x10000 <= n {
      FirstOfFour(c, bs);
    }
  }

  lemma DecodeStep(c: char, rest: seq<Byte>)
    ensures Decode(EncodeChar(c) + rest) == match Decode(rest) case None => None case Some(s) => Some([c] + s)
  {
    FirstRoundTrip(c, rest);
    assert (EncodeChar(c) + rest)[|EncodeChar(c)|..] == rest;
  }

  lemma {:induction false} Utf8RoundTrip(s: string)
    ensures Decode(Encode(s)) == Some(s)
  {
    if s != [] {
      Utf8RoundTrip(s[1..]);
      DecodeStep(s[0], Encode(s[1..]));
      assert [s[0]] + s[1..] == s;
    }
  }
}
