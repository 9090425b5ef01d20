/** Bytes, decimal numerals and UTF-8 as section 3 of RFC 3629 defines it. */
module Utf8 {
  import opened Common

  type Byte = b: int | 0 <= b < 256

  // ---------------------------------------------------------------- decimal numerals

  function Decimal(n: nat): seq<Byte> {
    if n < 10 then [48 + n] else Decimal(n / 10) + [48 + n % 10]
  }

  predicate IsDigit(b: Byte) { 48 <= b <= 57 }

  /** Reads digits until something else comes, going on from the value read so far. */
  function ReadDecimal(b: seq<Byte>, sofar: nat): (nat, seq<Byte>) {
    if b != [] && IsDigit(b[0]) then ReadDecimal(b[1..], 10 * sofar + (b[0] - 48)) else (sofar, b)
  }

  lemma {:induction false} DecimalIsRead(n: nat, rest: seq<Byte>)
    ensures ReadDecimal(Decimal(n) + rest, 0) == ReadDecimal(rest, n)
  {
    if n < 10 {
      assert (Decimal(n) + rest)[1..] == rest;
    } else {
      var d: Byte := 48 + n % 10;
      DecimalIsRead(n / 10, [d] + rest);
      assert Decimal(n) + rest == Decimal(n / 10) + ([d] + rest);
      assert ([d] + rest)[1..] == rest;
    }
  }

  lemma {:induction false} ReadRest(b: seq<Byte>, sofar: nat)
    ensures |ReadDecimal(b, sofar).1| <= |b|
    ensures b != [] && IsDigit(b[0]) ==> |ReadDecimal(b, sofar).1| < |b|
  {
    if b != [] && IsDigit(b[0]) { ReadRest(b[1..], 10 * sofar + (b[0] - 48)); }
  }

  // ---------------------------------------------------------------- one character

  function EncodeChar(c: char): (r: seq<Byte>)
    ensures 1 <= |r| <= 4
  {
    var n := c as int;
    if n < 0x80 then [n]
    else if n < 0x800 then [0xC0 + n / 64, 0x80 + n % 64]
    else if n < 0x10000 then [0xE0 + n / 4096, 0x80 + n / 64 % 64, 0x80 + n % 64]
    else [0xF0 + n / 262144, 0x80 + n / 4096 % 64, 0x80 + n / 64 % 64, 0x80 + n % 64]
  }

  predicate IsScalar(n: int) {
    0 <= n < 0xD800 || 0xE000 <= n < 0x110000
  }

  /** The number a leading byte and its followers spell, and how many bytes that takes. */
  function CodePoint(b: seq<Byte>): (int, nat)
    requires b != []
  {
    var x: int := b[0];
    if x < 0x80 then (x, 1)
    else if x < 0xE0 && |b| >= 2 then (64 * (x - 0xC0) + Tail(b[1]), 2)
    else if x < 0xF0 && |b| >= 3 then (4096 * (x - 0xE0) + 64 * Tail(b[1]) + Tail(b[2]), 3)
    else if |b| >= 4 then (262144 * (x - 0xF0) + 4096 * Tail(b[1]) + 64 * Tail(b[2]) + Tail(b[3]), 4)
    else (-1, 1)
  }

  function Tail(b: Byte): int { b - 0x80 }

  function DecodeChar(b: seq<Byte>): Option<(char, nat)> {
    if b == [] then None
    else
      var (n, k) := CodePoint(b);
      if IsScalar(n) && k <= |b| then Some((n as char, k)) else None
  }

  lemma CharRoundTrip(c: char, rest: seq<Byte>)
    ensures DecodeChar(EncodeChar(c) + rest) == Some((c, |EncodeChar(c)|))
  {
    var n := c as int;
    var b := EncodeChar(c) + rest;
    assert b[..|EncodeChar(c)|] == EncodeChar(c);
    if 0x800 <= n < 0x10000 {
      Base64(n);
    } else if n >= 0x10000 {
      Base64(n);
      Base64(n / 64);
    }
  }

  lemma Base64(n: nat)
    ensures n / 4096 == n / 64 / 64
    ensures n == 4096 * (n / 4096) + 64 * (n / 64 % 64) + n % 64
    ensures n / 262144 == n / 4096 / 64
  {
  }

  // ---------------------------------------------------------------- texts

  function Encode(s: string): seq<Byte> {
    if s == "" then [] else EncodeChar(s[0]) + Encode(s[1..])
  }

  function Decode(b: seq<Byte>): Option<string> {
    if b == [] then Some("")
    else
      match DecodeChar(b)
      case None => None
      case Some((c, k)) =>
        if k == 0 then None
        else
          match Decode(b[k..])
          case None => None
          case Some(s) => Some([c] + s)
  }

  lemma {:induction false} TextRoundTrip(s: string)
    ensures Decode(Encode(s)) == Some(s)
  {
    hide EncodeChar, DecodeChar;
    if s != "" {
      CharRoundTrip(s[0], Encode(s[1..]));
      TextRoundTrip(s[1..]);
      assert Encode(s)[|EncodeChar(s[0])|..] == Encode(s[1..]);
      assert s == [s[0]] + s[1..];
    }
  }

  // ---------------------------------------------------------------- order

  /** Lexicographic order of texts by code point. */
  predicate TextLess(s: string, t: string) {
    t != "" && (s == "" || s[0] < t[0] || (s[0] == t[0] && TextLess(s[1..], t[1..])))
  }

  /** Lexicographic order of byte strings. */
  predicate BytesLess(a: seq<Byte>, b: seq<Byte>) {
    b != [] && (a == [] || a[0] < b[0] || (a[0] == b[0] && BytesLess(a[1..], b[1..])))
  }

  /** A smaller byte after an equal start decides, whatever follows. */
  lemma {:induction false} DifferenceDecides(a: seq<Byte>, b: seq<Byte>, k: nat)
    requires k < |a| && k < |b| && a[..k] == b[..k] && a[k] < b[k]
    ensures BytesLess(a, b)
  {
    if k > 0 {
      assert a[0] == a[..k][0] && b[0] == b[..k][0];
      assert a[1..][..k - 1] == a[..k][1..] && b[1..][..k - 1] == b[..k][1..];
      DifferenceDecides(a[1..], b[1..], k - 1);
    }
  }

  lemma {:induction false} TextLessTotal(s: string, t: string)
    requires s != t
    ensures TextLess(s, t) || TextLess(t, s)
  {
    if s != "" && t != "" && s[0] == t[0] {
      assert s == [s[0]] + s[1..] && t == [t[0]] + t[1..];
      TextLessTotal(s[1..], t[1..]);
    }
  }

  lemma {:induction false} TextLessAsymmetric(s: string, t: string)
    requires TextLess(s, t)
    ensures !TextLess(t, s)
  {
    if s != "" && s[0] == t[0] { TextLessAsymmetric(s[1..], t[1..]); }
  }

  lemma {:induction false} TextLessTransitive(s: string, t: string, u: string)
    requires TextLess(s, t) && TextLess(t, u)
    ensures TextLess(s, u)
  {
    if s != "" && s[0] == t[0] && t[0] == u[0] { TextLessTransitive(s[1..], t[1..], u[1..]); }
  }

  /** Where the encodings of two characters first differ, the smaller character has the smaller byte. */
  lemma CharsDiffer(c: char, d: char) returns (k: nat)
    requires c < d
    ensures k < |EncodeChar(c)| && k < |EncodeChar(d)|
    ensures EncodeChar(c)[..k] == EncodeChar(d)[..k] && EncodeChar(c)[k] < EncodeChar(d)[k]
  {
    var a, b := EncodeChar(c), EncodeChar(d);
    if a[0] < b[0] { k := 0; }
    else if a[1] < b[1] { SameLead(c, d); k := 1; }
    else if a[2] < b[2] { SameLead(c, d); k := 2; }
    else { SameLead(c, d); k := 3; }
  }

  lemma SameLead(c: char, d: char)
    requires c < d && !(EncodeChar(c)[0] < EncodeChar(d)[0])
    ensures |EncodeChar(c)| == |EncodeChar(d)| > 1 && EncodeChar(c)[0] == EncodeChar(d)[0]
    ensures !(EncodeChar(c)[1] < EncodeChar(d)[1]) ==> |EncodeChar(c)| > 2 && EncodeChar(c)[1] == EncodeChar(d)[1]
    ensures |EncodeChar(c)| > 2 && EncodeChar(c)[1] == EncodeChar(d)[1] && !(EncodeChar(c)[2] < EncodeChar(d)[2]) ==>
              |EncodeChar(c)| > 3 && EncodeChar(c)[2] == EncodeChar(d)[2] && EncodeChar(c)[3] < EncodeChar(d)[3]
  {
    var n, m := c as int, d as int;
    Base64(n);
    Base64(m);
    Base64(n / 64);
    Base64(m / 64);
  }

  lemma {:induction false} SharedStart(p: seq<Byte>, a: seq<Byte>, b: seq<Byte>)
    ensures BytesLess(p + a, p + b) <==> BytesLess(a, b)
  {
    if p == [] {
      assert p + a == a && p + b == b;
    } else {
      SharedStart(p[1..], a, b);
      assert (p + a)[1..] == p[1..] + a && (p + b)[1..] == p[1..] + b;
    }
  }

  lemma {:induction false} BytesAsymmetric(a: seq<Byte>, b: seq<Byte>)
    requires BytesLess(a, b)
    ensures !BytesLess(b, a)
  {
    if a != [] && a[0] == b[0] { BytesAsymmetric(a[1..], b[1..]); }
  }

  lemma SmallerCharDecides(s: string, t: string)
    requires s != "" && t != "" && s[0] < t[0]
    ensures BytesLess(Encode(s), Encode(t))
  {
    var k := CharsDiffer(s[0], t[0]);
    assert Encode(s)[..k] == EncodeChar(s[0])[..k] && Encode(t)[..k] == EncodeChar(t[0])[..k];
    DifferenceDecides(Encode(s), Encode(t), k);
  }

  /** Sorting texts by code point and sorting their UTF-8 bytes is the same thing (section 1 of RFC 3629). */
  lemma {:induction false} OrdersAgree(s: string, t: string)
    ensures TextLess(s, t) <==> BytesLess(Encode(s), Encode(t))
  {
    if s != "" && t != "" {
      if s[0] < t[0] {
        SmallerCharDecides(s, t);
      } else if t[0] < s[0] {
        SmallerCharDecides(t, s);
        BytesAsymmetric(Encode(t), Encode(s));
      } else {
        OrdersAgree(s[1..], t[1..]);
        SharedStart(EncodeChar(s[0]), Encode(s[1..]), Encode(t[1..]));
      }
    }
  }
}
