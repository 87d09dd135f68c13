/** UTF-8, as Python's `str.encode('utf-8')` and strict `bytes.decode('utf-8')`
    use it. Dafny's `char` is a Unicode scalar value, so every string has an
    encoding, and the strict decoder rejects overlong forms, surrogates and
    code points above U+10FFFF as Python does. */
module Utf8 {
  import opened Common

  type Byte = b: int | 0 <= b < 256

  predicate IsContinuation(b: Byte) { 0x80 <= b < 0xC0 }

  /** The encoding of one scalar value, 1 to 4 bytes. */
  function EncodeChar(c: char): (r: seq<Byte>)
    ensures 1 <= |r| <= 4
    ensures |r| == 1 <==> c as int < 0x80
    ensures |r| == 1 ==> r[0] == c as int
  {
    var cp := c as int;
    if cp < 0x80 then [cp]
    else if cp < 0x800 then [0xC0 + cp / 64, 0x80 + cp % 64]
    else if cp < 0x10000 then [0xE0 + cp / 4096, 0x80 + (cp / 64) % 64, 0x80 + cp % 64]
    else [0xF0 + cp / 262144, 0x80 + (cp / 4096) % 64, 0x80 + (cp / 64) % 64, 0x80 + cp % 64]
  }

  /** `s.encode('utf-8')`. */
  function Encode(s: string): seq<Byte> {
    if s == [] then [] else EncodeChar(s[0]) + Encode(s[1..])
  }

  /** Decodes the first scalar value of `bs`, with the number of bytes it
      used; `None` when those bytes are not well-formed UTF-8. */
  function DecodeFirst(bs: seq<Byte>): (r: Option<(char, nat)>)
    requires |bs| > 0
    ensures r.Some? ==> 1 <= r.value.1 <= |bs|
  {
    var b0: int := bs[0];
    if b0 < 0x80 then Some((b0 as char, 1))
    else if 0xC2 <= b0 <= 0xDF then
      if |bs| >= 2 && IsContinuation(bs[1]) then
        var b1: int := bs[1];
        Some((((b0 - 0xC0) * 64 + (b1 - 0x80)) as char, 2))
      else None
    else if 0xE0 <= b0 <= 0xEF then
      if |bs| >= 3 && IsContinuation(bs[1]) && IsContinuation(bs[2]) then
        var b1: int, b2: int := bs[1], bs[2];
        var cp := (b0 - 0xE0) * 4096 + (b1 - 0x80) * 64 + (b2 - 0x80);
        if 0x800 <= cp && !(0xD800 <= cp < 0xE000) then Some((cp as char, 3)) else None
      else None
    else if 0xF0 <= b0 <= 0xF4 then
      if |bs| >= 4 && IsContinuation(bs[1]) && IsContinuation(bs[2]) && IsContinuation(bs[3]) then
        var b1: int, b2: int, b3: int := bs[1], bs[2], bs[3];
        var cp := (b0 - 0xF0) * 262144 + (b1 - 0x80) * 4096 + (b2 - 0x80) * 64 + (b3 - 0x80);
        if 0x10000 <= cp < 0x110000 then Some((cp as char, 4)) else None
      else None
    else None
  }

  /** Strict `bs.decode('utf-8')`: `None` stands for `UnicodeDecodeError`. */
  function Decode(bs: seq<Byte>): Option<string>
    decreases |bs|
  {
    if bs == [] then Some([])
    else match DecodeFirst(bs)
      case None => None
      case Some((c, n)) =>
        match Decode(bs[n..])
        case None => None
        case Some(t) => Some([c] + t)
  }

  lemma DecodeFirstOfEncodeChar(c: char, rest: seq<Byte>)
    ensures DecodeFirst(EncodeChar(c) + rest) == Some((c, |EncodeChar(c)|))
  {
    var cp := c as int;
    if cp < 0x80 {
    } else if cp < 0x800 {
      TwoByteForm(c, rest);
    } else if cp < 0x10000 {
      ThreeByteForm(c, rest);
    } else {
      FourByteForm(c, rest);
    }
  }

  lemma TwoByteForm(c: char, rest: seq<Byte>)
    requires 0x80 <= c as int < 0x800
    ensures DecodeFirst(EncodeChar(c) + rest) == Some((c, 2))
  {
    var cp := c as int;
    var hi, lo := cp / 64, cp % 64;
    assert cp == hi * 64 + lo && 2 <= hi < 32 && 0 <= lo < 64;
    var bs := EncodeChar(c) + rest;
    assert bs[0] == 0xC0 + hi && bs[1] == 0x80 + lo;
  }

  lemma ThreeByteForm(c: char, rest: seq<Byte>)
    requires 0x800 <= c as int < 0x10000
    ensures DecodeFirst(EncodeChar(c) + rest) == Some((c, 3))
  {
    var cp := c as int;
    var q, lo := cp / 64, cp % 64;
    var hi, mid := q / 64, q % 64;
    assert cp == q * 64 + lo && q == hi * 64 + mid;
    assert hi == cp / 4096;
    assert cp == hi * 4096 + mid * 64 + lo;
    var bs := EncodeChar(c) + rest;
    assert bs[0] == 0xE0 + hi && bs[1] == 0x80 + mid && bs[2] == 0x80 + lo;
  }

  lemma FourByteForm(c: char, rest: seq<Byte>)
    requires 0x10000 <= c as int
    ensures DecodeFirst(EncodeChar(c) + rest) == Some((c, 4))
  {
    var cp := c as int;
    var q1, b := cp / 64, cp % 64;
    var q2, a := q1 / 64, q1 % 64;
    var hi, m := q2 / 64, q2 % 64;
    assert cp == q1 * 64 + b && q1 == q2 * 64 + a && q2 == hi * 64 + m;
    assert q2 == cp / 4096 && hi == cp / 262144;
    assert cp == hi * 262144 + m * 4096 + a * 64 + b;
    var bs := EncodeChar(c) + rest;
    assert bs[0] == 0xF0 + hi && bs[1] == 0x80 + m && bs[2] == 0x80 + a && bs[3] == 0x80 + b;
  }

  /** Decoding the encoding of a string followed by more bytes splits off
      exactly that string. */
  lemma {:induction false} DecodeEncodeAppend(s: string, rest: seq<Byte>)
    ensures Decode(Encode(s) + rest) == match Decode(rest) case None => None case Some(t) => Some(s + t)
  {
    if s != [] {
      var e := EncodeChar(s[0]);
      assert Encode(s) + rest == e + (Encode(s[1..]) + rest);
      DecodeFirstOfEncodeChar(s[0], Encode(s[1..]) + rest);
      assert (e + (Encode(s[1..]) + rest))[|e|..] == Encode(s[1..]) + rest;
      DecodeEncodeAppend(s[1..], rest);
      assert [s[0]] + s[1..] == s;
      match Decode(rest)
      case None =>
      case Some(t) => assert [s[0]] + (s[1..] + t) == s + t;
    } else {
      assert Encode(s) + rest == rest;
      match Decode(rest)
      case None =>
      case Some(t) => assert s + t == t;
    }
  }

  /** The round trip `s.encode('utf-8').decode('utf-8') == s`. */
  lemma DecodeEncode(s: string)
    ensures Decode(Encode(s)) == Some(s)
  {
    DecodeEncodeAppend(s, []);
    assert Encode(s) + [] == Encode(s);
    assert s + [] == s;
  }

  lemma {:induction false} EncodeConcat(a: string, b: string)
    ensures Encode(a + b) == Encode(a) + Encode(b)
  {
    if a != [] {
      assert (a + b)[0] == a[0] && (a + b)[1..] == a[1..] + b;
      EncodeConcat(a[1..], b);
    } else {
      assert a + b == b;
    }
  }

  predicate IsAscii(s: string) { forall i :: 0 <= i < |s| ==> s[i] as int < 0x80 }

  /** An ASCII string encodes to one byte per character, each its code. */
  lemma {:induction false} EncodeAscii(s: string)
    requires IsAscii(s)
    ensures |Encode(s)| == |s|
    ensures forall i :: 0 <= i < |s| ==> Encode(s)[i] == s[i] as int
  {
    if s != [] {
      assert IsAscii(s[1..]) by {
        forall i | 0 <= i < |s[1..]| ensures s[1..][i] as int < 0x80 { assert s[1..][i] == s[i + 1]; }
      }
      EncodeAscii(s[1..]);
    }
  }
}
