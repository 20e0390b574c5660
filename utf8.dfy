/** UTF-8, as `str.encode()` and `bytes.decode()` apply it (RFC 3629): a
    string of Unicode scalar values becomes bytes and back. */
module Utf8 {
  import opened Wrappers

  newtype byte = x: int | 0 <= x < 256

  /** The bytes of one character: one to four, by the size of its code point. */
  function EncodeChar(c: char): (r: seq<byte>)
    ensures 1 <= |r| <= 4
    ensures |r| == 1 <==> (c as int) < 0x80
  {
    var n := c as int;
    if n < 0x80 then [n as byte]
    else if n < 0x800 then [(0xC0 + n / 64) as byte, (0x80 + n % 64) as byte]
    else if n < 0x10000 then [(0xE0 + n / 4096) as byte, (0x80 + n / 64 % 64) as byte, (0x80 + n % 64) as byte]
    else [(0xF0 + n / 262144) as byte, (0x80 + n / 4096 % 64) as byte, (0x80 + n / 64 % 64) as byte, (0x80 + n % 64) as byte]
  }

  /** `s.encode()`. */
  function Encode(s: string): (r: seq<byte>)
    ensures |r| >= |s|
  {
    if s == [] then [] else EncodeChar(s[0]) + Encode(s[1..])
  }

  /** Whether `b` is a continuation byte within `lo..hi`. */
  predicate InRange(b: byte, lo: int, hi: int) {
    lo <= b as int <= hi
  }

  /** The first character of `b` and the number of bytes it takes, when `b`
      starts with a well-formed sequence (no overlong form, no surrogate,
      nothing above U+10FFFF). */
  function DecodeChar(b: seq<byte>): (r: Option<(char, nat)>)
    requires b != []
    ensures r.Some? ==> 1 <= r.value.1 <= |b| && r.value.1 <= 4
  {
    var b0 := b[0] as int;
    if b0 < 0x80 then Some((b0 as char, 1))
    else if 0xC2 <= b0 <= 0xDF then
      if |b| >= 2 && InRange(b[1], 0x80, 0xBF) then
        Some((((b0 - 0xC0) * 64 + (b[1] as int - 0x80)) as char, 2))
      else None
    else if 0xE0 <= b0 <= 0xEF then
      var lo := if b0 == 0xE0 then 0xA0 else 0x80;
      var hi := if b0 == 0xED then 0x9F else 0xBF;
      if |b| >= 3 && InRange(b[1], lo, hi) && InRange(b[2], 0x80, 0xBF) then
        Some((((b0 - 0xE0) * 4096 + (b[1] as int - 0x80) * 64 + (b[2] as int - 0x80)) as char, 3))
      else None
    else if 0xF0 <= b0 <= 0xF4 then
      var lo := if b0 == 0xF0 then 0x90 else 0x80;
      var hi := if b0 == 0xF4 then 0x8F else 0xBF;
      if |b| >= 4 && InRange(b[1], lo, hi) && InRange(b[2], 0x80, 0xBF) && InRange(b[3], 0x80, 0xBF) then
        Some((((b0 - 0xF0) * 262144 + (b[1] as int - 0x80) * 4096 + (b[2] as int - 0x80) * 64 + (b[3] as int - 0x80)) as char, 4))
      else None
    else None
  }

  /** `b.decode()`: None where Python raises `UnicodeDecodeError`. */
  function Decode(b: seq<byte>): (r: Option<string>)
    decreases |b|
  {
    if b == [] then Some([])
    else
      match DecodeChar(b)
      case None => None
      case Some((c, k)) =>
        match Decode(b[k..])
        case None => None
        case Some(rest) => Some([c] + rest)
  }

  lemma DecodeTwo(n: int, b: seq<byte>)
    requires 0x80 <= n < 0x800 && |b| >= 2
    requires b[0] as int == 0xC0 + n / 64 && b[1] as int == 0x80 + n % 64
    ensures DecodeChar(b) == Some((n as char, 2))
  {
  }

  lemma DecodeThree(n: int, b: seq<byte>)
    requires 0x800 <= n < 0x10000 && !(0xD800 <= n < 0xE000) && |b| >= 3
    requires b[0] as int == 0xE0 + n / 4096 && b[1] as int == 0x80 + n / 64 % 64 && b[2] as int == 0x80 + n % 64
    ensures DecodeChar(b) == Some((n as char, 3))
  {
    var q, m, l := n / 4096, n / 64 % 64, n % 64;
    assert n / 64 == q * 64 + m;
    assert n == q * 4096 + m * 64 + l;
  }

  lemma DecodeFour(n: int, b: seq<byte>)
    requires 0x10000 <= n < 0x110000 && |b| >= 4
    requires b[0] as int == 0xF0 + n / 262144 && b[1] as int == 0x80 + n / 4096 % 64
    requires b[2] as int == 0x80 + n / 64 % 64 && b[3] as int == 0x80 + n % 64
    ensures DecodeChar(b) == Some((n as char, 4))
  {
    var p, q, m, l := n / 262144, n / 4096 % 64, n / 64 % 64, n % 64;
    assert n / 4096 == p * 64 + q;
    assert n / 64 == (n / 4096) * 64 + m;
    assert n == p * 262144 + q * 4096 + m * 64 + l;
  }

  /** The bytes of one character decode back to that character. */
  lemma DecodeEncodeChar(c: char, rest: seq<byte>)
    ensures DecodeChar(EncodeChar(c) + rest) == Some((c, |EncodeChar(c)|))
  {
    var n := c as int;
    var b := EncodeChar(c) + rest;
    if n < 0x80 {
    } else if n < 0x800 {
      DecodeTwo(n, b);
    } else if n < 0x10000 {
      DecodeThree(n, b);
    } else {
      DecodeFour(n, b);
    }
  }

  /** Decoding undoes encoding: `s.encode().decode() == s`. */
  lemma {:induction false} DecodeEncode(s: string)
    ensures Decode(Encode(s)) == Some(s)
  {
    if s != [] {
      var head := EncodeChar(s[0]);
      var rest := Encode(s[1..]);
      DecodeEncodeChar(s[0], rest);
      assert (head + rest)[|head|..] == rest;
      DecodeEncode(s[1..]);
      assert [s[0]] + s[1..] == s;
    }
  }

  /** A string of ASCII characters encodes to one byte per character, each
      the character's code. */
  lemma {:induction false} EncodeAscii(s: string)
    requires forall i :: 0 <= i < |s| ==> (s[i] as int) < 0x80
    ensures |Encode(s)| == |s|
    ensures forall i :: 0 <= i < |s| ==> Encode(s)[i] as int == s[i] as int
  {
    if s != [] {
      EncodeAscii(s[1..]);
      assert forall i :: 1 <= i < |s| ==> Encode(s)[i] == Encode(s[1..])[i - 1];
    }
  }

  /** Encoding is character by character. */
  lemma {:induction false} EncodeAppend(x: string, y: string)
    ensures Encode(x + y) == Encode(x) + Encode(y)
  {
    if x != [] {
      assert (x + y)[1..] == x[1..] + y;
      EncodeAppend(x[1..], y);
    } else {
      assert x + y == y;
    }
  }
}
