/** The base64 codec of Python's `base64` module as the path-id codec uses
    it: `urlsafe_b64encode` (RFC 4648, section 5 alphabet, with padding) and
    `urlsafe_b64decode`, which maps `-` and `_` to `+` and `/` and then runs
    the lenient decoder of `binascii.a2b_base64`. */
module Base64 {
  import opened Wrappers
  import opened Utf8

  /** The character for a 6-bit value in the URL and filename safe alphabet. */
  function UrlSafeChar(v: int): (c: char)
    requires 0 <= v < 64
    ensures IsUrlSafe(c)
  {
    if v < 26 then ('A' as int + v) as char
    else if v < 52 then ('a' as int + v - 26) as char
    else if v < 62 then ('0' as int + v - 52) as char
    else if v == 62 then '-'
    else '_'
  }

  /** The characters of the URL and filename safe alphabet. */
  predicate IsUrlSafe(c: char) {
    ('A' <= c <= 'Z') || ('a' <= c <= 'z') || ('0' <= c <= '9') || c == '-' || c == '_'
  }

  /** The four characters for three bytes `a`, `b`, `c`: each carries six bits. */
  function Quad(a: int, b: int, c: int): (r: string)
    requires 0 <= a < 256 && 0 <= b < 256 && 0 <= c < 256
  {
    [UrlSafeChar(a / 4), UrlSafeChar(a % 4 * 16 + b / 16), UrlSafeChar(b % 16 * 4 + c / 64), UrlSafeChar(c % 64)]
  }

  /** `base64.urlsafe_b64encode`: three bytes become four characters; a last
      group of one or two bytes becomes two or three characters and `=`
      padding up to four. */
  function UrlSafeB64Encode(data: seq<byte>): string
    decreases |data|
  {
    if |data| == 0 then ""
    else if |data| == 1 then
      var a := data[0] as int;
      [UrlSafeChar(a / 4), UrlSafeChar(a % 4 * 16)] + "=="
    else if |data| == 2 then
      var a, b := data[0] as int, data[1] as int;
      [UrlSafeChar(a / 4), UrlSafeChar(a % 4 * 16 + b / 16), UrlSafeChar(b % 16 * 4)] + "="
    else
      Quad(data[0] as int, data[1] as int, data[2] as int) + UrlSafeB64Encode(data[3..])
  }

  // ------------------------------------------------------------- decoding

  const Pad: byte := 61   // '='

  /** The standard-alphabet value of a byte (`table_a2b_base64`); None for
      every byte outside the alphabet, `=` included. */
  function StdValue(b: byte): (r: Option<int>)
    ensures r.Some? ==> 0 <= r.value < 64
    ensures b == Pad ==> r.None?
  {
    var n := b as int;
    if 65 <= n <= 90 then Some(n - 65)
    else if 97 <= n <= 122 then Some(n - 97 + 26)
    else if 48 <= n <= 57 then Some(n - 48 + 52)
    else if n == 43 then Some(62)
    else if n == 47 then Some(63)
    else None
  }

  /** `urlsafe_b64decode`'s translation of `-` and `_` into `+` and `/`. */
  function TranslateByte(b: byte): byte {
    if b == 45 then 43 else if b == 95 then 47 else b
  }

  function Translate(data: seq<byte>): (r: seq<byte>)
    ensures |r| == |data|
    ensures forall i :: 0 <= i < |data| ==> r[i] == TranslateByte(data[i])
  {
    if data == [] then [] else [TranslateByte(data[0])] + Translate(data[1..])
  }

  /** The decoder's registers: the position in the current group of four,
      the bits held over from the previous character, the `=` seen since
      the last data character, and the bytes written so far. */
  datatype A2bState = A2bState(quadPos: nat, leftChar: nat, pads: nat, out: seq<byte>)

  /** The held-over bits fit the position: six after the first character of
      a group, four after the second, two after the third, none at a group
      boundary. */
  predicate Registers(s: A2bState) {
    s.quadPos < 4
    && s.leftChar < (if s.quadPos == 1 then 64 else if s.quadPos == 2 then 16 else if s.quadPos == 3 then 4 else 1)
  }

  /** One data character of value `v`: the second, third and fourth
      character of a group each complete one byte. */
  function Feed(s: A2bState, v: int): (r: A2bState)
    requires Registers(s) && 0 <= v < 64
    ensures Registers(r) && r.pads == 0
  {
    if s.quadPos == 0 then A2bState(1, v, 0, s.out)
    else if s.quadPos == 1 then A2bState(2, v % 16, 0, s.out + [(s.leftChar * 4 + v / 16) as byte])
    else if s.quadPos == 2 then A2bState(3, v % 4, 0, s.out + [(s.leftChar * 16 + v / 4) as byte])
    else A2bState(0, 0, 0, s.out + [(s.leftChar * 64 + v) as byte])
  }

  /** `binascii.a2b_base64` in its lenient mode: bytes outside the alphabet
      are skipped; `=` ends the input once it completes a group that has at
      least two data characters; input that ends inside a group is an error
      (None). */
  function A2b(s: A2bState, data: seq<byte>): (r: Option<seq<byte>>)
    requires Registers(s)
    decreases |data|
  {
    if data == [] then
      if s.quadPos == 0 then Some(s.out) else None
    else if data[0] == Pad then
      if s.quadPos >= 2 && s.quadPos + s.pads + 1 >= 4 then Some(s.out)
      else A2b(if s.quadPos >= 2 then s.(pads := s.pads + 1) else s, data[1..])
    else
      match StdValue(data[0])
      case None => A2b(s, data[1..])
      case Some(v) => A2b(Feed(s, v), data[1..])
  }

  const A2bStart := A2bState(0, 0, 0, [])

  /** `base64.urlsafe_b64decode`; None where it raises `binascii.Error`. */
  function UrlSafeB64Decode(data: seq<byte>): Option<seq<byte>> {
    A2b(A2bStart, Translate(data))
  }

  // ------------------------------------------------------------ round trip

  /** The bytes the decoder reads for the text `s`: `s.encode()` with `-`
      and `_` translated. */
  function Prepared(s: string): seq<byte> {
    Translate(Utf8.Encode(s))
  }

  lemma {:induction false} TranslateAppend(x: seq<byte>, y: seq<byte>)
    ensures Translate(x + y) == Translate(x) + Translate(y)
  {
    if x != [] {
      assert (x + y)[1..] == x[1..] + y;
      TranslateAppend(x[1..], y);
    } else {
      assert x + y == y;
    }
  }

  lemma PreparedAppend(x: string, y: string)
    ensures Prepared(x + y) == Prepared(x) + Prepared(y)
  {
    EncodeAppend(x, y);
    TranslateAppend(Utf8.Encode(x), Utf8.Encode(y));
  }

  /** The standard-alphabet byte of a 6-bit value. */
  function Sextet(v: int): (b: byte)
    requires 0 <= v < 64
    ensures StdValue(b) == Some(v)
  {
    if v < 26 then (65 + v) as byte
    else if v < 52 then (97 + v - 26) as byte
    else if v < 62 then (48 + v - 52) as byte
    else if v == 62 then 43
    else 47
  }

  /** A URL-safe character reaches the decoder as the standard-alphabet
      byte of the same value. */
  lemma PreparedChar(v: int)
    requires 0 <= v < 64
    ensures Prepared([UrlSafeChar(v)]) == [Sextet(v)]
  {
    var c := UrlSafeChar(v);
    assert [c][1..] == [];
    assert Utf8.Encode([c]) == EncodeChar(c) + Utf8.Encode([]);
    assert EncodeChar(c) == [(c as int) as byte];
    assert Translate([(c as int) as byte]) == [TranslateByte((c as int) as byte)] + Translate([]);
  }

  lemma PreparedPad()
    ensures Prepared("=") == [Pad]
  {
    assert "="[1..] == [];
  }

  /** The bytes the decoder reads for a full group of four characters. */
  lemma PreparedQuad(a: int, b: int, c: int)
    requires 0 <= a < 256 && 0 <= b < 256 && 0 <= c < 256
    ensures Prepared(Quad(a, b, c))
      == [Sextet(a / 4), Sextet(a % 4 * 16 + b / 16), Sextet(b % 16 * 4 + c / 64), Sextet(c % 64)]
  {
    var c0, c1 := [UrlSafeChar(a / 4)], [UrlSafeChar(a % 4 * 16 + b / 16)];
    var c2, c3 := [UrlSafeChar(b % 16 * 4 + c / 64)], [UrlSafeChar(c % 64)];
    assert Quad(a, b, c) == c0 + c1 + c2 + c3;
    PreparedChar(a / 4);
    PreparedChar(a % 4 * 16 + b / 16);
    PreparedChar(b % 16 * 4 + c / 64);
    PreparedChar(c % 64);
    PreparedAppend(c0, c1);
    PreparedAppend(c0 + c1, c2);
    PreparedAppend(c0 + c1 + c2, c3);
  }

  /** The four sextets of a group, fed in order, rebuild its three bytes. */
  lemma QuadFeeds(o: seq<byte>, a: int, b: int, c: int)
    requires 0 <= a < 256 && 0 <= b < 256 && 0 <= c < 256
    ensures var v0, v1, v2, v3 := a / 4, a % 4 * 16 + b / 16, b % 16 * 4 + c / 64, c % 64;
      Feed(Feed(Feed(Feed(A2bState(0, 0, 0, o), v0), v1), v2), v3)
        == A2bState(0, 0, 0, o + [a as byte, b as byte, c as byte])
  {
    var v0, v1, v2, v3 := a / 4, a % 4 * 16 + b / 16, b % 16 * 4 + c / 64, c % 64;
    assert v0 * 4 + v1 / 16 == a;
    assert v1 % 16 * 16 + v2 / 4 == b;
    assert v2 % 4 * 64 + v3 == c;
    assert Feed(A2bState(0, 0, 0, o), v0) == A2bState(1, v0, 0, o);
    assert Feed(A2bState(1, v0, 0, o), v1) == A2bState(2, v1 % 16, 0, o + [a as byte]);
    assert Feed(A2bState(2, v1 % 16, 0, o + [a as byte]), v2)
      == A2bState(3, v2 % 4, 0, o + [a as byte] + [b as byte]);
    assert o + [a as byte] + [b as byte] + [c as byte] == o + [a as byte, b as byte, c as byte];
  }

  /** The decoder turns the four characters of a group back into its three bytes. */
  lemma QuadDecodes(o: seq<byte>, a: int, b: int, c: int, rest: seq<byte>)
    requires 0 <= a < 256 && 0 <= b < 256 && 0 <= c < 256
    ensures A2b(A2bState(0, 0, 0, o), Prepared(Quad(a, b, c)) + rest)
      == A2b(A2bState(0, 0, 0, o + [a as byte, b as byte, c as byte]), rest)
  {
    var v0, v1, v2, v3 := a / 4, a % 4 * 16 + b / 16, b % 16 * 4 + c / 64, c % 64;
    PreparedQuad(a, b, c);
    var t3 := [Sextet(v3)] + rest;
    var t2 := [Sextet(v2)] + t3;
    var t1 := [Sextet(v1)] + t2;
    assert Prepared(Quad(a, b, c)) + rest == [Sextet(v0)] + t1;
    var s0 := A2bState(0, 0, 0, o);
    var s1 := Feed(s0, v0);
    var s2 := Feed(s1, v1);
    var s3 := Feed(s2, v2);
    A2bData(s0, v0, t1);
    A2bData(s1, v1, t2);
    A2bData(s2, v2, t3);
    A2bData(s3, v3, rest);
    QuadFeeds(o, a, b, c);
  }

  /** The bytes the decoder reads for a last group of one byte. */
  lemma PreparedOne(a: int)
    requires 0 <= a < 256
    ensures Prepared(UrlSafeB64Encode([a as byte])) == [Sextet(a / 4), Sextet(a % 4 * 16), Pad, Pad]
  {
    var c0, c1 := [UrlSafeChar(a / 4)], [UrlSafeChar(a % 4 * 16)];
    PreparedChar(a / 4);
    PreparedChar(a % 4 * 16);
    PreparedPad();
    PreparedAppend(c0, c1);
    PreparedAppend(c0 + c1, "=");
    PreparedAppend(c0 + c1 + "=", "=");
    assert UrlSafeB64Encode([a as byte]) == c0 + c1 + "=" + "=";
  }

  /** The bytes the decoder reads for a last group of two bytes. */
  lemma PreparedTwo(a: int, b: int)
    requires 0 <= a < 256 && 0 <= b < 256
    ensures Prepared(UrlSafeB64Encode([a as byte, b as byte]))
      == [Sextet(a / 4), Sextet(a % 4 * 16 + b / 16), Sextet(b % 16 * 4), Pad]
  {
    var c0, c1, c2 := [UrlSafeChar(a / 4)], [UrlSafeChar(a % 4 * 16 + b / 16)], [UrlSafeChar(b % 16 * 4)];
    PreparedChar(a / 4);
    PreparedChar(a % 4 * 16 + b / 16);
    PreparedChar(b % 16 * 4);
    PreparedPad();
    PreparedAppend(c0, c1);
    PreparedAppend(c0 + c1, c2);
    PreparedAppend(c0 + c1 + c2, "=");
    assert UrlSafeB64Encode([a as byte, b as byte]) == c0 + c1 + c2 + "=";
  }

  /** One data byte moves the decoder by `Feed`. */
  lemma A2bData(s: A2bState, v: int, rest: seq<byte>)
    requires Registers(s) && 0 <= v < 64
    ensures A2b(s, [Sextet(v)] + rest) == A2b(Feed(s, v), rest)
  {
    assert ([Sextet(v)] + rest)[1..] == rest;
  }

  /** A last group of one byte: two characters and `==`. */
  lemma DecodesOne(o: seq<byte>, a: int)
    requires 0 <= a < 256
    ensures A2b(A2bState(0, 0, 0, o), Prepared(UrlSafeB64Encode([a as byte]))) == Some(o + [a as byte])
  {
    var v0, v1 := a / 4, a % 4 * 16;
    PreparedOne(a);
    var pads := [Pad, Pad];
    assert [Sextet(v0), Sextet(v1), Pad, Pad] == [Sextet(v0)] + ([Sextet(v1)] + pads);
    assert v0 * 4 + v1 / 16 == a;
    var s1 := A2bState(1, v0, 0, o);
    var s2 := A2bState(2, v1 % 16, 0, o + [a as byte]);
    A2bData(A2bState(0, 0, 0, o), v0, [Sextet(v1)] + pads);
    A2bData(s1, v1, pads);
    assert A2b(s2, pads) == A2b(s2.(pads := 1), pads[1..]);
  }

  /** A last group of two bytes: three characters and `=`. */
  lemma DecodesTwo(o: seq<byte>, a: int, b: int)
    requires 0 <= a < 256 && 0 <= b < 256
    ensures A2b(A2bState(0, 0, 0, o), Prepared(UrlSafeB64Encode([a as byte, b as byte]))) == Some(o + [a as byte, b as byte])
  {
    var v0, v1, v2 := a / 4, a % 4 * 16 + b / 16, b % 16 * 4;
    PreparedTwo(a, b);
    var pads := [Pad];
    assert [Sextet(v0), Sextet(v1), Sextet(v2), Pad] == [Sextet(v0)] + ([Sextet(v1)] + ([Sextet(v2)] + pads));
    assert v0 * 4 + v1 / 16 == a;
    assert v1 % 16 * 16 + v2 / 4 == b;
    var s1 := A2bState(1, v0, 0, o);
    var s2 := A2bState(2, v1 % 16, 0, o + [a as byte]);
    A2bData(A2bState(0, 0, 0, o), v0, [Sextet(v1)] + ([Sextet(v2)] + pads));
    A2bData(s1, v1, [Sextet(v2)] + pads);
    A2bData(s2, v2, pads);
    assert o + [a as byte] + [b as byte] == o + [a as byte, b as byte];
  }

  lemma FirstThree(data: seq<byte>)
    requires |data| >= 3
    ensures data[..3] == [data[0] as int as byte, data[1] as int as byte, data[2] as int as byte]
  {
  }

  /** The first group of a longer input decodes to its first three bytes. */
  lemma QuadStep(o: seq<byte>, data: seq<byte>)
    requires |data| >= 3
    ensures A2b(A2bState(0, 0, 0, o), Prepared(UrlSafeB64Encode(data)))
      == A2b(A2bState(0, 0, 0, o + data[..3]), Prepared(UrlSafeB64Encode(data[3..])))
  {
    var a, b, c := data[0] as int, data[1] as int, data[2] as int;
    var tail := UrlSafeB64Encode(data[3..]);
    assert UrlSafeB64Encode(data) == Quad(a, b, c) + tail;
    PreparedAppend(Quad(a, b, c), tail);
    QuadDecodes(o, a, b, c, Prepared(tail));
    FirstThree(data);
  }

  /** Decoding undoes `urlsafe_b64encode`, the bytes appended after `o`. */
  lemma {:induction false} DecodesEncoded(o: seq<byte>, data: seq<byte>)
    ensures A2b(A2bState(0, 0, 0, o), Prepared(UrlSafeB64Encode(data))) == Some(o + data)
    decreases |data|
  {
    if |data| == 0 {
      assert Prepared(UrlSafeB64Encode(data)) == [];
      assert o + data == o;
    } else if |data| == 1 {
      DecodesOne(o, data[0] as int);
      assert [data[0]] == data;
    } else if |data| == 2 {
      DecodesTwo(o, data[0] as int, data[1] as int);
      assert [data[0], data[1]] == data;
    } else {
      var o' := o + data[..3];
      QuadStep(o, data);
      DecodesEncoded(o', data[3..]);
      assert data == data[..3] + data[3..];
      assert o' + data[3..] == o + data;
    }
  }
}
