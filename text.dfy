/** The string operations of Python's `str` that the log code uses, on
    `string` = `seq<char>` (one `char` per code point, as in Python). */
module Text {

  /** `sep.join(parts)`. */
  function Join(parts: seq<string>, sep: string): string
  {
    if parts == [] then ""
    else if |parts| == 1 then parts[0]
    else parts[0] + sep + Join(parts[1..], sep)
  }

  /** `s.split(sep)` for a one-character separator; always at least one piece. */
  function Split(s: string, sep: char): (r: seq<string>)
    ensures r != []
  {
    if s == [] then [""]
    else
      var rest := Split(s[1..], sep);
      if s[0] == sep then [""] + rest else [[s[0]] + rest[0]] + rest[1..]
  }

  lemma {:induction false} SplitWithoutSeparator(p: string, sep: char)
    requires sep !in p
    ensures Split(p, sep) == [p]
  {
    if p != [] {
      SplitWithoutSeparator(p[1..], sep);
      assert [p[0]] + p[1..] == p;
    }
  }

  lemma {:induction false} SplitAfterPiece(p: string, sep: char, rest: string)
    requires sep !in p
    ensures Split(p + [sep] + rest, sep) == [p] + Split(rest, sep)
  {
    var s := p + [sep] + rest;
    if p == [] {
      assert s[1..] == rest;
    } else {
      assert s[1..] == p[1..] + [sep] + rest;
      SplitAfterPiece(p[1..], sep, rest);
      assert [p[0]] + p[1..] == p;
    }
  }

  /** Joining with a one-character separator is undone by splitting on it,
      provided no piece contains the separator. */
  lemma {:induction false} SplitJoin(parts: seq<string>, sep: char)
    requires parts != []
    requires forall i :: 0 <= i < |parts| ==> sep !in parts[i]
    ensures Split(Join(parts, [sep]), sep) == parts
  {
    if |parts| == 1 {
      SplitWithoutSeparator(parts[0], sep);
    } else {
      SplitJoin(parts[1..], sep);
      SplitAfterPiece(parts[0], sep, Join(parts[1..], [sep]));
      assert [parts[0]] + parts[1..] == parts;
    }
  }

  /** Joining two non-empty lists puts one separator between their joins. */
  lemma {:induction false} JoinConcat(a: seq<string>, b: seq<string>, sep: string)
    requires a != [] && b != []
    ensures Join(a + b, sep) == Join(a, sep) + sep + Join(b, sep)
  {
    assert (a + b)[0] == a[0];
    if |a| == 1 {
      assert (a + b)[1..] == b;
    } else {
      assert (a + b)[1..] == a[1..] + b;
      JoinConcat(a[1..], b, sep);
    }
  }

  /** Appending one part adds a separator and the part, unless it is the first. */
  lemma JoinSnoc(a: seq<string>, x: string, sep: string)
    ensures Join(a + [x], sep) == if a == [] then x else Join(a, sep) + sep + x
  {
    if a == [] {
      assert a + [x] == [x];
    } else {
      JoinConcat(a, [x], sep);
    }
  }

  /** Extending the last part by `sep + x` joins like appending `x` as a part. */
  lemma JoinExtendLast(a: seq<string>, p: string, x: string, sep: string)
    ensures Join(a + [p + sep + x], sep) == Join(a + [p], sep) + sep + x
  {
    JoinSnoc(a, p + sep + x, sep);
    JoinSnoc(a, p, sep);
    if a != [] {
      assert Join(a, sep) + sep + (p + sep + x) == (Join(a, sep) + sep + p) + sep + x;
    }
  }

  /** Lists with the same join, empty together, keep the same join when
      extended alike. */
  lemma JoinSameAppend(a: seq<string>, b: seq<string>, c: seq<string>, sep: string)
    requires Join(a, sep) == Join(b, sep) && (a == [] <==> b == [])
    ensures Join(a + c, sep) == Join(b + c, sep)
    ensures a + c == [] <==> b + c == []
  {
    if c == [] {
      assert a + c == a && b + c == b;
    } else if a == [] {
      assert a + c == c && b + c == c;
    } else {
      JoinConcat(a, c, sep);
      JoinConcat(b, c, sep);
    }
  }

  /** Joining more parts only extends the text. */
  lemma JoinPrefix(a: seq<string>, b: seq<string>, sep: string)
    requires a != []
    ensures StartsWith(Join(a + b, sep), Join(a, sep))
  {
    if b == [] {
      assert a + b == a;
    } else {
      JoinConcat(a, b, sep);
    }
  }

  /** Every part occurs in the joined string. */
  lemma {:induction false} JoinContains(parts: seq<string>, sep: string, i: nat)
    requires i < |parts|
    ensures Contains(Join(parts, sep), parts[i])
  {
    var rest := parts[i..];
    assert StartsWith(Join(rest, sep), parts[i]) by {
      assert rest[0] == parts[i];
    }
    if i > 0 {
      assert parts == parts[..i] + rest;
      JoinConcat(parts[..i], rest, sep);
      ContainsAfter(Join(parts[..i], sep) + sep, Join(rest, sep), parts[i]);
      assert Join(parts[..i], sep) + sep + Join(rest, sep) == (Join(parts[..i], sep) + sep) + Join(rest, sep);
    } else {
      assert parts == rest;
    }
  }

  /** A string that occurs in `b` occurs in `a + b`. */
  lemma {:induction false} ContainsAfter(a: string, b: string, sub: string)
    requires StartsWith(b, sub) || Contains(b, sub)
    ensures Contains(a + b, sub)
    decreases |a|
  {
    if a == [] {
      assert a + b == b;
    } else {
      assert (a + b)[1..] == a[1..] + b;
      ContainsAfter(a[1..], b, sub);
    }
  }

  /** `s.startswith(prefix)`. */
  predicate StartsWith(s: string, prefix: string) {
    |prefix| <= |s| && s[..|prefix|] == prefix
  }

  /** `sub in s`. */
  predicate Contains(s: string, sub: string)
    decreases |s|
  {
    StartsWith(s, sub) || (s != [] && Contains(s[1..], sub))
  }

  /** A string without `c` contains no substring that starts with `c`. */
  lemma {:induction false} NotContainsWithoutChar(s: string, sub: string, c: char)
    requires sub != [] && sub[0] == c && c !in s
    ensures !Contains(s, sub)
  {
    if s != [] {
      assert s[0] != c;
      NotContainsWithoutChar(s[1..], sub, c);
    }
  }

  /** `c * n` for a one-character string `c`. */
  function Repeat(c: char, n: nat): (r: string)
    ensures |r| == n
    ensures forall i :: 0 <= i < n ==> r[i] == c
  {
    if n == 0 then "" else [c] + Repeat(c, n - 1)
  }

  /** Python's `str.isspace` for one character: the characters of
      bidirectional class WS, B or S and of general category Zs. */
  predicate IsSpace(c: char) {
    var n := c as int;
    (0x09 <= n <= 0x0D) || (0x1C <= n <= 0x20) || n == 0x85 || n == 0xA0 || n == 0x1680
    || (0x2000 <= n <= 0x200A) || n == 0x2028 || n == 0x2029 || n == 0x202F || n == 0x205F
    || n == 0x3000
  }

  /** `s.lstrip()`: drops the leading whitespace. */
  function LStrip(s: string): (r: string)
    ensures |r| <= |s|
  {
    if s != [] && IsSpace(s[0]) then LStrip(s[1..]) else s
  }

  /** What `lstrip` removed is whitespace, and what is left is the rest of
      the string, not starting with whitespace. */
  lemma {:induction false} LStripSuffix(s: string)
    ensures var r := LStrip(s);
      (r == [] || !IsSpace(r[0])) && r == s[|s| - |r|..]
      && forall i :: 0 <= i < |s| - |r| ==> IsSpace(s[i])
  {
    if s != [] && IsSpace(s[0]) {
      LStripSuffix(s[1..]);
      var n := |s| - |LStrip(s)|;
      assert s[1..][n - 1..] == s[n..];
      forall i | 1 <= i < n
        ensures IsSpace(s[i])
      {
        assert s[i] == s[1..][i - 1];
      }
    }
  }

  /** `s.rstrip()`: drops the trailing whitespace. */
  function RStrip(s: string): (r: string)
    ensures |r| <= |s|
  {
    if s != [] && IsSpace(s[|s| - 1]) then RStrip(s[..|s| - 1]) else s
  }

  /** What `rstrip` removed is whitespace, and what is left is the start of
      the string, not ending with whitespace. */
  lemma {:induction false} RStripPrefix(s: string)
    ensures var r := RStrip(s);
      (r == [] || !IsSpace(r[|r| - 1])) && r == s[..|r|]
      && forall i :: |r| <= i < |s| ==> IsSpace(s[i])
  {
    if s != [] && IsSpace(s[|s| - 1]) {
      var init := s[..|s| - 1];
      RStripPrefix(init);
      var n := |RStrip(s)|;
      assert init[..n] == s[..n];
      forall i | n <= i < |s| - 1
        ensures IsSpace(s[i])
      {
        assert s[i] == init[i];
      }
    }
  }

  /** The number of whitespace characters `s` starts with. */
  function LeadingSpaces(s: string): (n: nat)
    ensures n <= |s|
    ensures forall i :: 0 <= i < n ==> IsSpace(s[i])
    ensures n == |s| || !IsSpace(s[n])
  {
    LStripSuffix(s);
    |s| - |LStrip(s)|
  }

  /** `s.strip()`: the text between the leading and the trailing whitespace. */
  function Strip(s: string): (r: string)
    ensures r == [] || (!IsSpace(r[0]) && !IsSpace(r[|r| - 1]))
    ensures LeadingSpaces(s) + |r| <= |s|
    ensures r == s[LeadingSpaces(s)..LeadingSpaces(s) + |r|]
    ensures forall i :: LeadingSpaces(s) + |r| <= i < |s| ==> IsSpace(s[i])
    ensures r == [] <==> forall i :: 0 <= i < |s| ==> IsSpace(s[i])
  {
    StripSlice(s);
    StripEmpty(s);
    RStrip(LStrip(s))
  }

  /** Stripping keeps a slice of `s` that neither starts nor ends with
      whitespace, followed only by whitespace. */
  lemma StripSlice(s: string)
    ensures var l := LStrip(s); var r := RStrip(l);
      (r == [] || (!IsSpace(r[0]) && !IsSpace(r[|r| - 1])))
      && |s| - |l| + |r| <= |s| && r == s[|s| - |l|..|s| - |l| + |r|]
      && forall i :: |s| - |l| + |r| <= i < |s| ==> IsSpace(s[i])
  {
    var l := LStrip(s);
    LStripSuffix(s);
    RStripPrefix(l);
    var r := RStrip(l);
    assert r == s[|s| - |l|..][..|r|];
    forall i | |s| - |l| + |r| <= i < |s|
      ensures IsSpace(s[i])
    {
      assert s[i] == l[i - (|s| - |l|)];
    }
    if r != [] {
      assert r[0] == l[0];
    }
  }

  /** Stripping leaves nothing exactly when `s` is all whitespace. */
  lemma StripEmpty(s: string)
    ensures RStrip(LStrip(s)) == [] <==> forall i :: 0 <= i < |s| ==> IsSpace(s[i])
  {
    var l := LStrip(s);
    LStripSuffix(s);
    RStripPrefix(l);
    if l != [] {
      assert !IsSpace(s[|s| - |l|]);
    }
  }

  /** `s.rstrip(c)` for a one-character string `c`. */
  function RStripChar(s: string, c: char): (r: string)
    ensures r == [] || r[|r| - 1] != c
    ensures |r| <= |s| && r == s[..|r|]
    ensures forall i :: |r| <= i < |s| ==> s[i] == c
  {
    if s != [] && s[|s| - 1] == c then RStripChar(s[..|s| - 1], c) else s
  }

  /** `s.lstrip(c)` for a one-character string `c`. */
  function LStripChar(s: string, c: char): (r: string)
    ensures |r| <= |s|
  {
    if s != [] && s[0] == c then LStripChar(s[1..], c) else s
  }

  /** What `lstrip` removed is a run of `c`, and what is left is the rest
      of the string, not starting with `c`. */
  lemma {:induction false} LStripCharSuffix(s: string, c: char)
    ensures var r := LStripChar(s, c);
      (r == [] || r[0] != c) && r == s[|s| - |r|..]
      && forall i :: 0 <= i < |s| - |r| ==> s[i] == c
  {
    if s != [] && s[0] == c {
      LStripCharSuffix(s[1..], c);
      assert s[1..][|s| - 1 - |LStripChar(s, c)|..] == s[|s| - |LStripChar(s, c)|..];
      forall i | 1 <= i < |s| - |LStripChar(s, c)|
        ensures s[i] == c
      {
        assert s[i] == s[1..][i - 1];
      }
    }
  }

  /** `s.replace(a, b)` for one-character strings `a` and `b`. */
  function ReplaceChar(s: string, a: char, b: char): (r: string)
    ensures |r| == |s|
  {
    if s == [] then "" else [if s[0] == a then b else s[0]] + ReplaceChar(s[1..], a, b)
  }

  /** Each character `a` is replaced by `b`, and no other. */
  lemma {:induction false} ReplaceCharAt(s: string, a: char, b: char)
    ensures forall i :: 0 <= i < |s| ==> ReplaceChar(s, a, b)[i] == (if s[i] == a then b else s[i])
  {
    if s != [] {
      ReplaceCharAt(s[1..], a, b);
      forall i | 1 <= i < |s|
        ensures ReplaceChar(s, a, b)[i] == (if s[i] == a then b else s[i])
      {
        assert ReplaceChar(s, a, b)[i] == ReplaceChar(s[1..], a, b)[i - 1];
        assert s[i] == s[1..][i - 1];
      }
    }
  }

  /** The decimal digits of a natural number. */
  function Digits(n: nat): (r: string)
    ensures r != [] && forall i :: 0 <= i < |r| ==> '0' <= r[i] <= '9'
  {
    var d := ['0' + (n % 10) as char];
    if n < 10 then d else Digits(n / 10) + d
  }

  /** `str(n)` for an integer. */
  function Decimal(n: int): string {
    if n < 0 then "-" + Digits(-n) else Digits(n)
  }

  /** Python's `a <= b` on strings: lexicographic by code point. */
  predicate LexLe(a: string, b: string)
    decreases |a|
  {
    a == [] || (b != [] && (a[0] < b[0] || (a[0] == b[0] && LexLe(a[1..], b[1..]))))
  }

  lemma {:induction false} LexLeTotal(a: string, b: string)
    ensures LexLe(a, b) || LexLe(b, a)
    decreases |a|
  {
    if a != [] && b != [] && a[0] == b[0] {
      LexLeTotal(a[1..], b[1..]);
    }
  }

  lemma {:induction false} LexLeTransitive(a: string, b: string, c: string)
    requires LexLe(a, b) && LexLe(b, c)
    ensures LexLe(a, c)
    decreases |a|
  {
    if a != [] && b != [] && c != [] && a[0] == b[0] == c[0] {
      LexLeTransitive(a[1..], b[1..], c[1..]);
    }
  }

  lemma {:induction false} LexLeAntisymmetric(a: string, b: string)
    requires LexLe(a, b) && LexLe(b, a)
    ensures a == b
    decreases |a|
  {
    if a != [] {
      LexLeAntisymmetric(a[1..], b[1..]);
      assert a == [a[0]] + a[1..] && b == [b[0]] + b[1..];
    }
  }
}
