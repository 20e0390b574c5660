/** The path-id codec and the two grouping-key readers: the Codex working
    directory of a session and the project hash of a Gemini session. */
module Utils {
  import opened Wrappers
  import opened Text
  import opened JsonModel
  import opened Schema
  import opened Utf8
  import opened Base64
  import opened Folds

  // ----------------------------------------------------------- path ids

  /** `encode_path_id`: the URL-safe base64 of the path's UTF-8 bytes,
      without its `=` padding. */
  function EncodePathId(path: string): string {
    RStripChar(UrlSafeB64Encode(Utf8.Encode(path)), '=')
  }

  /** The id with `=` appended up to a multiple of four characters. */
  function Repadded(id: string): (r: string)
    ensures |r| % 4 == 0
    ensures |id| <= |r| < |id| + 4 && r[..|id|] == id
    ensures forall i :: |id| <= i < |r| ==> r[i] == '='
  {
    var padding := 4 - |id| % 4;
    if padding != 4 then id + Repeat('=', padding) else id
  }

  /** `decode_path_id`; None where Python raises (`binascii.Error` for a
      malformed id, `UnicodeDecodeError` for bytes that are not UTF-8). */
  function DecodePathId(id: string): Option<string> {
    match UrlSafeB64Decode(Utf8.Encode(Repadded(id)))
    case None => None
    case Some(raw) => Utf8.Decode(raw)
  }

  /** `enc` is an unpadded body of URL-safe characters followed by `n`
      padding characters, where the body's length is `4 - n` modulo 4. */
  predicate PaddedBody(enc: string, body: string, n: nat) {
    enc == body + Repeat('=', n)
    && n <= 2 && (n == 0 ==> |body| % 4 == 0) && (n > 0 ==> |body| % 4 == 4 - n)
    && forall i :: 0 <= i < |body| ==> IsUrlSafe(body[i])
  }

  /** A last group of one byte: two characters and `==`. */
  lemma SplitOne(data: seq<byte>) returns (body: string, n: nat)
    requires |data| == 1
    ensures PaddedBody(UrlSafeB64Encode(data), body, n)
  {
    var a := data[0] as int;
    body, n := [UrlSafeChar(a / 4), UrlSafeChar(a % 4 * 16)], 2;
    assert Repeat('=', 2) == "==";
  }

  /** A last group of two bytes: three characters and `=`. */
  lemma SplitTwo(data: seq<byte>) returns (body: string, n: nat)
    requires |data| == 2
    ensures PaddedBody(UrlSafeB64Encode(data), body, n)
  {
    var a, b := data[0] as int, data[1] as int;
    body, n := [UrlSafeChar(a / 4), UrlSafeChar(a % 4 * 16 + b / 16), UrlSafeChar(b % 16 * 4)], 1;
    assert Repeat('=', 1) == "=";
  }

  /** Three bytes or more start with a full group of four URL-safe characters. */
  lemma SplitQuad(data: seq<byte>) returns (q: string)
    requires |data| >= 3
    ensures UrlSafeB64Encode(data) == q + UrlSafeB64Encode(data[3..])
    ensures |q| == 4 && forall i :: 0 <= i < 4 ==> IsUrlSafe(q[i])
  {
    q := Quad(data[0] as int, data[1] as int, data[2] as int);
  }

  lemma ModFour(x: nat)
    ensures (x + 4) % 4 == x % 4
  {
  }

  /** The padded encoding of any bytes splits into a body and its padding. */
  lemma {:induction false} EncodedSplit(data: seq<byte>) returns (body: string, n: nat)
    ensures PaddedBody(UrlSafeB64Encode(data), body, n)
    decreases |data|
  {
    if |data| == 0 {
      body, n := "", 0;
      assert Repeat('=', 0) == "";
    } else if |data| == 1 {
      body, n := SplitOne(data);
    } else if |data| == 2 {
      body, n := SplitTwo(data);
    } else {
      var q := SplitQuad(data);
      var rest, m := EncodedSplit(data[3..]);
      body, n := q + rest, m;
      SplitStep(q, rest, m);
    }
  }

  /** A full group of four URL-safe characters in front keeps the shape of
      the split. */
  lemma SplitStep(q: string, rest: string, m: nat)
    requires |q| == 4 && forall i :: 0 <= i < 4 ==> IsUrlSafe(q[i])
    requires m <= 2 && (m == 0 ==> |rest| % 4 == 0) && (m > 0 ==> |rest| % 4 == 4 - m)
    requires forall i :: 0 <= i < |rest| ==> IsUrlSafe(rest[i])
    ensures q + (rest + Repeat('=', m)) == (q + rest) + Repeat('=', m)
    ensures (m == 0 ==> |q + rest| % 4 == 0) && (m > 0 ==> |q + rest| % 4 == 4 - m)
    ensures forall i :: 0 <= i < |q + rest| ==> IsUrlSafe((q + rest)[i])
  {
    AppendAssociative(q, rest, Repeat('=', m));
    ModFour(|rest|);
    assert forall i :: 0 <= i < |q + rest| ==> (q + rest)[i] == if i < 4 then q[i] else rest[i - 4];
  }

  /** Stripping `=` from a body that does not end in `=` removes exactly the
      padding that follows it. */
  lemma {:induction false} StripPadding(body: string, n: nat)
    requires body == [] || body[|body| - 1] != '='
    ensures RStripChar(body + Repeat('=', n), '=') == body
  {
    if n > 0 {
      var s := body + Repeat('=', n);
      assert s[..|s| - 1] == body + Repeat('=', n - 1);
      StripPadding(body, n - 1);
    } else {
      assert body + Repeat('=', 0) == body;
    }
  }

  /** A path id uses only the URL-safe alphabet (so never `=`), and its
      length is never one more than a multiple of four. */
  lemma EncodedPathId(path: string)
    ensures forall i :: 0 <= i < |EncodePathId(path)| ==> IsUrlSafe(EncodePathId(path)[i])
    ensures '=' !in EncodePathId(path)
    ensures |EncodePathId(path)| % 4 != 1
  {
    var body, n := EncodedSplit(Utf8.Encode(path));
    StripPadding(body, n);
  }

  /** Re-padding a body restores the padding the encoder put after it. */
  lemma RepaddedBody(enc: string, body: string, n: nat)
    requires PaddedBody(enc, body, n)
    ensures Repadded(body) == enc
  {
    if n == 0 {
      assert Repeat('=', 0) == "";
    }
  }

  /** The decoder gives back the bytes of every padded encoding. */
  lemma DecodesPadded(data: seq<byte>)
    ensures UrlSafeB64Decode(Utf8.Encode(UrlSafeB64Encode(data))) == Some(data)
  {
    DecodesEncoded([], data);
    assert [] + data == data;
  }

  /** Decoding a path id gives back the path, for every string. */
  lemma PathIdRoundTrip(path: string)
    ensures DecodePathId(EncodePathId(path)) == Some(path)
  {
    var data := Utf8.Encode(path);
    var body, n := EncodedSplit(data);
    StripPadding(body, n);
    assert EncodePathId(path) == body;
    RepaddedBody(UrlSafeB64Encode(data), body, n);
    DecodesPadded(data);
    DecodeEncode(path);
  }

  // ------------------------------------------------------- grouping keys

  /** Whether the scan for the working directory passes over a line: it is
      not JSON, or it is a dict of another type. */
  predicate PassesOver(line: Option<Json>) {
    line.None? || (line.value.JObj? && Field(line.value, "type", JNull) != JStr("session_meta"))
  }

  /** `get_codex_cwd` on the decoded lines of a file: the `cwd` of the first
      `session_meta` entry (default `""`). Any exception, and a file with no
      such entry, give None. */
  function CodexCwdOf(lines: Lines): (r: Option<Json>)
  {
    if lines == [] then None
    else if lines[0].None? then CodexCwdOf(lines[1..])
    else
      var entry := lines[0].value;
      if !entry.JObj? then None
      else if Field(entry, "type", JNull) == JStr("session_meta") then
        var payload := Field(entry, "payload", JObj([]));
        if payload.JObj? then Some(Field(payload, "cwd", JStr(""))) else None
      else CodexCwdOf(lines[1..])
  }

  /** `get_codex_cwd` on a file: None also when it cannot be opened. */
  function CodexCwd(body: Contents<Lines>): Option<Json> {
    match body
    case Unreadable => None
    case Readable(lines) => CodexCwdOf(lines)
  }

  /** `get_codex_cwd`: the line loop with its early return. */
  method GetCodexCwd(body: Contents<Lines>) returns (r: Option<Json>)
    ensures r == CodexCwd(body)
  {
    if body.Unreadable? {
      return None;
    }
    var lines := body.data;
    for i := 0 to |lines|
      invariant CodexCwdOf(lines) == CodexCwdOf(lines[i..])
    {
      assert lines[i..][1..] == lines[i + 1..];
      var line := lines[i];
      if line.None? {
        continue;
      }
      var entry := line.value;
      if !entry.JObj? {
        return None;
      }
      if Field(entry, "type", JNull) == JStr("session_meta") {
        var payload := Field(entry, "payload", JObj([]));
        if !payload.JObj? {
          return None;
        }
        return Some(Field(payload, "cwd", JStr("")));
      }
    }
    assert lines[|lines|..] == [];
    return None;
  }

  /** The working directory comes from the first `session_meta` entry:
      lines before it that the scan passes over, and everything after it,
      make no difference. */
  lemma {:induction false} FirstSessionMetaWins(before: Lines, entry: Json, after: Lines)
    requires forall i :: 0 <= i < |before| ==> PassesOver(before[i])
    requires entry.JObj? && Field(entry, "type", JNull) == JStr("session_meta")
    requires Field(entry, "payload", JObj([])).JObj?
    ensures CodexCwdOf(before + [Some(entry)] + after) == Some(Field(Field(entry, "payload", JObj([])), "cwd", JStr("")))
  {
    if before != [] {
      assert (before + [Some(entry)] + after)[1..] == before[1..] + [Some(entry)] + after;
      FirstSessionMetaWins(before[1..], entry, after);
    } else {
      assert (before + [Some(entry)] + after)[0] == Some(entry);
    }
  }

  /** A file the scan passes over entirely has no working directory. */
  lemma {:induction false} NoSessionMeta(lines: Lines)
    requires forall i :: 0 <= i < |lines| ==> PassesOver(lines[i])
    ensures CodexCwdOf(lines) == None
  {
    if lines != [] {
      NoSessionMeta(lines[1..]);
    }
  }

  /** `get_gemini_project_hash`: the document's `projectHash` (default
      `""`); None when the file cannot be read, is not JSON, or is not a
      dict. */
  function GeminiProjectHash(body: Contents<Option<Json>>): (r: Option<Json>)
    ensures r.Some? <==> body.Readable? && body.data.Some? && body.data.value.JObj?
    ensures r.Some? ==> r.value == Field(body.data.value, "projectHash", JStr(""))
  {
    match body
    case Unreadable => None
    case Readable(None) => None
    case Readable(Some(data)) => if data.JObj? then Some(Field(data, "projectHash", JStr(""))) else None
  }
}
