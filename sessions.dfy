/** The session list of a project: one summary per session file, read by a
    line loop that updates a small state record as it goes. */
module Sessions {
  import opened Wrappers
  import opened Text
  import opened JsonModel
  import opened Schema
  import opened Folds
  import opened Utils
  import ClaudeParser
  import CodexParser
  import GeminiParser

  // ------------------------------------------------------------ the state

  /** The state record of one scan: first summary, message count, first
      and last timestamp, and the preview of the first user message. */
  datatype Tally = Tally(
    firstSummary: Json,
    messageCount: nat,
    firstTimestamp: Json,
    lastTimestamp: Json,
    firstUserMessage: Json)

  /** The record before the first line: every key `None`, the count zero. */
  const Fresh := Tally(JNull, 0, JNull, JNull, JNull)

  /** The timestamp rule of both line formats: a truthy timestamp becomes
      the last one, and also the first one while that is still falsy. */
  function Stamp(t: Tally, ts: Json): Tally {
    if Truthy(ts) then
      t.(firstTimestamp := if Truthy(t.firstTimestamp) then t.firstTimestamp else ts, lastTimestamp := ts)
    else t
  }

  /** The result of a step whose effect is on the state record: the new
      record, or the exception that ended the scan. */
  function After(outcome: Result<()>, t: Tally): Result<Tally> {
    match outcome
    case Ok(_) => Ok(t)
    case Raised(e) => Raised(e)
  }

  // ------------------------------------------------------ the Claude format

  /** The preview from a list of content blocks: the first 100 items of the
      `text` of the first `text` block, if there is one. */
  function ClaudeBlockPreview(blocks: seq<Json>): Result<Option<Json>> {
    if blocks == [] then Ok(None)
    else if IsBlock(blocks[0], "text") then
      var p :- Prefix(Field(blocks[0], "text", JStr("")), 100);
      Ok(Some(p))
    else ClaudeBlockPreview(blocks[1..])
  }

  /** The preview from a user message's `content`: from its blocks when it
      is a list, its first 100 characters when it is a string, none otherwise. */
  function ClaudeContentPreview(content: Json): Result<Option<Json>> {
    if content.JArr? then ClaudeBlockPreview(content.items)
    else if content.JStr? then Ok(Some(Prefix(content, 100).value))
    else Ok(None)
  }

  /** `_read_claude_entry`: a summary entry fills an empty first summary,
      the timestamp rule applies, a user or assistant entry is counted, and
      the first user entry with a preview sets it. */
  function ClaudeEntry(t: Tally, entry: Json): Result<Tally> {
    if !entry.JObj? then Raised(ShapeError)
    else
      var entryType := Field(entry, "type", JNull);
      var t1 := if entryType == JStr("summary") && !Truthy(t.firstSummary)
        then t.(firstSummary := Field(entry, "summary", JStr(""))) else t;
      var t2 := Stamp(t1, Field(entry, "timestamp", JNull));
      if entryType != JStr("user") && entryType != JStr("assistant") then Ok(t2)
      else
        var t3 := t2.(messageCount := t2.messageCount + 1);
        if entryType != JStr("user") || Truthy(t3.firstUserMessage) then Ok(t3)
        else
          var message := Field(entry, "message", JObj([]));
          if !message.JObj? then Raised(ShapeError)
          else
            var preview :- ClaudeContentPreview(Field(message, "content", JStr("")));
            Ok(if preview.Some? then t3.(firstUserMessage := preview.value) else t3)
  }

  // ------------------------------------------------------- the Codex format

  /** Whether a user text can serve as the preview: it does not start with
      `<` and is shorter than 500 characters. */
  predicate PreviewText(text: string) {
    !StartsWith(text, "<") && |text| < 500
  }

  /** The preview from a user payload's blocks: the first 100 characters of
      the first `input_text` text that can serve. Testing a text that is
      not a string raises. */
  function CodexBlockPreview(blocks: seq<Json>): Result<Option<Json>> {
    if blocks == [] then Ok(None)
    else if IsBlock(blocks[0], "input_text") then
      var text := Field(blocks[0], "text", JStr(""));
      if !text.JStr? then Raised(ShapeError)
      else if PreviewText(text.s) then Ok(Some(Prefix(text, 100).value))
      else CodexBlockPreview(blocks[1..])
    else CodexBlockPreview(blocks[1..])
  }

  /** `_read_codex_entry`: the timestamp rule applies; a `response_item`
      with role user or assistant is counted and the first user one with a
      usable text sets the preview; a `user_message` event sets an empty
      preview from its `message`. */
  function CodexEntry(t: Tally, entry: Json): Result<Tally> {
    if !entry.JObj? then Raised(ShapeError)
    else
      var t1 := Stamp(t, Field(entry, "timestamp", JNull));
      var entryType := Field(entry, "type", JNull);
      if entryType == JStr("response_item") then CodexTurn(t1, Field(entry, "payload", JObj([])))
      else if entryType == JStr("event_msg") then CodexEvent(t1, Field(entry, "payload", JObj([])))
      else Ok(t1)
  }

  /** A `response_item` payload: counted when its role is user or
      assistant; the first user one with a usable text sets the preview. */
  function CodexTurn(t: Tally, payload: Json): Result<Tally> {
    var role :- Get(payload, "role", JNull);
    if role != JStr("user") && role != JStr("assistant") then Ok(t)
    else
      var t1 := t.(messageCount := t.messageCount + 1);
      if role != JStr("user") || Truthy(t1.firstUserMessage) then Ok(t1)
      else
        var blocks :- Iterate(Field(payload, "content", JArr([])));
        var preview :- CodexBlockPreview(blocks);
        Ok(if preview.Some? then t1.(firstUserMessage := preview.value) else t1)
  }

  /** An `event_msg` payload: a `user_message` event sets an empty preview. */
  function CodexEvent(t: Tally, payload: Json): Result<Tally> {
    var payloadType :- Get(payload, "type", JNull);
    if payloadType != JStr("user_message") || Truthy(t.firstUserMessage) then Ok(t)
    else
      var preview :- Prefix(Field(payload, "message", JStr("")), 100);
      Ok(t.(firstUserMessage := preview))
  }

  // ------------------------------------------------------------ JSONL files

  /** One line of `_read_jsonl_file`: a line that is not JSON is skipped,
      any other exception ends the scan. Every source but Claude's is read
      as the Codex format. */
  function LineStep(source: Source, t: Tally, line: Option<Json>): Result<Tally> {
    match line
    case None => Ok(t)
    case Some(entry) => if source == ClaudeCode then ClaudeEntry(t, entry) else CodexEntry(t, entry)
  }

  function LineStepper(source: Source): (Tally, Option<Json>) -> Result<Tally> {
    (t, line) => LineStep(source, t, line)
  }

  /** `_read_jsonl_file` from the state `t`. */
  function JsonlRead(source: Source, t: Tally, lines: Lines): Result<Tally> {
    Fold(LineStepper(source), t, lines)
  }

  // ------------------------------------------------------ the Gemini format

  /** One message of `_read_gemini_file`: a user or gemini message is
      counted, and the first user message whose content is a string shorter
      than 500 characters gives the preview. */
  function GeminiEntry(t: Tally, msg: Json): Result<Tally> {
    if !msg.JObj? then Raised(ShapeError)
    else
      var msgType := Field(msg, "type", JNull);
      if msgType != JStr("user") && msgType != JStr("gemini") then Ok(t)
      else
        var t1 := t.(messageCount := t.messageCount + 1);
        var content := Field(msg, "content", JStr(""));
        if msgType == JStr("user") && !Truthy(t1.firstUserMessage) && content.JStr? && |content.s| < 500
        then Ok(t1.(firstUserMessage := Prefix(content, 100).value))
        else Ok(t1)
  }

  /** `_read_gemini_file` from the state `t`: the document's `startTime`
      and `lastUpdated` are the timestamps, then every message is read. */
  function GeminiRead(t: Tally, doc: Option<Json>): Result<Tally> {
    match doc
    case None => Raised(JsonDecodeError)
    case Some(data) =>
      if !data.JObj? then Raised(ShapeError)
      else
        var t1 := t.(firstTimestamp := Field(data, "startTime", JNull), lastTimestamp := Field(data, "lastUpdated", JNull));
        var items :- Iterate(Field(data, "messages", JArr([])));
        Fold(GeminiEntry, t1, items)
  }

  // ----------------------------------------------------------- the summary

  /** A session's entry in the list (its size, modification time and path
      are left out of the model). */
  datatype SessionInfo = SessionInfo(
    id: string,
    filename: string,
    summary: Json,
    messageCount: nat,
    firstTimestamp: Json,
    lastTimestamp: Json,
    subagentCount: nat)

  /** `first_summary or first_user_message or "No summary"`. */
  function Summary(t: Tally): (r: Json)
    ensures Truthy(r)
    ensures r == t.firstSummary || r == t.firstUserMessage || r == JStr("No summary")
    ensures Truthy(t.firstSummary) ==> r == t.firstSummary
  {
    if Truthy(t.firstSummary) then t.firstSummary
    else if Truthy(t.firstUserMessage) then t.firstUserMessage
    else JStr("No summary")
  }

  function Info(stem: string, name: string, t: Tally, subagents: nat): SessionInfo {
    SessionInfo(stem, name, Summary(t), t.messageCount, t.firstTimestamp, t.lastTimestamp, subagents)
  }

  /** `_parse_session_info` on a line-delimited file: None when the file
      cannot be opened or the scan raises. */
  function JsonlSessionInfo(f: JsonlFile, source: Source): Option<SessionInfo> {
    match f.body
    case Unreadable => None
    case Readable(lines) =>
      match JsonlRead(source, Fresh, lines)
      case Raised(_) => None
      case Ok(t) => Some(Info(f.stem, f.name, t, f.subagents))
  }

  /** `_parse_session_info` on a Gemini document. */
  function GeminiSessionInfo(f: JsonFile): Option<SessionInfo> {
    match f.body
    case Unreadable => None
    case Readable(doc) =>
      match GeminiRead(Fresh, doc)
      case Raised(_) => None
      case Ok(t) => Some(Info(f.stem, f.name, t, f.subagents))
  }

  // ----------------------------------------------------------- the scanner

  /** The `state` dict of `_parse_session_info`, updated in place by the
      readers. */
  class SessionState {
    var firstSummary: Json
    var messageCount: nat
    var firstTimestamp: Json
    var lastTimestamp: Json
    var firstUserMessage: Json

    function Snapshot(): Tally
      reads this
    {
      Tally(firstSummary, messageCount, firstTimestamp, lastTimestamp, firstUserMessage)
    }

    constructor ()
      ensures Snapshot() == Fresh
    {
      firstSummary := JNull;
      messageCount := 0;
      firstTimestamp := JNull;
      lastTimestamp := JNull;
      firstUserMessage := JNull;
    }

    /** The timestamp rule. */
    method RecordTimestamp(ts: Json)
      modifies this
      ensures Snapshot() == Stamp(old(Snapshot()), ts)
    {
      if Truthy(ts) {
        if !Truthy(firstTimestamp) {
          firstTimestamp := ts;
        }
        lastTimestamp := ts;
      }
    }

    /** `_read_claude_entry`, with its loop over the content blocks. */
    method ReadClaudeEntry(entry: Json) returns (outcome: Result<()>)
      modifies this
      ensures After(outcome, Snapshot()) == ClaudeEntry(old(Snapshot()), entry)
    {
      if !entry.JObj? {
        return Raised(ShapeError);
      }
      var entryType := Field(entry, "type", JNull);
      if entryType == JStr("summary") && !Truthy(firstSummary) {
        firstSummary := Field(entry, "summary", JStr(""));
      }
      RecordTimestamp(Field(entry, "timestamp", JNull));
      if entryType == JStr("user") || entryType == JStr("assistant") {
        messageCount := messageCount + 1;
        if entryType == JStr("user") && !Truthy(firstUserMessage) {
          var message := Field(entry, "message", JObj([]));
          if !message.JObj? {
            return Raised(ShapeError);
          }
          var content := Field(message, "content", JStr(""));
          if content.JArr? {
            var blocks := content.items;
            for i := 0 to |blocks|
              invariant ClaudeBlockPreview(blocks) == ClaudeBlockPreview(blocks[i..])
            {
              assert blocks[i..][1..] == blocks[i + 1..];
              var block := blocks[i];
              if IsBlock(block, "text") {
                var preview := Prefix(Field(block, "text", JStr("")), 100);
                if preview.Raised? {
                  return Raised(preview.exc);
                }
                firstUserMessage := preview.value;
                return Ok(());
              }
            }
            assert blocks[|blocks|..] == [];
          } else if content.JStr? {
            firstUserMessage := Prefix(content, 100).value;
          }
        }
      }
      return Ok(());
    }

    /** `_read_codex_entry`, with its loop over the input blocks. */
    method ReadCodexEntry(entry: Json) returns (outcome: Result<()>)
      modifies this
      ensures After(outcome, Snapshot()) == CodexEntry(old(Snapshot()), entry)
    {
      if !entry.JObj? {
        return Raised(ShapeError);
      }
      RecordTimestamp(Field(entry, "timestamp", JNull));
      var entryType := Field(entry, "type", JNull);
      if entryType == JStr("response_item") {
        var payload := Field(entry, "payload", JObj([]));
        if !payload.JObj? {
          return Raised(ShapeError);
        }
        var role := Field(payload, "role", JNull);
        if role == JStr("user") || role == JStr("assistant") {
          messageCount := messageCount + 1;
          if role == JStr("user") && !Truthy(firstUserMessage) {
            var blocksOrError := Iterate(Field(payload, "content", JArr([])));
            if blocksOrError.Raised? {
              return Raised(blocksOrError.exc);
            }
            var blocks := blocksOrError.value;
            for i := 0 to |blocks|
              invariant CodexBlockPreview(blocks) == CodexBlockPreview(blocks[i..])
            {
              assert blocks[i..][1..] == blocks[i + 1..];
              var block := blocks[i];
              if IsBlock(block, "input_text") {
                var text := Field(block, "text", JStr(""));
                if !text.JStr? {
                  return Raised(ShapeError);
                }
                if PreviewText(text.s) {
                  firstUserMessage := Prefix(text, 100).value;
                  return Ok(());
                }
              }
            }
            assert blocks[|blocks|..] == [];
          }
        }
      } else if entryType == JStr("event_msg") {
        var payload := Field(entry, "payload", JObj([]));
        if !payload.JObj? {
          return Raised(ShapeError);
        }
        if Field(payload, "type", JNull) == JStr("user_message") && !Truthy(firstUserMessage) {
          var preview := Prefix(Field(payload, "message", JStr("")), 100);
          if preview.Raised? {
            return Raised(preview.exc);
          }
          firstUserMessage := preview.value;
        }
      }
      return Ok(());
    }

    /** `_read_jsonl_file`: the line loop. */
    method ReadJsonlFile(lines: Lines, source: Source) returns (outcome: Result<()>)
      modifies this
      ensures After(outcome, Snapshot()) == JsonlRead(source, old(Snapshot()), lines)
    {
      for i := 0 to |lines|
        invariant JsonlRead(source, old(Snapshot()), lines) == JsonlRead(source, Snapshot(), lines[i..])
      {
        assert lines[i..][1..] == lines[i + 1..];
        ghost var before := Snapshot();
        var line := lines[i];
        if line.Some? {
          var step;
          if source == ClaudeCode {
            step := ReadClaudeEntry(line.value);
          } else {
            step := ReadCodexEntry(line.value);
          }
          if step.Raised? {
            return Raised(step.exc);
          }
        }
        assert LineStep(source, before, line) == Ok(Snapshot());
      }
      assert lines[|lines|..] == [];
      return Ok(());
    }

    /** `_read_gemini_file`: the timestamps, then the message loop. */
    method ReadGeminiFile(doc: Option<Json>) returns (outcome: Result<()>)
      modifies this
      ensures After(outcome, Snapshot()) == GeminiRead(old(Snapshot()), doc)
    {
      if doc.None? {
        return Raised(JsonDecodeError);
      }
      var data := doc.value;
      if !data.JObj? {
        return Raised(ShapeError);
      }
      firstTimestamp := Field(data, "startTime", JNull);
      lastTimestamp := Field(data, "lastUpdated", JNull);
      var itemsOrError := Iterate(Field(data, "messages", JArr([])));
      if itemsOrError.Raised? {
        return Raised(itemsOrError.exc);
      }
      var items := itemsOrError.value;
      for i := 0 to |items|
        invariant GeminiRead(old(Snapshot()), doc) == Fold(GeminiEntry, Snapshot(), items[i..])
      {
        assert items[i..][1..] == items[i + 1..];
        ghost var before := Snapshot();
        var msg := items[i];
        if !msg.JObj? {
          assert GeminiEntry(before, msg) == Raised(ShapeError);
          return Raised(ShapeError);
        }
        var msgType := Field(msg, "type", JNull);
        if msgType == JStr("user") || msgType == JStr("gemini") {
          messageCount := messageCount + 1;
          if msgType == JStr("user") && !Truthy(firstUserMessage) {
            var content := Field(msg, "content", JStr(""));
            if content.JStr? && |content.s| < 500 {
              firstUserMessage := Prefix(content, 100).value;
            }
          }
        }
        assert GeminiEntry(before, msg) == Ok(Snapshot());
      }
      assert items[|items|..] == [];
      return Ok(());
    }
  }

  /** `_parse_session_info` on a line-delimited file. */
  method ParseJsonlSessionInfo(f: JsonlFile, source: Source) returns (info: Option<SessionInfo>)
    ensures info == JsonlSessionInfo(f, source)
  {
    if f.body.Unreadable? {
      return None;
    }
    var state := new SessionState();
    var outcome := state.ReadJsonlFile(f.body.data, source);
    if outcome.Raised? {
      return None;
    }
    return Some(Info(f.stem, f.name, state.Snapshot(), f.subagents));
  }

  /** `_parse_session_info` on a Gemini document. */
  method ParseGeminiSessionInfo(f: JsonFile) returns (info: Option<SessionInfo>)
    ensures info == GeminiSessionInfo(f)
  {
    if f.body.Unreadable? {
      return None;
    }
    var state := new SessionState();
    var outcome := state.ReadGeminiFile(f.body.data);
    if outcome.Raised? {
      return None;
    }
    return Some(Info(f.stem, f.name, state.Snapshot(), f.subagents));
  }

  // ------------------------------------------------------- the session list

  /** The readable sessions among `files`, in order: a file whose summary
      raised is dropped, the others all stay. */
  function JsonlInfos(files: seq<JsonlFile>, source: Source): (r: seq<SessionInfo>)
    ensures |r| <= |files|
    ensures forall info :: info in r ==> exists f :: f in files && JsonlSessionInfo(f, source) == Some(info)
    ensures forall f :: f in files && JsonlSessionInfo(f, source).Some? ==> JsonlSessionInfo(f, source).value in r
  {
    if files == [] then []
    else
      var rest := JsonlInfos(files[1..], source);
      assert forall f :: f in files[1..] ==> f in files;
      match JsonlSessionInfo(files[0], source)
      case None => rest
      case Some(info) => [info] + rest
  }

  function GeminiInfos(files: seq<JsonFile>): (r: seq<SessionInfo>)
    ensures |r| <= |files|
    ensures forall info :: info in r ==> exists f :: f in files && GeminiSessionInfo(f) == Some(info)
    ensures forall f :: f in files && GeminiSessionInfo(f).Some? ==> GeminiSessionInfo(f).value in r
  {
    if files == [] then []
    else
      var rest := GeminiInfos(files[1..]);
      assert forall f :: f in files[1..] ==> f in files;
      match GeminiSessionInfo(files[0])
      case None => rest
      case Some(info) => [info] + rest
  }

  /** The Codex files whose working directory is `cwd`, in order. */
  function CodexFilesOf(files: seq<JsonlFile>, cwd: string): (r: seq<JsonlFile>)
    ensures |r| <= |files|
    ensures forall f :: f in r <==> f in files && CodexCwd(f.body) == Some(JStr(cwd))
  {
    if files == [] then []
    else
      var rest := CodexFilesOf(files[1..], cwd);
      assert forall f :: f in files <==> f == files[0] || f in files[1..];
      if CodexCwd(files[0].body) == Some(JStr(cwd)) then [files[0]] + rest else rest
  }

  /** The Gemini files whose project hash is `hash`, in order. */
  function GeminiFilesOf(files: seq<JsonFile>, hash: string): (r: seq<JsonFile>)
    ensures |r| <= |files|
    ensures forall f :: f in r <==> f in files && GeminiProjectHash(f.body) == Some(JStr(hash))
  {
    if files == [] then []
    else
      var rest := GeminiFilesOf(files[1..], hash);
      assert forall f :: f in files <==> f == files[0] || f in files[1..];
      if GeminiProjectHash(files[0].body) == Some(JStr(hash)) then [files[0]] + rest else rest
  }

  /** `get_sessions`. The directory scans are inputs, each already in the
      order the list shows it (newest first): `claudeDir` is the `*.jsonl`
      files of the project's directory (None when it does not exist),
      `codexFiles` every Codex session file, `geminiFiles` every Gemini
      session document. */
  function GetSessions(projectId: string, sourceId: string, claudeDir: Option<seq<JsonlFile>>,
                       codexFiles: seq<JsonlFile>, geminiFiles: seq<JsonFile>): (r: seq<SessionInfo>)
    ensures SourceOf(sourceId).None? ==> r == []
    ensures sourceId == "claude-code" && claudeDir.None? ==> r == []
    ensures sourceId == "codex" && DecodePathId(projectId).None? ==> r == []
    ensures sourceId == "claude-code" && claudeDir.Some? ==> r == JsonlInfos(claudeDir.value, ClaudeCode)
    ensures sourceId == "codex" && DecodePathId(projectId).Some? ==>
      r == JsonlInfos(CodexFilesOf(codexFiles, DecodePathId(projectId).value), Codex)
    ensures sourceId == "gemini" ==> r == GeminiInfos(GeminiFilesOf(geminiFiles, projectId))
  {
    match SourceOf(sourceId)
    case None => []
    case Some(ClaudeCode) =>
      if claudeDir.None? then [] else JsonlInfos(claudeDir.value, ClaudeCode)
    case Some(Codex) =>
      (match DecodePathId(projectId)
       case None => []
       case Some(cwd) => JsonlInfos(CodexFilesOf(codexFiles, cwd), Codex))
    case Some(Gemini) => GeminiInfos(GeminiFilesOf(geminiFiles, projectId))
  }

  /** The id of a Codex project lists exactly the readable sessions whose
      working directory is that project's: the id decodes back to it. */
  lemma CodexProjectSessions(cwd: string, claudeDir: Option<seq<JsonlFile>>,
                             codexFiles: seq<JsonlFile>, geminiFiles: seq<JsonFile>)
    ensures GetSessions(EncodePathId(cwd), "codex", claudeDir, codexFiles, geminiFiles)
      == JsonlInfos(CodexFilesOf(codexFiles, cwd), Codex)
    ensures forall info :: info in GetSessions(EncodePathId(cwd), "codex", claudeDir, codexFiles, geminiFiles) ==>
      exists f :: f in codexFiles && CodexCwd(f.body) == Some(JStr(cwd)) && JsonlSessionInfo(f, Codex) == Some(info)
  {
    PathIdRoundTrip(cwd);
  }

  /** A Gemini project lists exactly the readable sessions whose project
      hash is the project's id. */
  lemma GeminiProjectSessions(projectId: string, claudeDir: Option<seq<JsonlFile>>,
                              codexFiles: seq<JsonlFile>, geminiFiles: seq<JsonFile>, info: SessionInfo)
    ensures info in GetSessions(projectId, "gemini", claudeDir, codexFiles, geminiFiles) <==>
      exists f :: f in geminiFiles && GeminiProjectHash(f.body) == Some(JStr(projectId)) && GeminiSessionInfo(f) == Some(info)
  {
    var kept := GeminiFilesOf(geminiFiles, projectId);
    if exists f :: f in geminiFiles && GeminiProjectHash(f.body) == Some(JStr(projectId)) && GeminiSessionInfo(f) == Some(info) {
      var f :| f in geminiFiles && GeminiProjectHash(f.body) == Some(JStr(projectId)) && GeminiSessionInfo(f) == Some(info);
      assert f in kept;
    }
  }

  // ------------------------------------------------------------ properties

  /** The `timestamp` of a line that is a dict, if it is one. */
  function LineStamps(line: Option<Json>): seq<Json> {
    if line.Some? && line.value.JObj? then [Field(line.value, "timestamp", JNull)] else []
  }

  /** Reference definition: the timestamps of the file's dict lines, in order. */
  function Stamps(lines: Lines): seq<Json> {
    if lines == [] then [] else LineStamps(lines[0]) + Stamps(lines[1..])
  }

  /** Reference definition: the first truthy value, `None` if there is none. */
  function FirstTruthy(vs: seq<Json>): (r: Json)
    ensures Truthy(r) || r == JNull
  {
    if vs == [] then JNull else if Truthy(vs[0]) then vs[0] else FirstTruthy(vs[1..])
  }

  /** Reference definition: the last truthy value, `None` if there is none. */
  function LastTruthy(vs: seq<Json>): (r: Json)
    ensures Truthy(r) || r == JNull
  {
    if vs == [] then JNull
    else if Truthy(LastTruthy(vs[1..])) then LastTruthy(vs[1..])
    else if Truthy(vs[0]) then vs[0]
    else JNull
  }

  /** A truthy timestamp, or none yet. */
  predicate Settled(j: Json) {
    Truthy(j) || j == JNull
  }

  /** The timestamp a line offers to the timestamp rule. */
  function LineStamp(line: Option<Json>): Json {
    if line.Some? && line.value.JObj? then Field(line.value, "timestamp", JNull) else JNull
  }

  /** A successful step from `t` on `line` applies the timestamp rule to
      the line's timestamp. */
  predicate Stamped(step: (Tally, Option<Json>) -> Result<Tally>, t: Tally, line: Option<Json>) {
    step(t, line).Ok? ==>
      step(t, line).value.firstTimestamp == Stamp(t, LineStamp(line)).firstTimestamp
      && step(t, line).value.lastTimestamp == Stamp(t, LineStamp(line)).lastTimestamp
  }

  ghost predicate StampRule(step: (Tally, Option<Json>) -> Result<Tally>) {
    forall t, line :: Stamped(step, t, line)
  }

  /** A successful step from `t` on `line` fills an empty first summary
      from a summary entry and counts a user or assistant entry. */
  predicate Counted(step: (Tally, Option<Json>) -> Result<Tally>, t: Tally, line: Option<Json>) {
    step(t, line).Ok? ==>
      step(t, line).value.firstSummary ==
        (if ClaudeParser.LineSummaries(line) != [] && !Truthy(t.firstSummary) then ClaudeParser.LineSummaries(line)[0] else t.firstSummary)
      && step(t, line).value.messageCount == t.messageCount + |ClaudeParser.LineRoles(line)|
  }

  ghost predicate ClaudeRules(step: (Tally, Option<Json>) -> Result<Tally>) {
    forall t, line :: Counted(step, t, line)
  }

  lemma StepStamped(source: Source, t: Tally, line: Option<Json>)
    ensures Stamped(LineStepper(source), t, line)
  {
    if line.Some? {
      if source == ClaudeCode {
        ClaudeEntryStamped(t, line.value);
      } else {
        CodexEntryStamped(t, line.value);
      }
    }
  }

  /** A Claude entry changes the timestamps only by the timestamp rule. */
  lemma ClaudeEntryStamped(t: Tally, entry: Json)
    ensures ClaudeEntry(t, entry).Ok? ==>
      ClaudeEntry(t, entry).value.firstTimestamp == Stamp(t, Field(entry, "timestamp", JNull)).firstTimestamp
      && ClaudeEntry(t, entry).value.lastTimestamp == Stamp(t, Field(entry, "timestamp", JNull)).lastTimestamp
  {
  }

  /** A Codex entry changes the timestamps only by the timestamp rule. */
  lemma CodexEntryStamped(t: Tally, entry: Json)
    ensures CodexEntry(t, entry).Ok? ==>
      CodexEntry(t, entry).value.firstTimestamp == Stamp(t, Field(entry, "timestamp", JNull)).firstTimestamp
      && CodexEntry(t, entry).value.lastTimestamp == Stamp(t, Field(entry, "timestamp", JNull)).lastTimestamp
  {
  }

  lemma StepCounted(t: Tally, line: Option<Json>)
    ensures Counted(LineStepper(ClaudeCode), t, line)
  {
    if line.Some? {
      ClaudeEntryCounted(t, line.value);
    }
  }

  /** A Claude entry fills an empty first summary from a summary entry and
      counts a user or assistant entry. */
  lemma ClaudeEntryCounted(t: Tally, entry: Json)
    ensures ClaudeEntry(t, entry).Ok? ==>
      ClaudeEntry(t, entry).value.firstSummary ==
        (if ClaudeParser.LineSummaries(Some(entry)) != [] && !Truthy(t.firstSummary)
         then ClaudeParser.LineSummaries(Some(entry))[0] else t.firstSummary)
      && ClaudeEntry(t, entry).value.messageCount == t.messageCount + |ClaudeParser.LineRoles(Some(entry))|
  {
  }

  /** The scan of both line formats follows the timestamp rule, and the
      Claude scan also the summary and counting rules. */
  lemma ReadFollowsRules(source: Source)
    ensures StampRule(LineStepper(source))
    ensures source == ClaudeCode ==> ClaudeRules(LineStepper(source))
  {
    forall t, line ensures Stamped(LineStepper(source), t, line) {
      StepStamped(source, t, line);
    }
    if source == ClaudeCode {
      forall t, line ensures Counted(LineStepper(source), t, line) {
        StepCounted(t, line);
      }
    }
  }

  lemma {:induction false} FoldTimestamps(step: (Tally, Option<Json>) -> Result<Tally>, t: Tally, lines: Lines)
    requires StampRule(step)
    requires Settled(t.firstTimestamp) && Settled(t.lastTimestamp)
    ensures Fold(step, t, lines).Ok? ==>
      var r := Fold(step, t, lines).value;
      r.firstTimestamp == (if Truthy(t.firstTimestamp) then t.firstTimestamp else FirstTruthy(Stamps(lines)))
      && r.lastTimestamp == (if Truthy(LastTruthy(Stamps(lines))) then LastTruthy(Stamps(lines)) else t.lastTimestamp)
    decreases |lines|
  {
    if lines != [] && step(t, lines[0]).Ok? {
      var u := step(t, lines[0]).value;
      assert Stamped(step, t, lines[0]);
      FoldTimestamps(step, u, lines[1..]);
      var xs := LineStamps(lines[0]);
      var rest := Stamps(lines[1..]);
      assert Stamps(lines) == xs + rest;
      if xs == [] {
        assert xs + rest == rest;
      } else {
        assert (xs + rest)[0] == xs[0] && (xs + rest)[1..] == rest;
        assert FirstTruthy(xs + rest) == if Truthy(xs[0]) then xs[0] else FirstTruthy(rest);
        assert LastTruthy(xs + rest) ==
          if Truthy(LastTruthy(rest)) then LastTruthy(rest) else if Truthy(xs[0]) then xs[0] else JNull;
      }
    }
  }

  /** For both line formats the first timestamp is the first truthy
      `timestamp` of the file and the last timestamp the last truthy one. */
  lemma JsonlTimestamps(source: Source, lines: Lines)
    ensures JsonlRead(source, Fresh, lines).Ok? ==>
      JsonlRead(source, Fresh, lines).value.firstTimestamp == FirstTruthy(Stamps(lines))
      && JsonlRead(source, Fresh, lines).value.lastTimestamp == LastTruthy(Stamps(lines))
  {
    ReadFollowsRules(source);
    FoldTimestamps(LineStepper(source), Fresh, lines);
  }

  /** For a Gemini document the timestamps are its `startTime` and
      `lastUpdated`, whatever its messages hold. */
  lemma GeminiTimestamps(data: Json)
    requires data.JObj?
    ensures GeminiRead(Fresh, Some(data)).Ok? ==>
      GeminiRead(Fresh, Some(data)).value.firstTimestamp == Field(data, "startTime", JNull)
      && GeminiRead(Fresh, Some(data)).value.lastTimestamp == Field(data, "lastUpdated", JNull)
  {
    var start := Field(data, "startTime", JNull);
    var last := Field(data, "lastUpdated", JNull);
    var t1 := Fresh.(firstTimestamp := start, lastTimestamp := last);
    var p := (t: Tally) => t.firstTimestamp == start && t.lastTimestamp == last;
    var items := Iterate(Field(data, "messages", JArr([])));
    if items.Ok? {
      FoldInvariant(GeminiEntry, p, t1, items.value);
    }
  }

  lemma {:induction false} FoldFirstSummary(step: (Tally, Option<Json>) -> Result<Tally>, t: Tally, lines: Lines)
    requires ClaudeRules(step)
    ensures Fold(step, t, lines).Ok? ==>
      var r := Fold(step, t, lines).value;
      var first := FirstTruthy(ClaudeParser.SummaryTexts(lines));
      (Truthy(r.firstSummary) <==> Truthy(t.firstSummary) || Truthy(first))
      && (Truthy(r.firstSummary) ==> r.firstSummary == if Truthy(t.firstSummary) then t.firstSummary else first)
    decreases |lines|
  {
    if lines != [] && step(t, lines[0]).Ok? {
      var u := step(t, lines[0]).value;
      assert Counted(step, t, lines[0]);
      FoldFirstSummary(step, u, lines[1..]);
      var xs := ClaudeParser.LineSummaries(lines[0]);
      var rest := ClaudeParser.SummaryTexts(lines[1..]);
      assert ClaudeParser.SummaryTexts(lines) == xs + rest;
      if xs == [] {
        assert xs + rest == rest;
      } else {
        assert (xs + rest)[0] == xs[0] && (xs + rest)[1..] == rest;
        assert FirstTruthy(xs + rest) == if Truthy(xs[0]) then xs[0] else FirstTruthy(rest);
      }
    }
  }

  /** The first summary is only ever filled while it is falsy, so a Claude
      session's summary is its first non-empty summary entry when it has
      one, and otherwise falls back past the summary entries. */
  lemma ClaudeFirstSummary(lines: Lines)
    ensures JsonlRead(ClaudeCode, Fresh, lines).Ok? ==>
      var t := JsonlRead(ClaudeCode, Fresh, lines).value;
      var first := FirstTruthy(ClaudeParser.SummaryTexts(lines));
      (Truthy(first) ==> Summary(t) == first)
      && (!Truthy(first) ==> Summary(t) == if Truthy(t.firstUserMessage) then t.firstUserMessage else JStr("No summary"))
  {
    ReadFollowsRules(ClaudeCode);
    FoldFirstSummary(LineStepper(ClaudeCode), Fresh, lines);
  }

  lemma {:induction false} FoldCountsClaude(step: (Tally, Option<Json>) -> Result<Tally>, t: Tally, lines: Lines)
    requires ClaudeRules(step)
    ensures Fold(step, t, lines).Ok? ==>
      Fold(step, t, lines).value.messageCount == t.messageCount + |ClaudeParser.EntryRoles(lines)|
    decreases |lines|
  {
    if lines != [] && step(t, lines[0]).Ok? {
      assert Counted(step, t, lines[0]);
      FoldCountsClaude(step, step(t, lines[0]).value, lines[1..]);
    }
  }

  /** A Claude session's message count is the number of messages the
      parser returns for the same lines. */
  lemma ClaudeCountMatchesParser(lines: Lines, sessionId: string)
    requires JsonlRead(ClaudeCode, Fresh, lines).Ok?
    requires ClaudeParser.ClaudeConversation(lines, sessionId).Ok?
    ensures JsonlRead(ClaudeCode, Fresh, lines).value.messageCount
      == |ClaudeParser.ClaudeConversation(lines, sessionId).value.messages|
  {
    ReadFollowsRules(ClaudeCode);
    FoldCountsClaude(LineStepper(ClaudeCode), Fresh, lines);
    ClaudeParser.ConversationShape(lines, sessionId);
  }

  lemma {:induction false} FoldCountsGemini(t: Tally, items: seq<Json>, fmt: Json -> string)
    requires forall i :: 0 <= i < |items| ==> GeminiParser.EntryParses(items[i], fmt)
    ensures Fold(GeminiEntry, t, items).Ok?
    ensures Fold(GeminiEntry, t, items).value.messageCount == t.messageCount + |GeminiParser.EntryRoles(items)|
    decreases |items|
  {
    if items != [] {
      assert GeminiParser.EntryParses(items[0], fmt);
      assert items[0].JObj?;
      FoldCountsGemini(GeminiEntry(t, items[0]).value, items[1..], fmt);
    }
  }

  /** Whenever the Gemini parser succeeds on a document, so does the
      summary, and its message count is the number of messages parsed. */
  lemma GeminiCountMatchesParser(doc: Option<Json>, sessionId: string, fmt: Json -> string)
    requires GeminiParser.GeminiConversation(doc, sessionId, fmt).Ok?
    ensures GeminiRead(Fresh, doc).Ok?
    ensures GeminiRead(Fresh, doc).value.messageCount
      == |GeminiParser.GeminiConversation(doc, sessionId, fmt).value.messages|
  {
    var data := doc.value;
    var items := Iterate(Field(data, "messages", JArr([]))).value;
    GeminiParser.ConversationShape(data, sessionId, fmt, items);
    var t1 := Fresh.(firstTimestamp := Field(data, "startTime", JNull), lastTimestamp := Field(data, "lastUpdated", JNull));
    FoldCountsGemini(t1, items, fmt);
  }

  /** A Codex `response_item` with role user or assistant is counted
      whether or not the parser would emit a message for it. */
  lemma CodexEntryCounts(t: Tally, entry: Json)
    requires CodexEntry(t, entry).Ok?
    ensures entry.JObj?
    ensures var counted := Field(entry, "type", JNull) == JStr("response_item")
      && Field(Field(entry, "payload", JObj([])), "role", JNull) in {JStr("user"), JStr("assistant")};
      CodexEntry(t, entry).value.messageCount == t.messageCount + if counted then 1 else 0
  {
  }

  /** A user turn whose only text is markup. */
  const MarkupText := "<" + "ctx>"
  const MarkupBlock := JObj([("type", JStr("input_text")), ("text", JStr(MarkupText))])
  const MarkupPayload := JObj([("type", JStr("message")), ("role", JStr("user")), ("content", JArr([MarkupBlock]))])
  const MarkupTurn := JObj([("type", JStr("response_item")), ("payload", MarkupPayload)])

  /** The lookups the example below needs. */
  lemma MarkupLookups()
    ensures Field(MarkupTurn, "type", JNull) == JStr("response_item")
    ensures Field(MarkupTurn, "payload", JObj([])) == MarkupPayload
    ensures Field(MarkupTurn, "timestamp", JNull) == JNull
    ensures Field(MarkupPayload, "type", JNull) == JStr("message")
    ensures Field(MarkupPayload, "role", JNull) == JStr("user")
    ensures Field(MarkupPayload, "content", JArr([])) == JArr([MarkupBlock])
    ensures Field(MarkupBlock, "text", JStr("")) == JStr(MarkupText)
    ensures IsBlock(MarkupBlock, "input_text")
    ensures StartsWith(MarkupText, "<")
  {
    TurnLookups();
    PayloadLookups();
    BlockLookups();
  }

  lemma TurnLookups()
    ensures Field(MarkupTurn, "type", JNull) == JStr("response_item")
    ensures Field(MarkupTurn, "payload", JObj([])) == MarkupPayload
    ensures Field(MarkupTurn, "timestamp", JNull) == JNull
  {
    assert Lookup(MarkupTurn.fields[1..], "payload") == Some(MarkupPayload);
    assert Lookup(MarkupTurn.fields[2..], "timestamp") == None;
  }

  lemma PayloadLookups()
    ensures Field(MarkupPayload, "type", JNull) == JStr("message")
    ensures Field(MarkupPayload, "role", JNull) == JStr("user")
    ensures Field(MarkupPayload, "content", JArr([])) == JArr([MarkupBlock])
  {
    var fs := MarkupPayload.fields;
    assert Lookup(fs[2..], "content") == Some(JArr([MarkupBlock]));
    assert fs[1..][1..] == fs[2..];
    assert Lookup(fs[1..], "role") == Some(JStr("user"));
  }

  lemma BlockLookups()
    ensures Field(MarkupBlock, "text", JStr("")) == JStr(MarkupText)
    ensures IsBlock(MarkupBlock, "input_text")
    ensures StartsWith(MarkupText, "<")
  {
    assert "type"[1] != "text"[1];
    assert Lookup(MarkupBlock.fields[1..], "text") == Some(JStr(MarkupText));
    assert MarkupText[0] == '<';
  }

  /** The Codex summary step counts the markup turn. */
  lemma MarkupTurnStep()
    ensures CodexEntry(Fresh, MarkupTurn) == Ok(Fresh.(messageCount := 1))
  {
    TurnLookups();
    MarkupPayloadCounted();
    assert Stamp(Fresh, JNull) == Fresh;
  }

  /** The markup turn's payload is counted and sets no preview. */
  lemma MarkupPayloadCounted()
    ensures CodexTurn(Fresh, MarkupPayload) == Ok(Fresh.(messageCount := 1))
  {
    PayloadLookups();
    MarkupNoPreview();
    UserTurnWithoutPreview(Fresh, MarkupPayload, [MarkupBlock]);
  }

  /** A user turn whose blocks offer no preview is only counted. */
  lemma UserTurnWithoutPreview(t: Tally, payload: Json, blocks: seq<Json>)
    requires payload.JObj? && Field(payload, "role", JNull) == JStr("user") && !Truthy(t.firstUserMessage)
    requires Field(payload, "content", JArr([])) == JArr(blocks)
    requires CodexBlockPreview(blocks) == Ok(None)
    ensures CodexTurn(t, payload) == Ok(t.(messageCount := t.messageCount + 1))
  {
  }

  /** Markup is no preview. */
  lemma MarkupNoPreview()
    ensures CodexBlockPreview([MarkupBlock]) == Ok(None)
  {
    BlockLookups();
    assert !PreviewText(MarkupText);
    assert [MarkupBlock][1..] == [];
  }

  /** The summary counts the markup-only user turn. */
  lemma MarkupTurnCounted()
    ensures JsonlRead(Codex, Fresh, [Some(MarkupTurn)]) == Ok(Fresh.(messageCount := 1))
  {
    var counted := Fresh.(messageCount := 1);
    MarkupTurnStep();
    assert LineStepper(Codex)(Fresh, Some(MarkupTurn)) == Ok(counted);
    assert [Some(MarkupTurn)][1..] == [];
    assert Fold(LineStepper(Codex), counted, []) == Ok(counted);
  }

  lemma MarkupItemEmitsNothing()
    ensures CodexParser.ResponseItem(MarkupPayload, JStr("openai"), JNull) == Ok([])
  {
    MarkupLookups();
    assert CodexParser.KeptUserTexts([MarkupBlock]) == Ok([]);
    assert CodexParser.UserItem(MarkupPayload, JNull) == Ok([]);
  }

  /** The parser emits nothing for it. */
  lemma MarkupTurnDropped()
    ensures CodexParser.CodexConversation([Some(MarkupTurn)], "s").Ok?
    ensures CodexParser.CodexConversation([Some(MarkupTurn)], "s").value.messages == []
  {
    MarkupLookups();
    MarkupItemEmitsNothing();
    var meta := CodexParser.Start.sessionMeta;
    assert Field(meta, "model_provider", JStr("openai")) == JStr("openai");
    assert CodexParser.ResponseItemEffect(meta, MarkupTurn) == Ok(CodexParser.Effect([], meta));
    assert CodexParser.EntryEffect(meta, Some(MarkupTurn)) == Ok(CodexParser.Effect([], meta));
    assert CodexParser.Start.messages + [] == CodexParser.Start.messages;
    assert CodexParser.Step(CodexParser.Start, Some(MarkupTurn)) == Ok(CodexParser.Start);
    assert [Some(MarkupTurn)][1..] == [];
    assert Fold(CodexParser.Step, CodexParser.Start, [Some(MarkupTurn)]) == Ok(CodexParser.Start);
    assert CodexParser.Consolidated([]) == [];
  }

  /** So the Codex count is not the parser's: a file holding only a user
      turn whose text the parser filters out counts one message, while the
      parser returns none. */
  lemma CodexCountCanExceedParser()
    ensures JsonlRead(Codex, Fresh, [Some(MarkupTurn)]).Ok?
    ensures CodexParser.CodexConversation([Some(MarkupTurn)], "s").Ok?
    ensures JsonlRead(Codex, Fresh, [Some(MarkupTurn)]).value.messageCount
      == |CodexParser.CodexConversation([Some(MarkupTurn)], "s").value.messages| + 1
  {
    MarkupTurnCounted();
    MarkupTurnDropped();
  }

  /** A preview: none yet, or at most 100 characters or items. */
  predicate Bounded(j: Json) {
    j == JNull || (j.JStr? && |j.s| <= 100) || (j.JArr? && |j.items| <= 100)
  }

  /** The `text` of a block (default `""`). */
  function InputText(block: Json): Json
    requires block.JObj?
  {
    Field(block, "text", JStr(""))
  }

  /** An `input_text` block whose text can serve as the preview. */
  predicate Usable(block: Json) {
    IsBlock(block, "input_text") && InputText(block).JStr? && PreviewText(InputText(block).s)
  }

  /** A block the preview search passes over without raising. */
  predicate PassedOver(block: Json) {
    IsBlock(block, "input_text") ==> InputText(block).JStr? && !PreviewText(InputText(block).s)
  }

  /** What a Codex preview from blocks is: the first 100 characters of the
      text of a usable block, every block before it being passed over. */
  lemma {:induction false} CodexPreviewIsFirstUsable(blocks: seq<Json>, p: Json)
    requires CodexBlockPreview(blocks) == Ok(Some(p))
    ensures exists i :: (0 <= i < |blocks| && Usable(blocks[i]) && p == Prefix(InputText(blocks[i]), 100).value
      && forall j :: 0 <= j < i ==> PassedOver(blocks[j]))
  {
    if Usable(blocks[0]) {
      assert p == Prefix(InputText(blocks[0]), 100).value;
    } else {
      assert PassedOver(blocks[0]) && CodexBlockPreview(blocks[1..]) == Ok(Some(p));
      CodexPreviewIsFirstUsable(blocks[1..], p);
      var i :| 0 <= i < |blocks[1..]| && Usable(blocks[1..][i]) && p == Prefix(InputText(blocks[1..][i]), 100).value
        && forall j :: 0 <= j < i ==> PassedOver(blocks[1..][j]);
      assert blocks[i + 1] == blocks[1..][i];
      forall j | 0 <= j < i + 1
        ensures PassedOver(blocks[j])
      {
        if j > 0 {
          assert blocks[j] == blocks[1..][j - 1];
        }
      }
    }
  }

  /** A Codex preview taken from blocks is at most 100 characters and
      never starts with `<`. */
  lemma CodexPreviewNotMarkup(blocks: seq<Json>, p: Json)
    requires CodexBlockPreview(blocks) == Ok(Some(p))
    ensures p.JStr? && |p.s| <= 100 && !StartsWith(p.s, "<")
  {
    CodexPreviewIsFirstUsable(blocks, p);
    var i :| 0 <= i < |blocks| && Usable(blocks[i]) && p == Prefix(InputText(blocks[i]), 100).value;
    var text := InputText(blocks[i]).s;
    if p.s != [] {
      assert p.s[0] == text[0];
      assert text != [] && text[0] != '<';
    }
  }

  lemma ClaudeStepBounded(t: Tally, entry: Json)
    requires Bounded(t.firstUserMessage)
    ensures ClaudeEntry(t, entry).Ok? ==> Bounded(ClaudeEntry(t, entry).value.firstUserMessage)
  {
    if entry.JObj? {
      var message := Field(entry, "message", JObj([]));
      if message.JObj? {
        var content := Field(message, "content", JStr(""));
        if content.JArr? {
          ClaudeBlockPreviewBounded(content.items);
        }
      }
    }
  }

  lemma CodexStepBounded(t: Tally, entry: Json)
    requires Bounded(t.firstUserMessage)
    ensures CodexEntry(t, entry).Ok? ==> Bounded(CodexEntry(t, entry).value.firstUserMessage)
  {
    if entry.JObj? {
      var t1 := Stamp(t, Field(entry, "timestamp", JNull));
      var payload := Field(entry, "payload", JObj([]));
      if Field(entry, "type", JNull) == JStr("response_item") && payload.JObj? {
        var blocks := Iterate(Field(payload, "content", JArr([])));
        if blocks.Ok? {
          var preview := CodexBlockPreview(blocks.value);
          if preview.Ok? && preview.value.Some? {
            CodexPreviewNotMarkup(blocks.value, preview.value.value);
          }
        }
        assert CodexEntry(t, entry) == CodexTurn(t1, payload);
      }
    }
  }

  lemma StepBounded(source: Source, t: Tally, line: Option<Json>)
    requires Bounded(t.firstUserMessage)
    ensures LineStep(source, t, line).Ok? ==> Bounded(LineStep(source, t, line).value.firstUserMessage)
  {
    if line.Some? {
      if source == ClaudeCode {
        ClaudeStepBounded(t, line.value);
      } else {
        CodexStepBounded(t, line.value);
      }
    }
  }

  lemma {:induction false} ClaudeBlockPreviewBounded(blocks: seq<Json>)
    ensures ClaudeBlockPreview(blocks).Ok? && ClaudeBlockPreview(blocks).value.Some? ==>
      Bounded(ClaudeBlockPreview(blocks).value.value)
  {
    if blocks != [] && !IsBlock(blocks[0], "text") {
      ClaudeBlockPreviewBounded(blocks[1..]);
    }
  }

  /** In both line formats the preview is at most 100 characters (or
      items, for a list the code slices). */
  lemma JsonlPreviewBounded(source: Source, lines: Lines)
    ensures JsonlRead(source, Fresh, lines).Ok? ==> Bounded(JsonlRead(source, Fresh, lines).value.firstUserMessage)
  {
    var p := (t: Tally) => Bounded(t.firstUserMessage);
    forall t, line | p(t) && LineStepper(source)(t, line).Ok?
      ensures p(LineStepper(source)(t, line).value)
    {
      StepBounded(source, t, line);
    }
    FoldInvariant(LineStepper(source), p, Fresh, lines);
  }

  /** A Gemini preview, if any, is a string of at most 100 characters. */
  lemma GeminiPreviewBounded(doc: Option<Json>)
    ensures GeminiRead(Fresh, doc).Ok? ==>
      var fum := GeminiRead(Fresh, doc).value.firstUserMessage;
      fum == JNull || (fum.JStr? && |fum.s| <= 100)
  {
    if doc.Some? && doc.value.JObj? {
      var data := doc.value;
      var t1 := Fresh.(firstTimestamp := Field(data, "startTime", JNull), lastTimestamp := Field(data, "lastUpdated", JNull));
      var p := (t: Tally) => t.firstUserMessage == JNull || (t.firstUserMessage.JStr? && |t.firstUserMessage.s| <= 100);
      var items := Iterate(Field(data, "messages", JArr([])));
      if items.Ok? {
        FoldInvariant(GeminiEntry, p, t1, items.value);
      }
    }
  }
}
