/** The Codex session format: one JSON entry per line, with running session
    metadata, and a post-pass that merges the fragments of one assistant
    turn. */
module CodexParser {
  import opened Wrappers
  import opened Text
  import opened JsonModel
  import opened Schema
  import opened Folds

  // ------------------------------------------------------------ user text filter

  /** Text that looks like injected context rather than something the user
      typed: markup, the agents file, the permissions block, or anything
      longer than 1000 characters. */
  predicate Boilerplate(text: string) {
    StartsWith(text, "<") || StartsWith(text, "# AGENTS.md") || StartsWith(text, "<environment_context")
    || Contains(text, "<permissions instructions>") || |text| > 1000
  }

  /** Whether a user content block is an `input_text` block. */
  predicate IsInputText(block: Json) {
    block.JObj? && Field(block, "type", JNull) == JStr("input_text")
  }

  /** The texts of the `input_text` blocks that are not boilerplate, in
      block order; a text that is not a string raises. */
  function KeptUserTexts(blocks: seq<Json>): (r: Result<seq<string>>)
    ensures r.Ok? ==> |r.value| <= |blocks|
    ensures r.Ok? ==> forall i :: 0 <= i < |r.value| ==> !Boilerplate(r.value[i])
  {
    if blocks == [] then Ok([])
    else if IsInputText(blocks[0]) then
      var text := Field(blocks[0], "text", JStr(""));
      if !text.JStr? then Raised(ShapeError)
      else
        var rest :- KeptUserTexts(blocks[1..]);
        Ok(if Boilerplate(text.s) then rest else [text.s] + rest)
    else KeptUserTexts(blocks[1..])
  }

  /** `r` with `pre` in front of its texts. */
  function Prepended(pre: seq<string>, r: Result<seq<string>>): Result<seq<string>> {
    match r
    case Raised(e) => Raised(e)
    case Ok(rest) => Ok(pre + rest)
  }

  /** The user block loop, which skips boilerplate with `continue`. */
  method CollectInputText(blocks: seq<Json>) returns (r: Result<seq<string>>)
    ensures r == KeptUserTexts(blocks)
  {
    var textParts: seq<string> := [];
    assert blocks[0..] == blocks;
    assert KeptUserTexts(blocks).Ok? ==> [] + KeptUserTexts(blocks).value == KeptUserTexts(blocks).value;
    for k := 0 to |blocks|
      invariant KeptUserTexts(blocks) == Prepended(textParts, KeptUserTexts(blocks[k..]))
    {
      assert blocks[k..][1..] == blocks[k + 1..];
      var block := blocks[k];
      if block.JObj? && Field(block, "type", JNull) == JStr("input_text") {
        var text := Field(block, "text", JStr(""));
        if !text.JStr? {
          return Raised(ShapeError);
        }
        if Boilerplate(text.s) {
          continue;
        }
        if KeptUserTexts(blocks[k + 1..]).Ok? {
          assert textParts + ([text.s] + KeptUserTexts(blocks[k + 1..]).value)
            == (textParts + [text.s]) + KeptUserTexts(blocks[k + 1..]).value;
        }
        textParts := textParts + [text.s];
      }
    }
    assert blocks[|blocks|..] == [];
    assert textParts + [] == textParts;
    return Ok(textParts);
  }

  // --------------------------------------------------------- response items

  /** The placeholder shown for encrypted reasoning. */
  const EncryptedNotice := "[" + "Reasoning content is encrypted and cannot be displayed]\n\n"
    + "OpenAI Codex encrypts extended thinking for privacy."

  /** The comprehension `[b.get("text", "") for b in blocks if <b is a dict of type t>]`. */
  function TextsOfType(blocks: seq<Json>, t: string): (r: seq<Json>)
    ensures |r| <= |blocks|
    ensures r == [] <==> forall i :: 0 <= i < |blocks| ==> !IsBlock(blocks[i], t)
  {
    if blocks == [] then []
    else
      (if IsBlock(blocks[0], t) then [Field(blocks[0], "text", JStr(""))] else [])
      + TextsOfType(blocks[1..], t)
  }

  /** The reasoning text of a `reasoning` payload: the placeholder when the
      content is encrypted, else the `"\n"`-join of its summary texts. */
  function ReasoningText(payload: Json): (r: Result<string>)
    requires payload.JObj?
    ensures Truthy(Field(payload, "encrypted_content", JNull)) ==> r == Ok(EncryptedNotice)
  {
    if Truthy(Field(payload, "encrypted_content", JNull)) then Ok(EncryptedNotice)
    else
      var summary :- Iterate(Field(payload, "summary", JArr([])));
      JoinStrs(TextsOfType(summary, "summary_text"), "\n")
  }

  /** The one tool record of a `function_call` payload. */
  function CallRecord(payload: Json): ToolUse
    requires payload.JObj?
  {
    ToolUse(Field(payload, "name", JStr("")), Field(payload, "arguments", JStr("")))
  }

  /** A user `message` payload: one message holding the `"\n"`-join of the
      kept texts, or none when every text was filtered out. */
  function UserItem(payload: Json, timestamp: Json): Result<seq<Message>>
    requires payload.JObj?
  {
    var blocks :- Iterate(Field(payload, "content", JArr([])));
    var textParts :- KeptUserTexts(blocks);
    Ok(if textParts == [] then [] else [Plain(User, JStr(Join(textParts, "\n")), timestamp)])
  }

  /** An assistant `message` payload: one message holding the `"\n"`-join of
      its `output_text` blocks, or none when it has no such block. */
  function AssistantItem(payload: Json, model: Json, timestamp: Json): Result<seq<Message>>
    requires payload.JObj?
  {
    var blocks :- Iterate(Field(payload, "content", JArr([])));
    var textParts := TextsOfType(blocks, "output_text");
    if textParts == [] then Ok([])
    else
      var content :- JoinStrs(textParts, "\n");
      Ok([Plain(Assistant, JStr(content), timestamp).(model := model)])
  }

  /** A `reasoning` payload: one message whose thinking is the stripped
      reasoning text, or none when that text is empty. */
  function ReasoningItem(payload: Json, model: Json, timestamp: Json): Result<seq<Message>>
    requires payload.JObj?
  {
    var thinkingText :- ReasoningText(payload);
    Ok(if thinkingText == "" then []
       else [Plain(Assistant, JStr(""), timestamp).(thinking := Some(Strip(thinkingText)), model := model)])
  }

  /** The messages a `response_item` entry emits (at most one): its
      assistant message is attributed to `model`, the running
      `model_provider`. */
  function ResponseItem(payload: Json, model: Json, timestamp: Json): (r: Result<seq<Message>>)
    requires payload.JObj?
    ensures r.Ok? ==> |r.value| <= 1
    ensures r.Ok? ==> forall i :: 0 <= i < |r.value| ==> r.value[i].timestamp == timestamp
    ensures r.Ok? ==> forall i :: 0 <= i < |r.value| && r.value[i].role == Assistant ==> r.value[i].model == model
  {
    var role := Field(payload, "role", JNull);
    var payloadType := Field(payload, "type", JNull);
    if payloadType == JStr("message") && role == JStr("user") then UserItem(payload, timestamp)
    else if payloadType == JStr("message") && role == JStr("assistant") then AssistantItem(payload, model, timestamp)
    else if payloadType == JStr("function_call") then
      Ok([Plain(Assistant, JStr(""), timestamp).(toolUses := Some([CallRecord(payload)]), model := model)])
    else if payloadType == JStr("reasoning") then ReasoningItem(payload, model, timestamp)
    else Ok([])
  }

  // ------------------------------------------------------------ the line loop

  /** What one line does: the messages it emits and the running session
      metadata after it. */
  datatype Effect = Effect(emitted: seq<Message>, meta: Json)

  /** Every assistant message in `ms` is attributed to the running
      `model_provider` of `meta`, "openai" when it has none. */
  predicate Attributed(ms: seq<Message>, meta: Json) {
    forall i :: 0 <= i < |ms| && ms[i].role == Assistant ==>
      meta.JObj? && ms[i].model == Field(meta, "model_provider", JStr("openai"))
  }

  /** A `response_item` entry: emits what its payload yields, attributed to
      the running `model_provider` (default "openai"). */
  function ResponseItemEffect(meta: Json, entry: Json): (r: Result<Effect>)
    requires entry.JObj?
    ensures r.Ok? ==> r.value.meta == meta && meta.JObj? && Attributed(r.value.emitted, meta)
  {
    var payload := Field(entry, "payload", JObj([]));
    if !payload.JObj? then Raised(ShapeError)
    else
      var model :- Get(meta, "model_provider", JStr("openai"));
      var out :- ResponseItem(payload, model, Field(entry, "timestamp", JNull));
      Ok(Effect(out, meta))
  }

  /** An `event_msg` entry: an `agent_message` payload emits its `message`. */
  function EventEffect(meta: Json, entry: Json): (r: Result<Effect>)
    requires entry.JObj?
    ensures r.Ok? ==> r.value.meta == meta && Attributed(r.value.emitted, meta)
  {
    var payload := Field(entry, "payload", JObj([]));
    var payloadType :- Get(payload, "type", JNull);
    if payloadType == JStr("agent_message") then
      var model :- Get(meta, "model_provider", JStr("openai"));
      Ok(Effect([Plain(Assistant, Field(payload, "message", JStr("")), Field(entry, "timestamp", JNull)).(model := model)], meta))
    else Ok(Effect([], meta))
  }

  /** A `turn_context` entry: a truthy `model` overwrites the running model. */
  function TurnContextEffect(meta: Json, entry: Json): Result<Effect>
    requires entry.JObj?
  {
    var payload := Field(entry, "payload", JObj([]));
    var model :- Get(payload, "model", JNull);
    if Truthy(model) then
      var updated :- SetItem(meta, "model", model);
      Ok(Effect([], updated))
    else Ok(Effect([], meta))
  }

  /** The effect of one line, given the running metadata `meta`. A line that
      is not JSON does nothing; any other exception ends the parse. A
      `session_meta` entry replaces the metadata with its payload. */
  function EntryEffect(meta: Json, line: Option<Json>): (r: Result<Effect>)
    ensures r.Ok? ==> |r.value.emitted| <= 1
    ensures r.Ok? ==> Attributed(r.value.emitted, meta)
  {
    match line
    case None => Ok(Effect([], meta))
    case Some(entry) =>
      var entryType :- Get(entry, "type", JNull);
      if entryType == JStr("session_meta") then Ok(Effect([], Field(entry, "payload", JObj([]))))
      else if entryType == JStr("response_item") then ResponseItemEffect(meta, entry)
      else if entryType == JStr("event_msg") then EventEffect(meta, entry)
      else if entryType == JStr("turn_context") then TurnContextEffect(meta, entry)
      else Ok(Effect([], meta))
  }

  /** The state of the line loop: the messages so far and the running metadata. */
  datatype Scan = Scan(messages: seq<Message>, sessionMeta: Json)

  function Step(st: Scan, line: Option<Json>): Result<Scan> {
    var e :- EntryEffect(st.sessionMeta, line);
    Ok(Scan(st.messages + e.emitted, e.meta))
  }

  const Start := Scan([], JObj([]))

  // ----------------------------------------------------------- consolidation

  predicate HasTools(m: Message) {
    m.toolUses.Some? && m.toolUses.value != []
  }

  predicate HasThinking(m: Message) {
    m.thinking.Some? && m.thinking.value != ""
  }

  /** The tool records of a message (none when it has no `tool_uses`). */
  function ToolsOf(m: Message): seq<ToolUse> {
    if m.toolUses.Some? then m.toolUses.value else []
  }

  /** An assistant fragment with no content that carries tool calls or thinking. */
  predicate Fragment(m: Message) {
    m.role == Assistant && !Truthy(m.content) && (HasTools(m) || HasThinking(m))
  }

  /** One iteration of the merge loop: a fragment that follows an assistant
      message is folded into it (tool calls first, then thinking); anything
      else is appended. */
  function Absorb(acc: seq<Message>, m: Message): seq<Message> {
    if m.role == Assistant && acc != [] && acc[|acc| - 1].role == Assistant then
      var prev := acc[|acc| - 1];
      if HasTools(m) && !Truthy(m.content) then
        acc[..|acc| - 1] + [prev.(toolUses := Some(ToolsOf(prev) + m.toolUses.value))]
      else if HasThinking(m) && !Truthy(m.content) then
        acc[..|acc| - 1] + [prev.(thinking := Some(if HasThinking(prev) then prev.thinking.value + "\n" + m.thinking.value else m.thinking.value))]
      else acc + [m]
    else acc + [m]
  }

  /** The merged message list: never longer than the input, and ending in a
      message of the same role as the input's last one. */
  function Consolidated(ms: seq<Message>): (r: seq<Message>)
    ensures |r| <= |ms|
    ensures ms != [] ==> r != [] && r[|r| - 1].role == ms[|ms| - 1].role
  {
    if ms == [] then [] else Absorb(Consolidated(ms[..|ms| - 1]), ms[|ms| - 1])
  }

  /** The merge loop of `parse_codex_conversation`. Python updates the
      previous dict in place; here the last element is replaced. */
  method Consolidate(messages: seq<Message>) returns (consolidated: seq<Message>)
    ensures consolidated == Consolidated(messages)
  {
    consolidated := [];
    for i := 0 to |messages|
      invariant consolidated == Consolidated(messages[..i])
    {
      var msg := messages[i];
      assert messages[..i + 1][..i] == messages[..i];
      if msg.role == Assistant && consolidated != [] && consolidated[|consolidated| - 1].role == Assistant {
        var prev := consolidated[|consolidated| - 1];
        if HasTools(msg) && !Truthy(msg.content) {
          consolidated := consolidated[..|consolidated| - 1] + [prev.(toolUses := Some(ToolsOf(prev) + msg.toolUses.value))];
          continue;
        }
        if HasThinking(msg) && !Truthy(msg.content) {
          if HasThinking(prev) {
            prev := prev.(thinking := Some(prev.thinking.value + "\n" + msg.thinking.value));
          } else {
            prev := prev.(thinking := msg.thinking);
          }
          consolidated := consolidated[..|consolidated| - 1] + [prev];
          continue;
        }
      }
      consolidated := consolidated + [msg];
    }
    assert messages[..|messages|] == messages;
  }

  // ------------------------------------------------------------ the whole parse

  /** `parse_codex_conversation` on the decoded lines of a file. */
  function CodexConversation(lines: Lines, sessionId: string): Result<Conversation> {
    var st :- Fold(Step, Start, lines);
    var cwd :- Get(st.sessionMeta, "cwd", JNull);
    Ok(Conversation([], Consolidated(st.messages), sessionId,
      CodexMeta(cwd, Field(st.sessionMeta, "model", JNull), Field(st.sessionMeta, "cli_version", JNull))))
  }

  /** The user-message case of the `response_item` branch. */
  method EmitUserItem(payload: Json, timestamp: Json) returns (r: Result<seq<Message>>)
    requires payload.JObj?
    ensures r == UserItem(payload, timestamp)
  {
    var blocks := Iterate(Field(payload, "content", JArr([])));
    if blocks.Raised? {
      return Raised(blocks.exc);
    }
    var textParts := CollectInputText(blocks.value);
    if textParts.Raised? {
      return Raised(textParts.exc);
    }
    var emitted: seq<Message> := [];
    if textParts.value != [] {
      emitted := [Plain(User, JStr(Join(textParts.value, "\n")), timestamp)];
    }
    return Ok(emitted);
  }

  /** The assistant-message case of the `response_item` branch. */
  method EmitAssistantItem(payload: Json, model: Json, timestamp: Json) returns (r: Result<seq<Message>>)
    requires payload.JObj?
    ensures r == AssistantItem(payload, model, timestamp)
  {
    var blocks := Iterate(Field(payload, "content", JArr([])));
    if blocks.Raised? {
      return Raised(blocks.exc);
    }
    var textParts := TextsOfType(blocks.value, "output_text");
    var emitted: seq<Message> := [];
    if textParts != [] {
      if !AllStrings(textParts) {
        return Raised(ShapeError);
      }
      emitted := [Plain(Assistant, JStr(Join(Strs(textParts), "\n")), timestamp).(model := model)];
    }
    return Ok(emitted);
  }

  /** The reasoning case of the `response_item` branch. */
  method EmitReasoningItem(payload: Json, model: Json, timestamp: Json) returns (r: Result<seq<Message>>)
    requires payload.JObj?
    ensures r == ReasoningItem(payload, model, timestamp)
  {
    var thinkingText: string;
    if Truthy(Field(payload, "encrypted_content", JNull)) {
      thinkingText := EncryptedNotice;
    } else {
      var summary := Iterate(Field(payload, "summary", JArr([])));
      if summary.Raised? {
        return Raised(summary.exc);
      }
      var parts := TextsOfType(summary.value, "summary_text");
      if !AllStrings(parts) {
        return Raised(ShapeError);
      }
      thinkingText := Join(Strs(parts), "\n");
    }
    assert ReasoningText(payload) == Ok(thinkingText);
    var emitted: seq<Message> := [];
    if thinkingText != "" {
      emitted := [Plain(Assistant, JStr(""), timestamp).(thinking := Some(Strip(thinkingText)), model := model)];
    }
    return Ok(emitted);
  }

  /** The `response_item` branch of the line loop. */
  method EmitResponseItem(payload: Json, model: Json, timestamp: Json) returns (r: Result<seq<Message>>)
    requires payload.JObj?
    ensures r == ResponseItem(payload, model, timestamp)
  {
    var role := Field(payload, "role", JNull);
    var payloadType := Field(payload, "type", JNull);
    if payloadType == JStr("message") && role == JStr("user") {
      r := EmitUserItem(payload, timestamp);
    } else if payloadType == JStr("message") && role == JStr("assistant") {
      r := EmitAssistantItem(payload, model, timestamp);
    } else if payloadType == JStr("function_call") {
      r := Ok([Plain(Assistant, JStr(""), timestamp).(toolUses := Some([CallRecord(payload)]), model := model)]);
    } else if payloadType == JStr("reasoning") {
      r := EmitReasoningItem(payload, model, timestamp);
    } else {
      r := Ok([]);
    }
  }

  /** The line loop, the merge loop and the result dict of `parse_codex_conversation`. */
  method ParseCodexConversation(lines: Lines, sessionId: string) returns (r: Result<Conversation>)
    ensures r == CodexConversation(lines, sessionId)
  {
    var messages: seq<Message> := [];
    var sessionMeta := JObj([]);
    for i := 0 to |lines|
      invariant Fold(Step, Start, lines) == Fold(Step, Scan(messages, sessionMeta), lines[i..])
    {
      assert lines[i..][1..] == lines[i + 1..];
      if lines[i].None? {
        assert messages + [] == messages;
        continue;
      }
      ghost var before := Scan(messages, sessionMeta);
      var entry := lines[i].value;
      if !entry.JObj? {
        return Raised(ShapeError);
      }
      var entryType := Field(entry, "type", JNull);
      var timestamp := Field(entry, "timestamp", JNull);
      if entryType == JStr("session_meta") {
        sessionMeta := Field(entry, "payload", JObj([]));
        assert messages[|before.messages|..] == [];
      } else if entryType == JStr("response_item") {
        var payload := Field(entry, "payload", JObj([]));
        if !payload.JObj? || !sessionMeta.JObj? {
          return Raised(ShapeError);
        }
        var model := Field(sessionMeta, "model_provider", JStr("openai"));
        var emitted := EmitResponseItem(payload, model, timestamp);
        if emitted.Raised? {
          return Raised(emitted.exc);
        }
        messages := messages + emitted.value;
        assert ResponseItemEffect(before.sessionMeta, entry) == Ok(Effect(messages[|before.messages|..], sessionMeta));
      } else if entryType == JStr("event_msg") {
        var payload := Field(entry, "payload", JObj([]));
        if !payload.JObj? {
          return Raised(ShapeError);
        }
        if Field(payload, "type", JNull) == JStr("agent_message") {
          if !sessionMeta.JObj? {
            return Raised(ShapeError);
          }
          messages := messages + [Plain(Assistant, Field(payload, "message", JStr("")), timestamp).(
            model := Field(sessionMeta, "model_provider", JStr("openai")))];
        }
        assert EventEffect(before.sessionMeta, entry) == Ok(Effect(messages[|before.messages|..], sessionMeta));
      } else if entryType == JStr("turn_context") {
        var payload := Field(entry, "payload", JObj([]));
        if !payload.JObj? {
          return Raised(ShapeError);
        }
        if Truthy(Field(payload, "model", JNull)) {
          if !sessionMeta.JObj? {
            return Raised(ShapeError);
          }
          sessionMeta := JObj(Assign(sessionMeta.fields, "model", Field(payload, "model", JNull)));
        }
        assert TurnContextEffect(before.sessionMeta, entry) == Ok(Effect(messages[|before.messages|..], sessionMeta));
      } else {
        assert messages[|before.messages|..] == [];
      }
      assert EntryEffect(before.sessionMeta, lines[i]) == Ok(Effect(messages[|before.messages|..], sessionMeta));
      assert messages == before.messages + messages[|before.messages|..];
      assert Step(before, lines[i]) == Ok(Scan(messages, sessionMeta));
      assert Fold(Step, before, lines[i..]) == Fold(Step, Scan(messages, sessionMeta), lines[i + 1..]);
    }
    assert lines[|lines|..] == [];
    var consolidated := Consolidate(messages);
    if !sessionMeta.JObj? {
      return Raised(ShapeError);
    }
    return Ok(Conversation([], consolidated, sessionId, CodexMeta(
      Field(sessionMeta, "cwd", JNull), Field(sessionMeta, "model", JNull), Field(sessionMeta, "cli_version", JNull))));
  }

  // ------------------------------------------------------------ properties

  /** Reference definition: the texts that survive the boilerplate filter, in order. */
  function Ordinary(texts: seq<string>): (r: seq<string>)
    ensures |r| <= |texts|
  {
    if texts == [] then []
    else (if Boilerplate(texts[0]) then [] else [texts[0]]) + Ordinary(texts[1..])
  }

  /** The user block loop raises exactly when one of the `input_text` texts
      is not a string. */
  lemma {:induction false} KeptRaisesOnNonString(blocks: seq<Json>)
    ensures KeptUserTexts(blocks).Ok? <==> AllStrings(TextsOfType(blocks, "input_text"))
  {
    if blocks != [] {
      KeptRaisesOnNonString(blocks[1..]);
      var rest := TextsOfType(blocks[1..], "input_text");
      if IsBlock(blocks[0], "input_text") {
        var t := Field(blocks[0], "text", JStr(""));
        assert TextsOfType(blocks, "input_text") == [t] + rest;
        AllStringsCons(t, rest);
      } else {
        assert TextsOfType(blocks, "input_text") == rest;
      }
    }
  }

  lemma AllStringsCons(t: Json, rest: seq<Json>)
    ensures AllStrings([t] + rest) <==> t.JStr? && AllStrings(rest)
  {
    if t.JStr? && AllStrings(rest) {
      forall i | 1 <= i < |rest| + 1
        ensures ([t] + rest)[i].JStr?
      {
        assert ([t] + rest)[i] == rest[i - 1];
      }
    }
    if AllStrings([t] + rest) {
      assert ([t] + rest)[0] == t;
      forall i | 0 <= i < |rest|
        ensures rest[i].JStr?
      {
        assert ([t] + rest)[i + 1] == rest[i];
      }
    }
  }

  lemma StrsCons(t: Json, rest: seq<Json>)
    requires t.JStr? && AllStrings(rest)
    ensures AllStrings([t] + rest)
    ensures Strs([t] + rest) == [t.s] + Strs(rest)
  {
    assert ([t] + rest)[1..] == rest;
  }

  /** When it succeeds, the user block loop keeps exactly the `input_text`
      texts that are not boilerplate, in block order. */
  lemma {:induction false} KeptIsFilteredInput(blocks: seq<Json>)
    requires KeptUserTexts(blocks).Ok?
    ensures AllStrings(TextsOfType(blocks, "input_text"))
    ensures KeptUserTexts(blocks).value == Ordinary(Strs(TextsOfType(blocks, "input_text")))
  {
    KeptRaisesOnNonString(blocks);
    if blocks != [] {
      KeptIsFilteredInput(blocks[1..]);
      var rest := TextsOfType(blocks[1..], "input_text");
      if IsBlock(blocks[0], "input_text") {
        var t := Field(blocks[0], "text", JStr(""));
        assert TextsOfType(blocks, "input_text") == [t] + rest;
        StrsCons(t, rest);
        assert ([t.s] + Strs(rest))[1..] == Strs(rest);
      } else {
        assert TextsOfType(blocks, "input_text") == rest;
      }
    }
  }

  /** For text that neither starts with `<` or `#` nor contains `<`, only
      the length decides: 1000 characters are kept, 1001 are dropped. */
  lemma OrdinaryTextThreshold(t: string)
    requires t == [] || (t[0] != '<' && t[0] != '#')
    requires '<' !in t
    ensures Boilerplate(t) <==> |t| > 1000
  {
    NotContainsWithoutChar(t, "<permissions instructions>", '<');
  }

  /** Markup such as a system reminder is always dropped. */
  lemma MarkupDropped(t: string)
    requires t != [] && t[0] == '<'
    ensures Boilerplate(t)
  {
  }

  /** A `function_call` payload emits exactly one assistant message with
      empty content and the single record `{name, input: arguments}`. */
  lemma FunctionCallEmitsOneCall(payload: Json, model: Json, timestamp: Json)
    requires payload.JObj? && Field(payload, "type", JNull) == JStr("function_call")
    ensures var r := ResponseItem(payload, model, timestamp);
      r.Ok? && |r.value| == 1 && r.value[0].role == Assistant && r.value[0].content == JStr("")
      && r.value[0].toolUses == Some([ToolUse(Field(payload, "name", JStr("")), Field(payload, "arguments", JStr("")))])
      && Fragment(r.value[0])
  {
  }

  /** A user `message` raises exactly when its content cannot be iterated
      or one of its `input_text` texts is not a string; otherwise it emits a
      user message exactly when some text survives the boilerplate filter,
      and that message holds the `"\n"`-join of the surviving texts. */
  lemma UserMessageEmits(payload: Json, model: Json, timestamp: Json)
    requires payload.JObj? && Field(payload, "type", JNull) == JStr("message") && Field(payload, "role", JNull) == JStr("user")
    ensures var blocks := Iterate(Field(payload, "content", JArr([])));
      var r := ResponseItem(payload, model, timestamp);
      (r.Ok? <==> blocks.Ok? && AllStrings(TextsOfType(blocks.value, "input_text")))
      && (r.Ok? ==>
        var kept := Ordinary(Strs(TextsOfType(blocks.value, "input_text")));
        r.value == if kept == [] then [] else [Plain(User, JStr(Join(kept, "\n")), timestamp)])
  {
    var blocks := Iterate(Field(payload, "content", JArr([])));
    if blocks.Ok? {
      KeptRaisesOnNonString(blocks.value);
      if KeptUserTexts(blocks.value).Ok? {
        KeptIsFilteredInput(blocks.value);
      }
    }
  }

  /** An assistant `message` raises exactly when its content cannot be
      iterated or one of its `output_text` texts is not a string; otherwise
      it emits a message exactly when some block is an `output_text` dict,
      and that message holds the `"\n"`-join of those texts and the model. */
  lemma AssistantMessageEmits(payload: Json, model: Json, timestamp: Json)
    requires payload.JObj? && Field(payload, "type", JNull) == JStr("message") && Field(payload, "role", JNull) == JStr("assistant")
    ensures var blocks := Iterate(Field(payload, "content", JArr([])));
      var r := ResponseItem(payload, model, timestamp);
      (r.Ok? <==> blocks.Ok? && AllStrings(TextsOfType(blocks.value, "output_text")))
      && (r.Ok? ==>
        (r.value != [] <==> exists i :: 0 <= i < |blocks.value| && IsBlock(blocks.value[i], "output_text"))
        && (r.value != [] ==>
          r.value == [Plain(Assistant, JStr(Join(Strs(TextsOfType(blocks.value, "output_text")), "\n")), timestamp).(model := model)]))
  {
  }

  /** Unencrypted reasoning raises exactly when its summary cannot be
      iterated or one of its `summary_text` texts is not a string; otherwise
      it emits a message exactly when the `"\n"`-join of those texts is not
      empty, with empty content and that join, stripped, as its thinking. */
  lemma SummaryReasoningEmits(payload: Json, model: Json, timestamp: Json)
    requires payload.JObj? && Field(payload, "type", JNull) == JStr("reasoning")
    requires !Truthy(Field(payload, "encrypted_content", JNull))
    ensures var parts := Iterate(Field(payload, "summary", JArr([])));
      var r := ResponseItem(payload, model, timestamp);
      (r.Ok? <==> parts.Ok? && AllStrings(TextsOfType(parts.value, "summary_text")))
      && (r.Ok? ==>
        var text := Join(Strs(TextsOfType(parts.value, "summary_text")), "\n");
        r.value == if text == "" then [] else [Plain(Assistant, JStr(""), timestamp).(thinking := Some(Strip(text)), model := model)])
  {
  }

  /** Encrypted reasoning shows the fixed placeholder, which stripping leaves as it is. */
  lemma EncryptedReasoningPlaceholder(payload: Json, model: Json, timestamp: Json)
    requires payload.JObj? && Field(payload, "type", JNull) == JStr("reasoning")
    requires Truthy(Field(payload, "encrypted_content", JNull))
    ensures var r := ResponseItem(payload, model, timestamp);
      r.Ok? && |r.value| == 1 && r.value[0].thinking == Some(EncryptedNotice) && r.value[0].content == JStr("")
  {
    assert |EncryptedNotice| == 110;
    assert EncryptedNotice[0] == '[';
    assert EncryptedNotice[109] == '.';
    StripUnpadded(EncryptedNotice);
  }

  /** Stripping a text that neither starts nor ends with whitespace leaves it as it is. */
  lemma StripUnpadded(s: string)
    requires s != [] && !IsSpace(s[0]) && !IsSpace(s[|s| - 1])
    ensures Strip(s) == s
  {
    var r := Strip(s);
    assert LeadingSpaces(s) == 0;
    assert LeadingSpaces(s) + |r| == |s|;
    assert r == s[0..|s|];
  }

  /** Reasoning whose text is only whitespace still emits a message, with
      empty content and empty thinking; it is not a fragment, so the merge
      loop keeps it as a message of its own. */
  lemma BlankReasoningKept(payload: Json, model: Json, timestamp: Json)
    requires payload.JObj? && Field(payload, "type", JNull) == JStr("reasoning")
    requires ReasoningText(payload).Ok? && ReasoningText(payload).value != []
    requires forall i :: 0 <= i < |ReasoningText(payload).value| ==> IsSpace(ReasoningText(payload).value[i])
    ensures var r := ResponseItem(payload, model, timestamp);
      r.Ok? && |r.value| == 1 && r.value[0].content == JStr("") && r.value[0].thinking == Some("")
      && !Fragment(r.value[0])
  {
  }

  /** A `turn_context` entry with a truthy model overwrites only the running
      `model`; every other key keeps its value. */
  lemma TurnContextSetsOnlyModel(meta: Json, entry: Json)
    requires meta.JObj? && entry.JObj? && Field(entry, "type", JNull) == JStr("turn_context")
    requires Field(entry, "payload", JObj([])).JObj?
    requires Truthy(Field(Field(entry, "payload", JObj([])), "model", JNull))
    ensures var r := EntryEffect(meta, Some(entry));
      r.Ok? && r.value.emitted == [] && r.value.meta.JObj?
      && Lookup(r.value.meta.fields, "model") == Some(Field(Field(entry, "payload", JObj([])), "model", JNull))
      && forall k :: k != "model" ==> Lookup(r.value.meta.fields, k) == Lookup(meta.fields, k)
  {
  }

  /** Lines that are not JSON are skipped without affecting the rest of the file. */
  lemma SkipsUndecodableLine(a: Lines, b: Lines, sessionId: string)
    ensures CodexConversation(a + [None] + b, sessionId) == CodexConversation(a + b, sessionId)
  {
    forall t: Scan ensures Step(t, None) == Ok(t) {
      assert t.messages + [] == t.messages;
    }
    FoldSkip(Step, Start, a, None, b);
  }

  /** `r` with `pre` in front of its messages. */
  function WithPrefix(pre: seq<Message>, r: Result<Scan>): Result<Scan> {
    match r
    case Raised(e) => Raised(e)
    case Ok(s) => Ok(Scan(pre + s.messages, s.sessionMeta))
  }

  /** The loop from any state is the loop from that state's metadata alone,
      with the earlier messages in front: what a line does depends on the
      metadata only. */
  lemma StepFromState(st: Scan, x: Option<Json>)
    ensures Step(st, x) == WithPrefix(st.messages, Step(Scan([], st.sessionMeta), x))
  {
    match EntryEffect(st.sessionMeta, x)
    case Raised(_) =>
    case Ok(e) =>
      assert [] + e.emitted == e.emitted;
  }

  lemma WithPrefixTwice(a: seq<Message>, b: seq<Message>, r: Result<Scan>)
    ensures WithPrefix(a, WithPrefix(b, r)) == WithPrefix(a + b, r)
  {
    match r
    case Raised(_) =>
    case Ok(v) =>
      assert (a + b) + v.messages == a + (b + v.messages);
  }

  lemma {:induction false} FoldFromState(st: Scan, lines: Lines)
    ensures Fold(Step, st, lines) == WithPrefix(st.messages, Fold(Step, Scan([], st.sessionMeta), lines))
    decreases |lines|
  {
    var st0 := Scan([], st.sessionMeta);
    StepFromState(st, if lines == [] then None else lines[0]);
    if lines == [] {
      assert st.messages + [] == st.messages;
    } else if Step(st0, lines[0]).Ok? {
      var u := Step(st0, lines[0]).value;
      var t := Scan(st.messages + u.messages, u.sessionMeta);
      assert Fold(Step, st, lines) == Fold(Step, t, lines[1..]);
      assert Fold(Step, st0, lines) == Fold(Step, u, lines[1..]);
      FoldFromState(t, lines[1..]);
      FoldFromState(u, lines[1..]);
      WithPrefixTwice(st.messages, u.messages, Fold(Step, Scan([], u.sessionMeta), lines[1..]));
    }
  }

  /** A `session_meta` entry replaces the running metadata wholesale: the
      lines before it do not affect the `meta` the parse reports. */
  lemma StepSessionMeta(st: Scan, entry: Json, rest: Lines)
    requires entry.JObj? && Field(entry, "type", JNull) == JStr("session_meta")
    ensures Fold(Step, st, [Some(entry)] + rest) == Fold(Step, Scan(st.messages, Field(entry, "payload", JObj([]))), rest)
  {
    assert ([Some(entry)] + rest)[1..] == rest;
    assert EntryEffect(st.sessionMeta, Some(entry)) == Ok(Effect([], Field(entry, "payload", JObj([]))));
    assert st.messages + [] == st.messages;
  }

  lemma SessionMetaForgetsEarlierLines(a: Lines, entry: Json, b: Lines, sessionId: string)
    requires entry.JObj? && Field(entry, "type", JNull) == JStr("session_meta")
    requires CodexConversation(a + [Some(entry)] + b, sessionId).Ok?
    ensures CodexConversation([Some(entry)] + b, sessionId).Ok?
    ensures CodexConversation(a + [Some(entry)] + b, sessionId).value.meta
         == CodexConversation([Some(entry)] + b, sessionId).value.meta
  {
    var x := Some(entry);
    var payload := Field(entry, "payload", JObj([]));
    assert a + [x] + b == a + ([x] + b);
    FoldAppend(Step, Start, a, [x] + b);
    var t := Fold(Step, Start, a).value;
    StepSessionMeta(t, entry, b);
    StepSessionMeta(Start, entry, b);
    FoldFromState(Scan(t.messages, payload), b);
  }

  // ----------------------------------------------------- consolidation facts

  /** Reference definition: the user messages, in order. */
  function Users(ms: seq<Message>): seq<Message> {
    if ms == [] then []
    else Users(ms[..|ms| - 1]) + (if ms[|ms| - 1].role == User then [ms[|ms| - 1]] else [])
  }

  /** Reference definition: all tool records, message by message, in order. */
  function AllTools(ms: seq<Message>): seq<ToolUse> {
    if ms == [] then [] else AllTools(ms[..|ms| - 1]) + ToolsOf(ms[|ms| - 1])
  }

  /** The thinking text of a message when it is truthy, as a list of zero or one texts. */
  function ThoughtOf(m: Message): seq<string> {
    if HasThinking(m) then [m.thinking.value] else []
  }

  /** Reference definition: the truthy thinking texts, message by message, in order. */
  function Thoughts(ms: seq<Message>): seq<string> {
    if ms == [] then [] else Thoughts(ms[..|ms| - 1]) + ThoughtOf(ms[|ms| - 1])
  }

  /** A message that does not carry both tool calls and thinking. */
  predicate SingleKind(m: Message) {
    !(HasTools(m) && HasThinking(m))
  }

  /** The number of fragments that directly follow an assistant message. */
  function Merges(ms: seq<Message>): nat {
    if |ms| <= 1 then 0
    else Merges(ms[..|ms| - 1]) + (if Fragment(ms[|ms| - 1]) && ms[|ms| - 2].role == Assistant then 1 else 0)
  }

  /** A message that is not a fragment following an assistant message is appended as it is. */
  lemma AbsorbAppends(acc: seq<Message>, m: Message)
    requires !(acc != [] && acc[|acc| - 1].role == Assistant && Fragment(m))
    ensures Absorb(acc, m) == acc + [m]
  {
  }

  /** A fragment after an assistant message rewrites only that message: it
      stays an assistant message with the same content, timestamp and every
      other field; a fragment with tool calls extends its tool records and
      leaves its thinking alone; any other fragment leaves its tool records
      alone and sets its thinking to the old thinking, a newline and the
      fragment's thinking, or to the fragment's thinking when the old one is
      empty or absent. */
  lemma AbsorbMerged(acc: seq<Message>, m: Message)
    requires acc != [] && acc[|acc| - 1].role == Assistant && Fragment(m)
    ensures |Absorb(acc, m)| == |acc|
    ensures Absorb(acc, m)[..|acc| - 1] == acc[..|acc| - 1]
    ensures Absorb(acc, m)[|acc| - 1] ==
      acc[|acc| - 1].(thinking := Absorb(acc, m)[|acc| - 1].thinking, toolUses := Absorb(acc, m)[|acc| - 1].toolUses)
    ensures HasTools(m) ==>
      Absorb(acc, m)[|acc| - 1].toolUses == Some(ToolsOf(acc[|acc| - 1]) + ToolsOf(m)) &&
      Absorb(acc, m)[|acc| - 1].thinking == acc[|acc| - 1].thinking
    ensures !HasTools(m) ==>
      Absorb(acc, m)[|acc| - 1].toolUses == acc[|acc| - 1].toolUses &&
      Absorb(acc, m)[|acc| - 1].thinking ==
        Some(if HasThinking(acc[|acc| - 1]) then acc[|acc| - 1].thinking.value + "\n" + m.thinking.value else m.thinking.value)
    ensures ToolsOf(Absorb(acc, m)[|acc| - 1]) == ToolsOf(acc[|acc| - 1]) + ToolsOf(m)
  {
    if !HasTools(m) {
      assert ToolsOf(m) == [];
      assert ToolsOf(acc[|acc| - 1]) + [] == ToolsOf(acc[|acc| - 1]);
    }
  }

  /** How one merge step changes the user messages, the tool records and the length. */
  lemma AbsorbFacts(acc: seq<Message>, m: Message)
    ensures Users(Absorb(acc, m)) == Users(acc) + (if m.role == User then [m] else [])
    ensures AllTools(Absorb(acc, m)) == AllTools(acc) + ToolsOf(m)
    ensures |Absorb(acc, m)| == |acc| + (if acc != [] && acc[|acc| - 1].role == Assistant && Fragment(m) then 0 else 1)
  {
    var r := Absorb(acc, m);
    if acc != [] && acc[|acc| - 1].role == Assistant && Fragment(m) {
      AbsorbMerged(acc, m);
      var init := acc[..|acc| - 1];
      assert r[..|r| - 1] == init;
      assert Users(r) == Users(init) + [];
      assert AllTools(r) == AllTools(init) + ToolsOf(r[|r| - 1]);
      AppendAssociative(AllTools(init), ToolsOf(acc[|acc| - 1]), ToolsOf(m));
    } else {
      AbsorbAppends(acc, m);
      assert r[..|r| - 1] == acc;
    }
  }

  /** Merging never drops, alters or reorders a user message. */
  lemma {:induction false} ConsolidationKeepsUsers(ms: seq<Message>)
    ensures Users(Consolidated(ms)) == Users(ms)
  {
    if ms != [] {
      ConsolidationKeepsUsers(ms[..|ms| - 1]);
      AbsorbFacts(Consolidated(ms[..|ms| - 1]), ms[|ms| - 1]);
    }
  }

  /** Merging keeps every tool record, in order. */
  lemma {:induction false} ConsolidationKeepsTools(ms: seq<Message>)
    ensures AllTools(Consolidated(ms)) == AllTools(ms)
  {
    if ms != [] {
      ConsolidationKeepsTools(ms[..|ms| - 1]);
      AbsorbFacts(Consolidated(ms[..|ms| - 1]), ms[|ms| - 1]);
    }
  }

  /** One merge step keeps the newline-joined thinking texts, with the new
      message's text at the end, provided that message does not carry both
      tool calls and thinking. */
  lemma ThoughtsAbsorb(acc: seq<Message>, m: Message)
    requires SingleKind(m)
    ensures Join(Thoughts(Absorb(acc, m)), "\n") == Join(Thoughts(acc) + ThoughtOf(m), "\n")
    ensures Thoughts(Absorb(acc, m)) == [] <==> Thoughts(acc) + ThoughtOf(m) == []
  {
    var r := Absorb(acc, m);
    if acc != [] && acc[|acc| - 1].role == Assistant && Fragment(m) {
      AbsorbMerged(acc, m);
      var init := acc[..|acc| - 1];
      var p := acc[|acc| - 1];
      var q := r[|r| - 1];
      assert r[..|r| - 1] == init;
      assert Thoughts(r) == Thoughts(init) + ThoughtOf(q);
      assert Thoughts(acc) == Thoughts(init) + ThoughtOf(p);
      if HasTools(m) {
        assert Thoughts(r) == Thoughts(acc) + ThoughtOf(m);
      } else if HasThinking(p) {
        var x := m.thinking.value;
        assert ThoughtOf(q) == [p.thinking.value + "\n" + x];
        JoinExtendLast(Thoughts(init), p.thinking.value, x, "\n");
        JoinSnoc(Thoughts(acc), x, "\n");
      } else {
        assert Thoughts(r) == Thoughts(acc) + ThoughtOf(m);
      }
    } else {
      AbsorbAppends(acc, m);
      assert r[..|r| - 1] == acc;
    }
  }

  /** Merging keeps every truthy thinking text, in order: joined with
      newlines, the thinking of the merged list is that of the input, and
      it has some exactly when the input has some. This holds when no
      message carries both tool calls and thinking, as no message of the
      line loop does (EmittedSingleKind). */
  lemma {:induction false} ConsolidationKeepsThinking(ms: seq<Message>)
    requires AllSingleKind(ms)
    ensures Join(Thoughts(Consolidated(ms)), "\n") == Join(Thoughts(ms), "\n")
    ensures Thoughts(Consolidated(ms)) == [] <==> Thoughts(ms) == []
  {
    if ms != [] {
      var init := ms[..|ms| - 1];
      var m := ms[|ms| - 1];
      ConsolidationKeepsThinking(init);
      ThoughtsAbsorb(Consolidated(init), m);
      JoinSameAppend(Thoughts(Consolidated(init)), Thoughts(init), ThoughtOf(m), "\n");
    }
  }

  /** Exactly the fragments that directly follow an assistant message are merged away. */
  lemma {:induction false} ConsolidationLength(ms: seq<Message>)
    ensures |Consolidated(ms)| + Merges(ms) == |ms|
  {
    if ms != [] {
      var init := ms[..|ms| - 1];
      ConsolidationLength(init);
      AbsorbFacts(Consolidated(init), ms[|ms| - 1]);
      if |ms| > 1 {
        assert init[|init| - 1] == ms[|ms| - 2];
      }
    }
  }

  /** With no fragment after an assistant message, merging changes nothing. */
  lemma {:induction false} NoMergesNoChange(ms: seq<Message>)
    requires Merges(ms) == 0
    ensures Consolidated(ms) == ms
  {
    if ms != [] {
      var init := ms[..|ms| - 1];
      var last := ms[|ms| - 1];
      assert Consolidated(init) == init by {
        if |ms| > 1 {
          assert Merges(init) == 0;
          NoMergesNoChange(init);
        }
      }
      assert !(init != [] && init[|init| - 1].role == Assistant && Fragment(last)) by {
        if |ms| > 1 {
          assert init[|init| - 1] == ms[|ms| - 2];
        }
      }
      AbsorbAppends(init, last);
      assert init + [last] == ms;
    }
  }

  /** No message of `ms` carries both tool calls and thinking. */
  predicate AllSingleKind(ms: seq<Message>) {
    forall i :: 0 <= i < |ms| ==> SingleKind(ms[i])
  }

  lemma UserItemSingleKind(payload: Json, timestamp: Json)
    requires payload.JObj?
    ensures UserItem(payload, timestamp).Ok? ==> AllSingleKind(UserItem(payload, timestamp).value)
  {
  }

  lemma AssistantItemSingleKind(payload: Json, model: Json, timestamp: Json)
    requires payload.JObj?
    ensures AssistantItem(payload, model, timestamp).Ok? ==> AllSingleKind(AssistantItem(payload, model, timestamp).value)
  {
  }

  lemma ReasoningItemSingleKind(payload: Json, model: Json, timestamp: Json)
    requires payload.JObj?
    ensures ReasoningItem(payload, model, timestamp).Ok? ==> AllSingleKind(ReasoningItem(payload, model, timestamp).value)
  {
  }

  /** A `response_item` entry emits no message that carries both tool calls and thinking. */
  lemma ResponseItemSingleKind(payload: Json, model: Json, timestamp: Json)
    requires payload.JObj?
    ensures ResponseItem(payload, model, timestamp).Ok? ==> AllSingleKind(ResponseItem(payload, model, timestamp).value)
  {
    UserItemSingleKind(payload, timestamp);
    AssistantItemSingleKind(payload, model, timestamp);
    ReasoningItemSingleKind(payload, model, timestamp);
  }

  lemma ResponseItemEffectSingleKind(meta: Json, entry: Json)
    requires entry.JObj?
    ensures ResponseItemEffect(meta, entry).Ok? ==> AllSingleKind(ResponseItemEffect(meta, entry).value.emitted)
  {
    var payload := Field(entry, "payload", JObj([]));
    if payload.JObj? && meta.JObj? {
      ResponseItemSingleKind(payload, Field(meta, "model_provider", JStr("openai")), Field(entry, "timestamp", JNull));
    }
  }

  lemma EventEffectSingleKind(meta: Json, entry: Json)
    requires entry.JObj?
    ensures EventEffect(meta, entry).Ok? ==> AllSingleKind(EventEffect(meta, entry).value.emitted)
  {
  }

  lemma TurnContextEffectEmpty(meta: Json, entry: Json)
    requires entry.JObj?
    ensures TurnContextEffect(meta, entry).Ok? ==> TurnContextEffect(meta, entry).value.emitted == []
  {
  }

  /** No line emits a message that carries both tool calls and thinking. */
  lemma EmittedSingleKind(meta: Json, line: Option<Json>)
    ensures EntryEffect(meta, line).Ok? ==> AllSingleKind(EntryEffect(meta, line).value.emitted)
  {
    if line.Some? && Get(line.value, "type", JNull).Ok? {
      var entry := line.value;
      var entryType := Get(entry, "type", JNull).value;
      if entryType == JStr("response_item") {
        ResponseItemEffectSingleKind(meta, entry);
        assert EntryEffect(meta, line) == ResponseItemEffect(meta, entry);
      } else if entryType == JStr("event_msg") {
        EventEffectSingleKind(meta, entry);
        assert EntryEffect(meta, line) == EventEffect(meta, entry);
      } else if entryType == JStr("turn_context") {
        TurnContextEffectEmpty(meta, entry);
      }
    }
  }

  /** Merging loses no thinking text of a parsed file: the messages of the
      conversation, joined by their thinking with newlines, give the same
      text as the messages the line loop emitted. */
  lemma CodexThinkingKept(lines: Lines, sessionId: string)
    requires CodexConversation(lines, sessionId).Ok?
    ensures Join(Thoughts(CodexConversation(lines, sessionId).value.messages), "\n") ==
      Join(Thoughts(Fold(Step, Start, lines).value.messages), "\n")
  {
    var single := (st: Scan) => AllSingleKind(st.messages);
    forall t: Scan, x: Option<Json> | single(t) && Step(t, x).Ok?
      ensures single(Step(t, x).value)
    {
      EmittedSingleKind(t.sessionMeta, x);
      var e := EntryEffect(t.sessionMeta, x).value;
      var ms := Step(t, x).value.messages;
      assert ms == t.messages + e.emitted;
      forall i | 0 <= i < |ms|
        ensures SingleKind(ms[i])
      {
        if i >= |t.messages| {
          assert ms[i] == e.emitted[i - |t.messages|];
        }
      }
    }
    FoldInvariant(Step, single, Start, lines);
    ConsolidationKeepsThinking(Fold(Step, Start, lines).value.messages);
  }

  /** One turn logged as text, a tool call and reasoning becomes one message. */
  lemma TurnCollapses(text: Message, call: Message, reasoning: Message, record: ToolUse)
    requires text == Plain(Assistant, JStr("A"), JNull)
    requires call == Plain(Assistant, JStr(""), JNull).(toolUses := Some([record]))
    requires reasoning == Plain(Assistant, JStr(""), JNull).(thinking := Some("R"))
    ensures Consolidated([text, call, reasoning]) == [text.(toolUses := Some([record]), thinking := Some("R"))]
  {
    assert [text, call, reasoning][..2] == [text, call];
    assert [text, call][..1] == [text];
    assert [text][..0] == [];
    var one := Consolidated([text]);
    assert one == [text];
    var two := Consolidated([text, call]);
    assert two == [text.(toolUses := Some([] + [record]))];
    assert [] + [record] == [record];
  }
}
