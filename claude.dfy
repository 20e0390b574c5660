/** The Claude Code session format: one JSON entry per line, dispatched on
    its `type`. */
module ClaudeParser {
  import opened Wrappers
  import opened Text
  import opened JsonModel
  import opened Schema
  import opened Folds

  // ---------------------------------------------------------------- user entries

  /** The text a user content block contributes, if any: the `text` of a
      `text` block (default ""), or a bare string itself. */
  function UserBlockText(block: Json): (r: Option<Json>)
    ensures r.Some? <==> (block.JObj? && Field(block, "type", JNull) == JStr("text")) || block.JStr?
  {
    if block.JObj? && Field(block, "type", JNull) == JStr("text") then Some(Field(block, "text", JStr("")))
    else if block.JStr? then Some(block)
    else None
  }

  /** `UserBlockText` as a list of zero or one texts. */
  function UserBlockTexts(block: Json): seq<Json> {
    match UserBlockText(block) case Some(t) => [t] case None => []
  }

  /** The texts of a user content list, in block order. */
  function UserTextParts(blocks: seq<Json>): (r: seq<Json>)
    ensures |r| <= |blocks|
  {
    if blocks == [] then [] else UserBlockTexts(blocks[0]) + UserTextParts(blocks[1..])
  }

  lemma UserTextPartsNext(acc: seq<Json>, blocks: seq<Json>)
    requires blocks != []
    ensures acc + UserTextParts(blocks) == (acc + UserBlockTexts(blocks[0])) + UserTextParts(blocks[1..])
  {
  }

  /** The inner loop over a user content list. */
  method CollectUserText(blocks: seq<Json>) returns (textParts: seq<Json>)
    ensures textParts == UserTextParts(blocks)
  {
    textParts := [];
    for i := 0 to |blocks|
      invariant textParts + UserTextParts(blocks[i..]) == UserTextParts(blocks)
    {
      var block := blocks[i];
      UserTextPartsNext(textParts, blocks[i..]);
      assert blocks[i..][1..] == blocks[i + 1..];
      if block.JObj? && Field(block, "type", JNull) == JStr("text") {
        textParts := textParts + [Field(block, "text", JStr(""))];
      } else if block.JStr? {
        textParts := textParts + [block];
      } else {
        assert textParts + UserBlockTexts(block) == textParts;
      }
    }
    assert blocks[|blocks|..] == [];
  }

  /** A list content becomes the `"\n"`-join of its texts; any other content
      is kept as it is. */
  function FlattenUserContent(content: Json): (r: Result<Json>)
    ensures !content.JArr? ==> r == Ok(content)
    ensures content.JArr? ==> (r.Ok? <==> AllStrings(UserTextParts(content.items)))
    ensures content.JArr? && r.Ok? ==> r.value == JStr(Join(Strs(UserTextParts(content.items)), "\n"))
  {
    if content.JArr? then
      var s :- JoinStrs(UserTextParts(content.items), "\n");
      Ok(JStr(s))
    else Ok(content)
  }

  /** The message a `user` entry yields: it fails exactly when `message` is
      not a dict or its content cannot be flattened; otherwise its content is
      the flattened `message.content` (default ""), and it carries the
      entry's timestamp, uuid, cwd and git branch, with no thinking and no
      tool uses. */
  function UserMessage(entry: Json): (r: Result<Message>)
    requires entry.JObj?
    ensures r.Ok? <==>
      Field(entry, "message", JObj([])).JObj? && FlattenUserContent(Field(Field(entry, "message", JObj([])), "content", JStr(""))).Ok?
    ensures r.Ok? ==> FlattenUserContent(Field(Field(entry, "message", JObj([])), "content", JStr(""))) == Ok(r.value.content)
    ensures r.Ok? ==> r.value.role == User && r.value.timestamp == Field(entry, "timestamp", JNull)
    ensures r.Ok? ==>
      r.value.uuid == Field(entry, "uuid", JNull) && r.value.cwd == Field(entry, "cwd", JNull) && r.value.gitBranch == Field(entry, "gitBranch", JNull)
    ensures r.Ok? ==> r.value.thinking.None? && r.value.toolUses.None?
  {
    var msg := Field(entry, "message", JObj([]));
    var raw :- Get(msg, "content", JStr(""));
    var content :- FlattenUserContent(raw);
    Ok(Plain(User, content, Field(entry, "timestamp", JNull)).(
      uuid := Field(entry, "uuid", JNull),
      cwd := Field(entry, "cwd", JNull),
      gitBranch := Field(entry, "gitBranch", JNull)))
  }

  // ----------------------------------------------------------- assistant entries

  /** What the assistant block loop collects. */
  datatype Parts = Parts(texts: seq<Json>, thinkings: seq<Json>, tools: seq<ToolUse>) {
    function Then(other: Parts): Parts {
      Parts(texts + other.texts, thinkings + other.thinkings, tools + other.tools)
    }
  }

  lemma ThenAssociative(a: Parts, b: Parts, c: Parts)
    ensures a.Then(b).Then(c) == a.Then(b.Then(c))
  {
    assert (a.texts + b.texts) + c.texts == a.texts + (b.texts + c.texts);
    assert (a.thinkings + b.thinkings) + c.thinkings == a.thinkings + (b.thinkings + c.thinkings);
    assert (a.tools + b.tools) + c.tools == a.tools + (b.tools + c.tools);
  }

  const NoParts := Parts([], [], [])

  /** The tool record of a `tool_use` block. */
  function ToolRecord(block: Json): ToolUse
    requires block.JObj?
  {
    ToolUse(Field(block, "name", JStr("")), Field(block, "input", JObj([])))
  }

  /** What one assistant content block contributes; non-dict blocks and
      unknown types contribute nothing. */
  function BlockParts(block: Json): (r: Parts)
    ensures r.texts != [] <==> IsBlock(block, "text")
    ensures r.thinkings != [] <==> IsBlock(block, "thinking")
    ensures r.tools != [] <==> IsBlock(block, "tool_use")
  {
    if !block.JObj? then NoParts
    else
      var t := Field(block, "type", JNull);
      if t == JStr("text") then Parts([Field(block, "text", JStr(""))], [], [])
      else if t == JStr("thinking") then Parts([], [Field(block, "thinking", JStr(""))], [])
      else if t == JStr("tool_use") then Parts([], [], [ToolRecord(block)])
      else NoParts
  }

  /** The parts of all blocks, each list in block order. */
  function PartsOf(blocks: seq<Json>): Parts {
    if blocks == [] then NoParts else BlockParts(blocks[0]).Then(PartsOf(blocks[1..]))
  }

  /** The assistant block loop: appends each block's text, thinking or tool record. */
  method SortAssistantBlocks(blocks: seq<Json>) returns (textContent: seq<Json>, thinkingContent: seq<Json>, toolUses: seq<ToolUse>)
    ensures Parts(textContent, thinkingContent, toolUses) == PartsOf(blocks)
  {
    textContent, thinkingContent, toolUses := [], [], [];
    for i := 0 to |blocks|
      invariant Parts(textContent, thinkingContent, toolUses).Then(PartsOf(blocks[i..])) == PartsOf(blocks)
    {
      var block := blocks[i];
      assert PartsOf(blocks[i..]) == BlockParts(block).Then(PartsOf(blocks[i + 1..]));
      ThenAssociative(Parts(textContent, thinkingContent, toolUses), BlockParts(block), PartsOf(blocks[i + 1..]));
      ghost var before := Parts(textContent, thinkingContent, toolUses);
      if block.JObj? {
        var blockType := Field(block, "type", JNull);
        if blockType == JStr("text") {
          textContent := textContent + [Field(block, "text", JStr(""))];
        } else if blockType == JStr("thinking") {
          thinkingContent := thinkingContent + [Field(block, "thinking", JStr(""))];
        } else if blockType == JStr("tool_use") {
          toolUses := toolUses + [ToolRecord(block)];
        }
      }
      assert Parts(textContent, thinkingContent, toolUses) == before.Then(BlockParts(block));
    }
    assert blocks[|blocks|..] == [];
  }

  /** The blocks an assistant entry's `message.content` iterates over. */
  function AssistantBlocks(entry: Json): Result<seq<Json>>
    requires entry.JObj?
  {
    var content :- Get(Field(entry, "message", JObj([])), "content", JArr([]));
    Iterate(content)
  }

  /** The message an `assistant` entry yields: it fails exactly when its
      content blocks cannot be read or one of its texts or thinkings is not
      a string; otherwise it carries the entry's timestamp and uuid and the
      message's model and usage. */
  function AssistantMessage(entry: Json): (r: Result<Message>)
    requires entry.JObj?
    ensures r.Ok? <==>
      AssistantBlocks(entry).Ok?
      && AllStrings(PartsOf(AssistantBlocks(entry).value).texts)
      && AllStrings(PartsOf(AssistantBlocks(entry).value).thinkings)
    ensures r.Ok? ==> r.value.role == Assistant && r.value.timestamp == Field(entry, "timestamp", JNull)
    ensures r.Ok? ==>
      r.value.uuid == Field(entry, "uuid", JNull)
      && r.value.model == Field(Field(entry, "message", JObj([])), "model", JNull)
      && r.value.usage == Field(Field(entry, "message", JObj([])), "usage", JNull)
  {
    var msg := Field(entry, "message", JObj([]));
    var raw :- Get(msg, "content", JArr([]));
    var blocks :- Iterate(raw);
    var p := PartsOf(blocks);
    var content :- JoinStrs(p.texts, "\n");
    var thinking :- JoinLinesIfAny(p.thinkings);
    Ok(Plain(Assistant, JStr(content), Field(entry, "timestamp", JNull)).(
      thinking := thinking,
      toolUses := if p.tools == [] then None else Some(p.tools),
      uuid := Field(entry, "uuid", JNull),
      model := Field(msg, "model", JNull),
      usage := Field(msg, "usage", JNull)))
  }

  // ------------------------------------------------------------------ the line loop

  /** The two lists the line loop grows. */
  datatype Scan = Scan(summaries: seq<Json>, messages: seq<Message>)

  /** One line of the file. A line that is not JSON is skipped; any other
      exception ends the parse. */
  function Step(st: Scan, line: Option<Json>): Result<Scan> {
    match line
    case None => Ok(st)
    case Some(entry) =>
      var entryType :- Get(entry, "type", JNull);
      if entryType == JStr("summary") then
        Ok(st.(summaries := st.summaries + [Field(entry, "summary", JStr(""))]))
      else if entryType == JStr("user") then
        var m :- UserMessage(entry);
        Ok(st.(messages := st.messages + [m]))
      else if entryType == JStr("assistant") then
        var m :- AssistantMessage(entry);
        Ok(st.(messages := st.messages + [m]))
      else Ok(st)
  }

  /** `parse_claude_conversation` on the decoded lines of a file. */
  function ClaudeConversation(lines: Lines, sessionId: string): Result<Conversation> {
    var st :- Fold(Step, Scan([], []), lines);
    Ok(Conversation(st.summaries, st.messages, sessionId, NoMeta))
  }

  /** The line loop of `parse_claude_conversation`. */
  method ParseClaudeConversation(lines: Lines, sessionId: string) returns (r: Result<Conversation>)
    ensures r == ClaudeConversation(lines, sessionId)
  {
    var summaries: seq<Json> := [];
    var messages: seq<Message> := [];
    for i := 0 to |lines|
      invariant Fold(Step, Scan([], []), lines) == Fold(Step, Scan(summaries, messages), lines[i..])
    {
      assert lines[i..] == [lines[i]] + lines[i + 1..];
      var line := lines[i];
      if line.None? {
        continue;
      }
      var entry := line.value;
      if !entry.JObj? {
        return Raised(ShapeError);
      }
      var entryType := Field(entry, "type", JNull);
      if entryType == JStr("summary") {
        summaries := summaries + [Field(entry, "summary", JStr(""))];
      } else if entryType == JStr("user") {
        var msg := Field(entry, "message", JObj([]));
        if !msg.JObj? {
          return Raised(ShapeError);
        }
        var content := Field(msg, "content", JStr(""));
        if content.JArr? {
          var textParts := CollectUserText(content.items);
          if !AllStrings(textParts) {
            return Raised(ShapeError);
          }
          content := JStr(Join(Strs(textParts), "\n"));
        }
        messages := messages + [Plain(User, content, Field(entry, "timestamp", JNull)).(
          uuid := Field(entry, "uuid", JNull),
          cwd := Field(entry, "cwd", JNull),
          gitBranch := Field(entry, "gitBranch", JNull))];
      } else if entryType == JStr("assistant") {
        var msg := Field(entry, "message", JObj([]));
        if !msg.JObj? {
          return Raised(ShapeError);
        }
        var contentBlocks := Iterate(Field(msg, "content", JArr([])));
        if contentBlocks.Raised? {
          return Raised(contentBlocks.exc);
        }
        var textContent, thinkingContent, toolUses := SortAssistantBlocks(contentBlocks.value);
        if !AllStrings(textContent) || !AllStrings(thinkingContent) {
          return Raised(ShapeError);
        }
        messages := messages + [Plain(Assistant, JStr(Join(Strs(textContent), "\n")), Field(entry, "timestamp", JNull)).(
          thinking := if thinkingContent != [] then Some(Join(Strs(thinkingContent), "\n")) else None,
          toolUses := if toolUses != [] then Some(toolUses) else None,
          uuid := Field(entry, "uuid", JNull),
          model := Field(msg, "model", JNull),
          usage := Field(msg, "usage", JNull))];
      }
    }
    assert lines[|lines|..] == [];
    return Ok(Conversation(summaries, messages, sessionId, NoMeta));
  }

  // -------------------------------------------------------------- properties

  /** The `type` of a decoded dict line (`None` for anything else). */
  function EntryType(line: Option<Json>): Json {
    if line.Some? && line.value.JObj? then Field(line.value, "type", JNull) else JNull
  }

  /** A line that leaves both lists alone: not JSON, or a dict of another type. */
  predicate Inert(line: Option<Json>) {
    line.None? || (line.value.JObj? && EntryType(line) !in {JStr("summary"), JStr("user"), JStr("assistant")})
  }

  /** Lines that are not JSON, and entries of any other type, are skipped
      without affecting the rest of the file. */
  lemma SkipsInertLine(a: Lines, x: Option<Json>, b: Lines, sessionId: string)
    requires Inert(x)
    ensures ClaudeConversation(a + [x] + b, sessionId) == ClaudeConversation(a + b, sessionId)
  {
    forall t: Scan ensures Step(t, x) == Ok(t) {
    }
    FoldSkip(Step, Scan([], []), a, x, b);
  }

  /** Whether a line can be processed (it is not JSON, or it is a dict whose
      entry does not make Python raise). */
  predicate LineParses(line: Option<Json>) {
    Step(Scan([], []), line).Ok?
  }

  /** The role of the message a line yields, if it yields one. */
  function LineRoles(line: Option<Json>): seq<Role> {
    var t := EntryType(line);
    if t == JStr("user") then [User] else if t == JStr("assistant") then [Assistant] else []
  }

  /** The summary text a line yields, if it is a summary entry. */
  function LineSummaries(line: Option<Json>): seq<Json> {
    if EntryType(line) == JStr("summary") then [Field(line.value, "summary", JStr(""))] else []
  }

  /** The message a line yields: the user or assistant message of its entry
      when that can be built, none otherwise. */
  function LineMessages(line: Option<Json>): seq<Message> {
    var t := EntryType(line);
    if t == JStr("user") && UserMessage(line.value).Ok? then [UserMessage(line.value).value]
    else if t == JStr("assistant") && AssistantMessage(line.value).Ok? then [AssistantMessage(line.value).value]
    else []
  }

  /** Reference definition: the message each line yields, in file order. */
  function FileMessages(lines: Lines): seq<Message> {
    if lines == [] then [] else LineMessages(lines[0]) + FileMessages(lines[1..])
  }

  /** Reference definition: the role of the message each line yields, in file order. */
  function EntryRoles(lines: Lines): seq<Role> {
    if lines == [] then [] else LineRoles(lines[0]) + EntryRoles(lines[1..])
  }

  /** Reference definition: the `summary` text of every summary entry, in file order. */
  function SummaryTexts(lines: Lines): seq<Json> {
    if lines == [] then [] else LineSummaries(lines[0]) + SummaryTexts(lines[1..])
  }

  /** Whether a step succeeds does not depend on the lists built so far, and
      a successful step appends exactly the line's summary and role. */
  lemma StepShape(st: Scan, line: Option<Json>)
    ensures Step(st, line).Ok? == LineParses(line)
    ensures Step(st, line).Ok? ==>
      var t := Step(st, line).value;
      Roles(t.messages) == Roles(st.messages) + LineRoles(line)
      && t.summaries == st.summaries + LineSummaries(line)
    ensures Step(st, line).Ok? ==> Step(st, line).value.messages == st.messages + LineMessages(line)
  {
    if line.Some? && line.value.JObj? {
      var entry := line.value;
      var t := Field(entry, "type", JNull);
      if t == JStr("user") && UserMessage(entry).Ok? {
        RolesSnoc(st.messages, UserMessage(entry).value);
      } else if t == JStr("assistant") && AssistantMessage(entry).Ok? {
        RolesSnoc(st.messages, AssistantMessage(entry).value);
      }
    }
  }

  lemma {:induction false} FoldSucceeds(st: Scan, lines: Lines)
    ensures Fold(Step, st, lines).Ok? <==> forall i :: 0 <= i < |lines| ==> LineParses(lines[i])
    decreases |lines|
  {
    if lines != [] {
      StepShape(st, lines[0]);
      if Step(st, lines[0]).Ok? {
        FoldSucceeds(Step(st, lines[0]).value, lines[1..]);
        assert forall i :: 1 <= i < |lines| ==> lines[i] == lines[1..][i - 1];
      }
    }
  }

  lemma {:induction false} FoldContents(st: Scan, lines: Lines)
    requires Fold(Step, st, lines).Ok?
    ensures var t := Fold(Step, st, lines).value;
      Roles(t.messages) == Roles(st.messages) + EntryRoles(lines)
      && t.summaries == st.summaries + SummaryTexts(lines)
      && t.messages == st.messages + FileMessages(lines)
    decreases |lines|
  {
    if lines != [] {
      StepShape(st, lines[0]);
      var t := Step(st, lines[0]).value;
      assert Fold(Step, st, lines) == Fold(Step, t, lines[1..]);
      FoldContents(t, lines[1..]);
      assert EntryRoles(lines) == LineRoles(lines[0]) + EntryRoles(lines[1..]);
      assert SummaryTexts(lines) == LineSummaries(lines[0]) + SummaryTexts(lines[1..]);
      AppendAssociative(Roles(st.messages), LineRoles(lines[0]), EntryRoles(lines[1..]));
      AppendAssociative(st.summaries, LineSummaries(lines[0]), SummaryTexts(lines[1..]));
      assert FileMessages(lines) == LineMessages(lines[0]) + FileMessages(lines[1..]);
      AppendAssociative(st.messages, LineMessages(lines[0]), FileMessages(lines[1..]));

    }
  }

  lemma ConversationSucceeds(lines: Lines, sessionId: string)
    ensures ClaudeConversation(lines, sessionId).Ok? <==> forall i :: 0 <= i < |lines| ==> LineParses(lines[i])
  {
    FoldSucceeds(Scan([], []), lines);
  }

  lemma ConversationContents(lines: Lines, sessionId: string)
    requires ClaudeConversation(lines, sessionId).Ok?
    ensures var c := ClaudeConversation(lines, sessionId).value;
      Roles(c.messages) == EntryRoles(lines) && c.summaries == SummaryTexts(lines)
      && c.messages == FileMessages(lines) && c.sessionId == sessionId && c.meta == NoMeta
  {
    var t := Fold(Step, Scan([], []), lines).value;
    FoldContents(Scan([], []), lines);
    assert Roles(t.messages) == [] + EntryRoles(lines) == EntryRoles(lines);
    assert t.summaries == [] + SummaryTexts(lines) == SummaryTexts(lines);
    assert t.messages == [] + FileMessages(lines) == FileMessages(lines);
  }

  /** The parse succeeds exactly when every line can be processed; it then
      holds one message per user or assistant entry with that entry's role,
      and that message is the one UserMessage or AssistantMessage builds
      from the entry; every summary text, both in file order, and the
      session id unchanged. */
  lemma ConversationShape(lines: Lines, sessionId: string)
    ensures ClaudeConversation(lines, sessionId).Ok? <==> forall i :: 0 <= i < |lines| ==> LineParses(lines[i])
    ensures ClaudeConversation(lines, sessionId).Ok? ==>
      var c := ClaudeConversation(lines, sessionId).value;
      Roles(c.messages) == EntryRoles(lines) && |c.messages| == |EntryRoles(lines)|
      && c.messages == FileMessages(lines)
      && c.summaries == SummaryTexts(lines) && c.sessionId == sessionId && c.meta == NoMeta
  {
    ConversationSucceeds(lines, sessionId);
    if ClaudeConversation(lines, sessionId).Ok? {
      ConversationContents(lines, sessionId);
    }
  }

  /** The parts of a concatenation of blocks are the parts of each, in order. */
  lemma {:induction false} PartsOfAppend(a: seq<Json>, b: seq<Json>)
    ensures PartsOf(a + b) == PartsOf(a).Then(PartsOf(b))
  {
    if a == [] {
      assert a + b == b;
    } else {
      assert (a + b)[1..] == a[1..] + b;
      PartsOfAppend(a[1..], b);
      ThenAssociative(BlockParts(a[0]), PartsOf(a[1..]), PartsOf(b));
    }
  }

  /** A list of parts is empty exactly when no block has its type. */
  lemma {:induction false} PartsEmptyIff(blocks: seq<Json>)
    ensures PartsOf(blocks).texts == [] <==> forall i :: 0 <= i < |blocks| ==> !IsBlock(blocks[i], "text")
    ensures PartsOf(blocks).thinkings == [] <==> forall i :: 0 <= i < |blocks| ==> !IsBlock(blocks[i], "thinking")
    ensures PartsOf(blocks).tools == [] <==> forall i :: 0 <= i < |blocks| ==> !IsBlock(blocks[i], "tool_use")
  {
    if blocks != [] {
      PartsEmptyIff(blocks[1..]);
      assert forall i :: 1 <= i < |blocks| ==> blocks[i] == blocks[1..][i - 1];
    }
  }

  /** An assistant message has `thinking` exactly when a block is a
      `thinking` block and `tool_uses` exactly when a block is a `tool_use`
      block; its content is the `"\n"`-join of the text blocks and its
      thinking the `"\n"`-join of the thinking blocks. */
  lemma AssistantOptionals(entry: Json, blocks: seq<Json>)
    requires entry.JObj? && AssistantBlocks(entry) == Ok(blocks)
    requires AssistantMessage(entry).Ok?
    ensures var m := AssistantMessage(entry).value;
      (m.thinking.None? <==> forall i :: 0 <= i < |blocks| ==> !IsBlock(blocks[i], "thinking"))
      && (m.toolUses.None? <==> forall i :: 0 <= i < |blocks| ==> !IsBlock(blocks[i], "tool_use"))
      && (m.thinking.Some? ==>
        AllStrings(PartsOf(blocks).thinkings) && m.thinking.value == Join(Strs(PartsOf(blocks).thinkings), "\n"))
      && (m.toolUses.Some? ==> m.toolUses.value == PartsOf(blocks).tools)
      && AllStrings(PartsOf(blocks).texts)
      && m.content == JStr(Join(Strs(PartsOf(blocks).texts), "\n"))
  {
    PartsEmptyIff(blocks);
  }

  /** Splitting a flattened user content on newlines gives back its texts,
      when there is at least one and none contains a newline. */
  lemma UserContentSplits(content: Json)
    requires content.JArr? && FlattenUserContent(content).Ok?
    requires UserTextParts(content.items) != []
    requires forall i :: 0 <= i < |UserTextParts(content.items)| ==> '\n' !in UserTextParts(content.items)[i].s
    ensures Split(FlattenUserContent(content).value.s, '\n') == Strs(UserTextParts(content.items))
  {
    SplitJoin(Strs(UserTextParts(content.items)), '\n');
  }

  const ExampleText := JObj([("type", JStr("text")), ("text", JStr("hello"))])
  const ExampleCall := JObj([("type", JStr("tool_use")), ("name", JStr("Bash")), ("input", JObj([("command", JStr("ls"))]))])
  const ExampleRecord := ToolUse(JStr("Bash"), JObj([("command", JStr("ls"))]))

  lemma ExampleBlocks()
    ensures PartsOf([ExampleText, ExampleCall]) == Parts([JStr("hello")], [], [ExampleRecord])
  {
    assert Field(ExampleText, "type", JNull) == JStr("text");
    assert Field(ExampleText, "text", JStr("")) == JStr("hello") by {
      assert ExampleText.fields[1..][0].0 == "text";
    }
    assert BlockParts(ExampleText) == Parts([JStr("hello")], [], []);
    assert Field(ExampleCall, "type", JNull) == JStr("tool_use");
    assert Field(ExampleCall, "name", JStr("")) == JStr("Bash") by {
      assert ExampleCall.fields[1..][0].0 == "name";
    }
    assert Field(ExampleCall, "input", JObj([])) == JObj([("command", JStr("ls"))]) by {
      assert ExampleCall.fields[1..][1..][0].0 == "input";
    }
    assert ToolRecord(ExampleCall) == ExampleRecord;
    assert BlockParts(ExampleCall) == Parts([], [], [ExampleRecord]);
    assert PartsOf([ExampleCall]) == Parts([], [], [ExampleRecord]) by {
      assert [ExampleCall][1..] == [];
    }
    assert PartsOf([ExampleText, ExampleCall]) == BlockParts(ExampleText).Then(PartsOf([ExampleCall])) by {
      assert [ExampleText, ExampleCall][1..] == [ExampleCall];
    }
  }

  /** An assistant entry whose texts and thinkings are strings yields a
      message: the texts joined, the thinkings joined when there are any,
      and the tool records when there are any. */
  lemma AssistantMessageOf(entry: Json, blocks: seq<Json>)
    requires entry.JObj? && AssistantBlocks(entry) == Ok(blocks)
    requires AllStrings(PartsOf(blocks).texts) && AllStrings(PartsOf(blocks).thinkings)
    ensures AssistantMessage(entry).Ok?
    ensures AssistantMessage(entry).value.content == JStr(Join(Strs(PartsOf(blocks).texts), "\n"))
    ensures AssistantMessage(entry).value.thinking ==
      if PartsOf(blocks).thinkings == [] then None else Some(Join(Strs(PartsOf(blocks).thinkings), "\n"))
    ensures AssistantMessage(entry).value.toolUses == if PartsOf(blocks).tools == [] then None else Some(PartsOf(blocks).tools)
  {
  }

  lemma ExampleEntryBlocks(entry: Json)
    requires entry == JObj([("type", JStr("assistant")), ("message", JObj([("content", JArr([ExampleText, ExampleCall]))]))])
    ensures AssistantBlocks(entry) == Ok([ExampleText, ExampleCall])
  {
    assert Field(entry, "message", JObj([])) == JObj([("content", JArr([ExampleText, ExampleCall]))]) by {
      assert entry.fields[1..][0].0 == "message";
    }
  }

  lemma ExampleAssistantTurn(entry: Json)
    requires entry == JObj([("type", JStr("assistant")), ("message", JObj([("content", JArr([ExampleText, ExampleCall]))]))])
    ensures AssistantMessage(entry).Ok?
    ensures var m := AssistantMessage(entry).value;
      m.content == JStr("hello") && m.thinking.None? && m.toolUses == Some([ExampleRecord])
  {
    ExampleEntryBlocks(entry);
    ExampleBlocks();
    assert Strs([JStr("hello")]) == ["hello"];
    assert Join(["hello"], "\n") == "hello";
    AssistantMessageOf(entry, [ExampleText, ExampleCall]);
  }

  const ExampleSummary := JObj([("type", JStr("summary")), ("summary", JStr("Listing files"))])
  const ExampleUser := JObj([("type", JStr("user")), ("message", JObj([("content", JStr("hi"))]))])
  const ExampleAssistant := JObj([("type", JStr("assistant")), ("message", JObj([("content", JArr([ExampleText, ExampleCall]))]))])

  lemma ExampleSteps() returns (s1: Scan, s2: Scan, s3: Scan)
    ensures UserMessage(ExampleUser).Ok? && AssistantMessage(ExampleAssistant).Ok?
    ensures s1 == Scan([JStr("Listing files")], [])
    ensures s2 == Scan([JStr("Listing files")], [UserMessage(ExampleUser).value])
    ensures s3 == Scan([JStr("Listing files")], [UserMessage(ExampleUser).value, AssistantMessage(ExampleAssistant).value])
    ensures Step(Scan([], []), Some(ExampleSummary)) == Ok(s1)
    ensures Step(s1, Some(ExampleUser)) == Ok(s2)
    ensures Step(s2, Some(ExampleAssistant)) == Ok(s3)
  {
    s1 := Scan([JStr("Listing files")], []);
    ExampleSummaryStep();
    ExampleUserStep();
    var m1 := UserMessage(ExampleUser).value;
    s2 := Scan([JStr("Listing files")], [m1]);
    ExampleAssistantStep(m1);
    s3 := Scan([JStr("Listing files")], [m1, AssistantMessage(ExampleAssistant).value]);
  }

  lemma ExampleSummaryStep()
    ensures Step(Scan([], []), Some(ExampleSummary)) == Ok(Scan([JStr("Listing files")], []))
  {
    assert Field(ExampleSummary, "summary", JStr("")) == JStr("Listing files") by {
      assert ExampleSummary.fields[1..][0].0 == "summary";
    }
    SummaryStepOf(Scan([], []), ExampleSummary);
    assert Scan([], []).(summaries := [] + [JStr("Listing files")]) == Scan([JStr("Listing files")], []);
  }

  lemma ExampleUserStep()
    ensures UserMessage(ExampleUser).Ok?
    ensures Step(Scan([JStr("Listing files")], []), Some(ExampleUser))
      == Ok(Scan([JStr("Listing files")], [UserMessage(ExampleUser).value]))
  {
    var s1 := Scan([JStr("Listing files")], []);
    assert UserMessage(ExampleUser).Ok?;
    var m1 := UserMessage(ExampleUser).value;
    MessageStepOf(s1, ExampleUser, "user", m1);
    assert s1.(messages := s1.messages + [m1]) == Scan([JStr("Listing files")], [m1]);
  }

  lemma ExampleAssistantStep(m1: Message)
    ensures AssistantMessage(ExampleAssistant).Ok?
    ensures Step(Scan([JStr("Listing files")], [m1]), Some(ExampleAssistant))
      == Ok(Scan([JStr("Listing files")], [m1, AssistantMessage(ExampleAssistant).value]))
  {
    var s2 := Scan([JStr("Listing files")], [m1]);
    ExampleAssistantTurn(ExampleAssistant);
    var m2 := AssistantMessage(ExampleAssistant).value;
    MessageStepOf(s2, ExampleAssistant, "assistant", m2);
    assert s2.(messages := s2.messages + [m2]) == Scan([JStr("Listing files")], [m1, m2]);
  }

  /** A summary entry appends its text to the summaries. */
  lemma SummaryStepOf(st: Scan, entry: Json)
    requires entry.JObj? && Field(entry, "type", JNull) == JStr("summary")
    ensures Step(st, Some(entry)) == Ok(st.(summaries := st.summaries + [Field(entry, "summary", JStr(""))]))
  {
  }

  /** A user or assistant entry whose message parses appends that message. */
  lemma MessageStepOf(st: Scan, entry: Json, kind: string, m: Message)
    requires entry.JObj? && Field(entry, "type", JNull) == JStr(kind)
    requires kind == "user" ==> UserMessage(entry) == Ok(m)
    requires kind == "assistant" ==> AssistantMessage(entry) == Ok(m)
    requires kind == "user" || kind == "assistant"
    ensures Step(st, Some(entry)) == Ok(st.(messages := st.messages + [m]))
  {
  }


  /** A summary, a user entry with string content and an assistant entry with
      a text block and a tool call give one summary and two messages; the
      assistant message has the tool record and no thinking. */
  lemma SmallSessionExample()
    ensures ClaudeConversation([Some(ExampleSummary), Some(ExampleUser), Some(ExampleAssistant)], "s1").Ok?
    ensures var c := ClaudeConversation([Some(ExampleSummary), Some(ExampleUser), Some(ExampleAssistant)], "s1").value;
      && c.summaries == [JStr("Listing files")] && |c.messages| == 2
      && c.messages[0].role == User && c.messages[0].content == JStr("hi")
      && c.messages[1].role == Assistant && c.messages[1].content == JStr("hello")
      && c.messages[1].toolUses == Some([ExampleRecord])
      && c.messages[1].thinking.None?
  {
    var s1, s2, s3 := ExampleSteps();
    ExampleAssistantTurn(ExampleAssistant);
    assert UserMessage(ExampleUser).value.content == JStr("hi");
    FoldThree(Step, Scan([], []), Some(ExampleSummary), Some(ExampleUser), Some(ExampleAssistant), s1, s2, s3);
  }
}
