/** The plain-text export of a conversation: a header, the summaries, then
    one block per message, joined with newlines. */
module Export {
  import opened Wrappers
  import opened Text
  import opened JsonModel
  import opened Schema
  import opened Locator
  import opened Folds
  import Projects

  /** `"=" * 60`, which frames the header and closes each message block. */
  const Rule: string := Repeat('=', 60)

  /** `"-" * 60`, which closes the summaries. */
  const SummaryRule: string := Repeat('-', 60)

  /** `"-" * 40`, under each message's heading. */
  const MessageRule: string := Repeat('-', 40)

  /** `msg['role'].upper()`. */
  function RoleLabel(r: Role): string {
    match r
    case User => "USER"
    case Assistant => "ASSISTANT"
  }

  /** The five header lines; the project id is shown as a path, as the
      Claude project list names its directories. */
  function HeaderLines(projectId: string, sessionId: string): seq<Json> {
    [JStr(Rule), JStr("Session: " + sessionId), JStr("Project: " + Projects.ClaudeName(projectId)), JStr(Rule), JStr("")]
  }

  /** The bullet line of a summary. */
  function Bullet(summary: Json, fmt: Json -> string): Json {
    JStr("  • " + Str(summary, fmt))
  }

  /** `lines` with one bullet line per summary appended, in order. */
  function WithBullets(lines: seq<Json>, summaries: seq<Json>, fmt: Json -> string): (r: seq<Json>)
    ensures |r| == |lines| + |summaries|
    decreases |summaries|
  {
    if summaries == [] then lines
    else WithBullets(lines, summaries[..|summaries| - 1], fmt) + [Bullet(summaries[|summaries| - 1], fmt)]
  }

  /** `lines` with the summaries block appended when there are summaries. */
  function WithSummaries(lines: seq<Json>, summaries: seq<Json>, fmt: Json -> string): seq<Json> {
    if summaries == [] then lines
    else WithBullets(lines + [JStr("SUMMARIES:")], summaries, fmt) + [JStr(""), JStr(SummaryRule), JStr("")]
  }

  /** `val[:200]` followed by `...` when `val` is longer than 200. */
  function Clipped(val: string): (r: string)
    ensures |val| <= 200 ==> r == val
    ensures |val| > 200 ==> |r| == 203 && r[..200] == val[..200] && r[200..] == "..."
    ensures |r| <= 203
  {
    (if |val| <= 200 then val else val[..200]) + (if |val| > 200 then "..." else "")
  }

  /** The line of one item of a dict tool input. */
  function InputLine(item: (string, Json), fmt: Json -> string): Json {
    JStr("  " + item.0 + ": " + Clipped(Str(item.1, fmt)))
  }

  /** `lines` with one line per input item appended, in order. */
  function WithInputs(lines: seq<Json>, items: seq<(string, Json)>, fmt: Json -> string): (r: seq<Json>)
    ensures |r| == |lines| + |items|
    decreases |items|
  {
    if items == [] then lines
    else WithInputs(lines, items[..|items| - 1], fmt) + [InputLine(items[|items| - 1], fmt)]
  }

  /** `lines` with the lines of one tool use appended: its name, then its input. */
  function WithTool(lines: seq<Json>, tool: ToolUse, fmt: Json -> string): seq<Json> {
    var named := lines + [JStr("[TOOL: " + Str(tool.name, fmt) + "]")];
    if tool.input.JObj? then WithInputs(named, tool.input.fields, fmt) else named + [JStr("  " + Str(tool.input, fmt))]
  }

  /** `lines` with the lines of each tool use appended, in order. */
  function WithTools(lines: seq<Json>, tools: seq<ToolUse>, fmt: Json -> string): seq<Json>
    decreases |tools|
  {
    if tools == [] then lines
    else WithTool(WithTools(lines, tools[..|tools| - 1], fmt), tools[|tools| - 1], fmt)
  }

  /** `usage.get("input_tokens", 0) + usage.get("output_tokens", 0)`. */
  function Tokens(usage: Json): (r: Result<Json>)
    ensures r.Ok? ==> usage.JObj?
    ensures usage.JObj? && IntCount(usage, "input_tokens") && IntCount(usage, "output_tokens") ==>
      r == Ok(JNum(CountOf(usage, "input_tokens") + CountOf(usage, "output_tokens")))
  {
    var a :- Get(usage, "input_tokens", JNum(0));
    Add(a, Field(usage, "output_tokens", JNum(0)))
  }

  /** Whether a usage dict's count under `key` is absent or an integer. */
  predicate IntCount(usage: Json, key: string)
    requires usage.JObj?
  {
    Lookup(usage.fields, key).None? || Lookup(usage.fields, key).value.JNum?
  }

  /** That count, an absent one being 0. */
  function CountOf(usage: Json, key: string): int
    requires usage.JObj? && IntCount(usage, key)
  {
    match Lookup(usage.fields, key)
    case None => 0
    case Some(j) => j.n
  }

  /** Whether `thinking` is present and non-empty. */
  predicate HasThinking(m: Message) {
    m.thinking.Some? && m.thinking.value != ""
  }

  /** Whether the message lists tool uses. */
  predicate HasTools(m: Message) {
    m.toolUses.Some? && m.toolUses.value != []
  }

  /** `lines` with a message's heading appended: role and timestamp, model, rule. */
  function WithHeading(lines: seq<Json>, m: Message, fmt: Json -> string): seq<Json> {
    var titled := lines + [JStr("[" + RoleLabel(m.role) + "] " + Str(m.timestamp, fmt))];
    var modelled := if Truthy(m.model) then titled + [JStr("Model: " + Str(m.model, fmt))] else titled;
    modelled + [JStr(MessageRule)]
  }

  /** `lines` with the content, thinking and tool sections appended, each
      only when present. */
  function WithSections(lines: seq<Json>, m: Message, fmt: Json -> string): seq<Json> {
    var withContent := if Truthy(m.content) then lines + [m.content] else lines;
    var withThinking := if HasThinking(m)
      then withContent + [JStr(""), JStr("--- THINKING ---"), JStr(m.thinking.value), JStr("--- END THINKING ---")]
      else withContent;
    if HasTools(m) then WithTools(withThinking + [JStr("")], m.toolUses.value, fmt) else withThinking
  }

  /** `lines` with the token line appended when there is usage; a usage that
      is not a dict, or counts that do not add, raise. */
  function WithUsage(lines: seq<Json>, m: Message, fmt: Json -> string): Result<seq<Json>> {
    if Truthy(m.usage) then
      var t :- Tokens(m.usage);
      Ok(lines + [JStr("\n[Tokens: " + Str(t, fmt) + "]")])
    else Ok(lines)
  }

  /** `lines` with the whole block of one message appended. */
  function WithMessage(lines: seq<Json>, m: Message, fmt: Json -> string): Result<seq<Json>> {
    var counted :- WithUsage(WithSections(WithHeading(lines, m, fmt), m, fmt), m, fmt);
    Ok(counted + [JStr(""), JStr(Rule), JStr("")])
  }

  /** The message loop's step. */
  function MessageStep(fmt: Json -> string): (seq<Json>, Message) -> Result<seq<Json>> {
    (lines: seq<Json>, m: Message) => WithMessage(lines, m, fmt)
  }

  /** `lines` with the blocks of the messages appended, in order; the first
      message that raises ends the export. */
  function WithMessages(lines: seq<Json>, ms: seq<Message>, fmt: Json -> string): Result<seq<Json>> {
    Fold(MessageStep(fmt), lines, ms)
  }

  /** Every line of the export, before joining. */
  function ExportLines(projectId: string, sessionId: string, c: Conversation, fmt: Json -> string): Result<seq<Json>> {
    WithMessages(WithSummaries(HeaderLines(projectId, sessionId), c.summaries, fmt), c.messages, fmt)
  }

  /** The exported text: the lines joined with `"\n"`; a line that is not a
      string (a non-string content) makes the join raise. */
  function ExportText(projectId: string, sessionId: string, c: Conversation, fmt: Json -> string): Result<string> {
    var lines :- ExportLines(projectId, sessionId, c, fmt);
    JoinStrs(lines, "\n")
  }

  /** What the export endpoint answers. */
  datatype Response =
    | NotFound(error: string)
    | Attachment(content: string, filename: string)

  /** `source or current_source`. */
  function EffectiveSource(source: Option<string>, current: string): string {
    if source.Some? && source.value != "" then source.value else current
  }

  /** The export endpoint: a conversation that could not be found answers
      404 with its error; otherwise the text is sent as `<session>.txt`. */
  function ExportResponse(projectId: string, sessionId: string, source: Option<string>, current: string,
                          listing: Listing, fmt: Json -> string): (r: Result<Response>)
    ensures forall e :: (ConversationReply(projectId, sessionId, EffectiveSource(source, current), listing, fmt) == Ok(Failure(e))
      ==> r == Ok(NotFound(e)))
    ensures r.Ok? && r.value.Attachment? ==> (r.value.filename == sessionId + ".txt"
      && ConversationReply(projectId, sessionId, EffectiveSource(source, current), listing, fmt).Ok?
      && ConversationReply(projectId, sessionId, EffectiveSource(source, current), listing, fmt).value.Success?)
  {
    var reply :- ConversationReply(projectId, sessionId, EffectiveSource(source, current), listing, fmt);
    match reply
    case Failure(e) => Ok(NotFound(e))
    case Success(c) =>
      var text :- ExportText(projectId, sessionId, c, fmt);
      Ok(Attachment(text, sessionId + ".txt"))
  }

  // ------------------------------------------------------------ the method

  /** The input lines of a tool, appended item by item. */
  method AppendInputs(lines: seq<Json>, items: seq<(string, Json)>, fmt: Json -> string) returns (out: seq<Json>)
    ensures out == WithInputs(lines, items, fmt)
  {
    out := lines;
    for k := 0 to |items|
      invariant out == WithInputs(lines, items[..k], fmt)
    {
      var (key, v) := items[k];
      var val := Str(v, fmt);
      var line := JStr("  " + key + ": " + (if |val| <= 200 then val else val[..200]) + (if |val| > 200 then "..." else ""));
      assert line == InputLine(items[k], fmt);
      assert items[..k + 1][..k] == items[..k] && items[..k + 1][k] == items[k];
      out := out + [line];
    }
    assert items[..|items|] == items;
  }

  /** The tool lines of a message, appended tool by tool. */
  method AppendTools(lines: seq<Json>, tools: seq<ToolUse>, fmt: Json -> string) returns (out: seq<Json>)
    ensures out == WithTools(lines, tools, fmt)
  {
    out := lines;
    for j := 0 to |tools|
      invariant out == WithTools(lines, tools[..j], fmt)
    {
      assert tools[..j + 1][..j] == tools[..j];
      var tool := tools[j];
      out := out + [JStr("[TOOL: " + Str(tool.name, fmt) + "]")];
      if tool.input.JObj? {
        out := AppendInputs(out, tool.input.fields, fmt);
      } else {
        out := out + [JStr("  " + Str(tool.input, fmt))];
      }
    }
    assert tools[..|tools|] == tools;
  }

  /** One message block appended to `lines`. */
  method AppendMessage(lines: seq<Json>, m: Message, fmt: Json -> string) returns (r: Result<seq<Json>>)
    ensures r == WithMessage(lines, m, fmt)
  {
    var out := lines + [JStr("[" + RoleLabel(m.role) + "] " + Str(m.timestamp, fmt))];
    if Truthy(m.model) {
      out := out + [JStr("Model: " + Str(m.model, fmt))];
    }
    out := out + [JStr(MessageRule)];
    if Truthy(m.content) {
      out := out + [m.content];
    }
    if m.thinking.Some? && m.thinking.value != "" {
      out := out + [JStr(""), JStr("--- THINKING ---"), JStr(m.thinking.value), JStr("--- END THINKING ---")];
    }
    if m.toolUses.Some? && m.toolUses.value != [] {
      out := out + [JStr("")];
      out := AppendTools(out, m.toolUses.value, fmt);
    }
    if Truthy(m.usage) {
      if !m.usage.JObj? {
        return Raised(ShapeError);
      }
      var tokens := Add(Field(m.usage, "input_tokens", JNum(0)), Field(m.usage, "output_tokens", JNum(0)));
      if tokens.Raised? {
        return Raised(tokens.exc);
      }
      out := out + [JStr("\n[Tokens: " + Str(tokens.value, fmt) + "]")];
    }
    out := out + [JStr(""), JStr(Rule), JStr("")];
    return Ok(out);
  }

  /** The summaries block appended to `lines`. */
  method AppendSummaries(lines: seq<Json>, summaries: seq<Json>, fmt: Json -> string) returns (out: seq<Json>)
    ensures out == WithSummaries(lines, summaries, fmt)
  {
    out := lines;
    if summaries != [] {
      out := out + [JStr("SUMMARIES:")];
      ghost var titled := out;
      for i := 0 to |summaries|
        invariant out == WithBullets(titled, summaries[..i], fmt)
      {
        assert summaries[..i + 1][..i] == summaries[..i];
        out := out + [JStr("  • " + Str(summaries[i], fmt))];
      }
      assert summaries[..|summaries|] == summaries;
      out := out + [JStr(""), JStr(SummaryRule), JStr("")];
    }
  }

  /** `api_export`'s line building and join. */
  method RenderExport(projectId: string, sessionId: string, c: Conversation, fmt: Json -> string) returns (r: Result<string>)
    ensures r == ExportText(projectId, sessionId, c, fmt)
  {
    var lines := [JStr(Rule), JStr("Session: " + sessionId), JStr("Project: " + Projects.ClaudeName(projectId)), JStr(Rule), JStr("")];
    lines := AppendSummaries(lines, c.summaries, fmt);
    ghost var start := lines;
    for i := 0 to |c.messages|
      invariant WithMessages(start, c.messages, fmt) == Fold(MessageStep(fmt), lines, c.messages[i..])
    {
      assert c.messages[i..][1..] == c.messages[i + 1..];
      var next := AppendMessage(lines, c.messages[i], fmt);
      if next.Raised? {
        return Raised(next.exc);
      }
      lines := next.value;
    }
    assert c.messages[|c.messages|..] == [];
    r := JoinStrs(lines, "\n");
  }

  /** The export endpoint: looks the conversation up, then renders it. */
  method ApiExport(projectId: string, sessionId: string, source: Option<string>, current: string,
                   listing: Listing, fmt: Json -> string) returns (r: Result<Response>)
    ensures r == ExportResponse(projectId, sessionId, source, current, listing, fmt)
  {
    var sourceId := EffectiveSource(source, current);
    var reply := GetConversation(projectId, sessionId, sourceId, listing, fmt);
    if reply.Raised? {
      return Raised(reply.exc);
    }
    if reply.value.Failure? {
      return Ok(NotFound(reply.value.error));
    }
    var text := RenderExport(projectId, sessionId, reply.value.conversation, fmt);
    if text.Raised? {
      return Raised(text.exc);
    }
    return Ok(Attachment(text.value, sessionId + ".txt"));
  }

  // ------------------------------------------------------------ properties

  /** `out` is `lines` with more lines after it. */
  predicate Extends(lines: seq<Json>, out: seq<Json>) {
    |lines| <= |out| && out[..|lines|] == lines
  }

  /** Every line after the first `|lines|` is a string. */
  predicate StringsAfter(lines: seq<Json>, out: seq<Json>) {
    forall i :: |lines| <= i < |out| ==> out[i].JStr?
  }

  /** A truthy content is a string (the only line that can be anything else). */
  predicate ContentIsText(m: Message) {
    Truthy(m.content) ==> m.content.JStr?
  }

  /** A truthy usage is a dict whose counts add up. */
  predicate UsageAdds(m: Message) {
    Truthy(m.usage) ==> Tokens(m.usage).Ok?
  }

  /** A message the export can render. */
  predicate Exportable(m: Message) {
    ContentIsText(m) && UsageAdds(m)
  }

  lemma {:induction false} InputsAppend(lines: seq<Json>, items: seq<(string, Json)>, fmt: Json -> string)
    ensures Extends(lines, WithInputs(lines, items, fmt)) && StringsAfter(lines, WithInputs(lines, items, fmt))
    decreases |items|
  {
    if items != [] {
      InputsAppend(lines, items[..|items| - 1], fmt);
    }
  }

  lemma ToolAppends(lines: seq<Json>, tool: ToolUse, fmt: Json -> string)
    ensures Extends(lines, WithTool(lines, tool, fmt)) && StringsAfter(lines, WithTool(lines, tool, fmt))
  {
    var named := lines + [JStr("[TOOL: " + Str(tool.name, fmt) + "]")];
    if tool.input.JObj? {
      InputsAppend(named, tool.input.fields, fmt);
      assert WithTool(lines, tool, fmt)[..|named|][..|lines|] == lines;
    }
  }

  lemma {:induction false} ToolsAppend(lines: seq<Json>, tools: seq<ToolUse>, fmt: Json -> string)
    ensures Extends(lines, WithTools(lines, tools, fmt)) && StringsAfter(lines, WithTools(lines, tools, fmt))
    decreases |tools|
  {
    if tools != [] {
      var init := WithTools(lines, tools[..|tools| - 1], fmt);
      ToolsAppend(lines, tools[..|tools| - 1], fmt);
      ToolAppends(init, tools[|tools| - 1], fmt);
      assert WithTools(lines, tools, fmt)[..|init|][..|lines|] == lines;
    }
  }

  /** The sections add string lines, except the content, which sits right
      after the heading. */
  lemma SectionsAppend(lines: seq<Json>, m: Message, fmt: Json -> string)
    ensures var out := WithSections(lines, m, fmt);
      Extends(lines, out) && (StringsAfter(lines, out) <==> ContentIsText(m))
      && (Truthy(m.content) ==> |lines| < |out| && out[|lines|] == m.content)
  {
    var withContent := if Truthy(m.content) then lines + [m.content] else lines;
    var withThinking := if HasThinking(m)
      then withContent + [JStr(""), JStr("--- THINKING ---"), JStr(m.thinking.value), JStr("--- END THINKING ---")]
      else withContent;
    var out := WithSections(lines, m, fmt);
    assert Extends(lines, withContent) && (StringsAfter(lines, withContent) <==> ContentIsText(m)) by {
      if Truthy(m.content) {
        assert (lines + [m.content])[|lines|] == m.content;
      }
    }
    assert Extends(withContent, withThinking) && StringsAfter(withContent, withThinking);
    if HasTools(m) {
      var spaced := withThinking + [JStr("")];
      ToolsAppend(spaced, m.toolUses.value, fmt);
      assert Extends(withThinking, spaced) && StringsAfter(withThinking, spaced);
      Chain(withThinking, spaced, out);
    }
    assert Extends(withThinking, out) && StringsAfter(withThinking, out);
    Chain(withContent, withThinking, out);
    Chain(lines, withContent, out);
    if Truthy(m.content) {
      assert out[..|withContent|][|lines|] == m.content;
    }
  }

  /** Appending in two steps: the lines after the first `|a|` are strings
      exactly when those added by each step are. */
  lemma Chain(a: seq<Json>, b: seq<Json>, c: seq<Json>)
    requires Extends(a, b) && Extends(b, c)
    ensures Extends(a, c)
    ensures StringsAfter(a, c) <==> StringsAfter(a, b) && StringsAfter(b, c)
  {
    assert c[..|b|][..|a|] == a;
    forall i | |a| <= i < |b|
      ensures c[i] == b[i]
    {
      assert c[..|b|][i] == b[i];
    }
  }

  lemma HeadingAppends(lines: seq<Json>, m: Message, fmt: Json -> string)
    ensures Extends(lines, WithHeading(lines, m, fmt)) && StringsAfter(lines, WithHeading(lines, m, fmt))
  {
  }

  lemma UsageAppends(lines: seq<Json>, m: Message, fmt: Json -> string)
    requires WithUsage(lines, m, fmt).Ok?
    ensures Extends(lines, WithUsage(lines, m, fmt).value) && StringsAfter(lines, WithUsage(lines, m, fmt).value)
  {
  }

  /** A message block keeps the lines before it, adds string lines except
      its content, and holds its content when that is truthy. */
  lemma MessageAppends(lines: seq<Json>, m: Message, fmt: Json -> string)
    requires WithMessage(lines, m, fmt).Ok?
    ensures var out := WithMessage(lines, m, fmt).value;
      Extends(lines, out) && (StringsAfter(lines, out) <==> ContentIsText(m))
      && (Truthy(m.content) ==> exists j :: |lines| <= j < |out| && out[j] == m.content)
  {
    var headed := WithHeading(lines, m, fmt);
    var sectioned := WithSections(headed, m, fmt);
    var counted := WithUsage(sectioned, m, fmt).value;
    var out := counted + [JStr(""), JStr(Rule), JStr("")];
    assert WithMessage(lines, m, fmt).value == out;
    HeadingAppends(lines, m, fmt);
    SectionsAppend(headed, m, fmt);
    UsageAppends(sectioned, m, fmt);
    assert Extends(counted, out) && StringsAfter(counted, out);
    Chain(lines, headed, sectioned);
    Chain(sectioned, counted, out);
    Chain(lines, sectioned, out);
    if Truthy(m.content) {
      Chain(headed, sectioned, out);
      assert out[|headed|] == sectioned[|headed|];
    }
  }

  lemma MessageSucceeds(lines: seq<Json>, m: Message, fmt: Json -> string)
    ensures WithMessage(lines, m, fmt).Ok? <==> UsageAdds(m)
  {
  }

  /** A message block keeps every line before it and adds strings only,
      apart from its content. */
  lemma MessageStrings(lines: seq<Json>, m: Message, fmt: Json -> string)
    requires WithMessage(lines, m, fmt).Ok?
    ensures AllStrings(WithMessage(lines, m, fmt).value) <==> AllStrings(lines) && ContentIsText(m)
    ensures forall y :: y in lines ==> y in WithMessage(lines, m, fmt).value
    ensures Truthy(m.content) ==> m.content in WithMessage(lines, m, fmt).value
  {
    var out := WithMessage(lines, m, fmt).value;
    MessageAppends(lines, m, fmt);
    forall y | y in lines
      ensures y in out
    {
      var k :| 0 <= k < |lines| && lines[k] == y;
      assert out[..|lines|][k] == y;
    }
    if AllStrings(out) {
      forall k | 0 <= k < |lines|
        ensures lines[k].JStr?
      {
        assert out[..|lines|][k] == lines[k];
      }
    }
    if AllStrings(lines) && StringsAfter(lines, out) {
      forall k | 0 <= k < |out|
        ensures out[k].JStr?
      {
        if k < |lines| {
          assert out[..|lines|][k] == out[k];
        }
      }
    }
  }

  /** The messages render exactly when every usage adds up. */
  lemma MessagesSucceed(lines: seq<Json>, ms: seq<Message>, fmt: Json -> string)
    ensures WithMessages(lines, ms, fmt).Ok? <==> forall i :: 0 <= i < |ms| ==> UsageAdds(ms[i])
  {
    forall t, m
      ensures MessageStep(fmt)(t, m).Ok? <==> UsageAdds(m)
    {
      MessageSucceeds(t, m, fmt);
    }
    FoldSucceeds(MessageStep(fmt), UsageAdds, lines, ms);
  }

  /** Rendered messages are all strings exactly when the lines before them
      are and every content is a string. */
  lemma MessagesStrings(lines: seq<Json>, ms: seq<Message>, fmt: Json -> string)
    requires WithMessages(lines, ms, fmt).Ok?
    ensures AllStrings(WithMessages(lines, ms, fmt).value) <==> AllStrings(lines) && forall i :: 0 <= i < |ms| ==> ContentIsText(ms[i])
  {
    forall t, m | MessageStep(fmt)(t, m).Ok?
      ensures AllStrings(MessageStep(fmt)(t, m).value) <==> AllStrings(t) && ContentIsText(m)
    {
      MessageStrings(t, m, fmt);
    }
    FoldAll(MessageStep(fmt), AllStrings, ContentIsText, lines, ms);
  }

  /** `m`'s content, when truthy, is among `lines`. */
  predicate HoldsContent(m: Message, lines: seq<Json>) {
    Truthy(m.content) ==> m.content in lines
  }

  /** Every truthy content is among the rendered lines. */
  lemma ContentsKept(lines: seq<Json>, ms: seq<Message>, fmt: Json -> string, i: nat)
    requires WithMessages(lines, ms, fmt).Ok? && i < |ms|
    ensures HoldsContent(ms[i], WithMessages(lines, ms, fmt).value)
  {
    forall t, m, y | MessageStep(fmt)(t, m).Ok? && HoldsContent(y, t)
      ensures HoldsContent(y, MessageStep(fmt)(t, m).value)
    {
      MessageStrings(t, m, fmt);
    }
    forall t, m | MessageStep(fmt)(t, m).Ok?
      ensures HoldsContent(m, MessageStep(fmt)(t, m).value)
    {
      MessageStrings(t, m, fmt);
    }
    FoldCollects(MessageStep(fmt), HoldsContent, lines, ms, i);
  }

  /** Rendering the messages keeps the lines before them in place. */
  lemma MessagesExtend(lines: seq<Json>, ms: seq<Message>, fmt: Json -> string)
    requires WithMessages(lines, ms, fmt).Ok?
    ensures Extends(lines, WithMessages(lines, ms, fmt).value)
  {
    forall a: seq<Json>, b: seq<Json>, c: seq<Json> | Extends(a, b) && Extends(b, c)
      ensures Extends(a, c)
    {
      assert c[..|b|][..|a|] == a;
    }
    forall t, m | MessageStep(fmt)(t, m).Ok?
      ensures Extends(t, MessageStep(fmt)(t, m).value)
    {
      MessageAppends(t, m, fmt);
    }
    FoldPreorder(MessageStep(fmt), Extends, lines, ms);
  }

  /** The header and the summaries are strings. */
  lemma StartIsText(projectId: string, sessionId: string, summaries: seq<Json>, fmt: Json -> string)
    ensures AllStrings(WithSummaries(HeaderLines(projectId, sessionId), summaries, fmt))
    ensures Extends(HeaderLines(projectId, sessionId), WithSummaries(HeaderLines(projectId, sessionId), summaries, fmt))
  {
    var header := HeaderLines(projectId, sessionId);
    assert AllStrings(header);
    SummariesAppend(header, summaries, fmt);
  }

  /** The summary section keeps the lines before it and adds string lines. */
  lemma SummariesAppend(lines: seq<Json>, summaries: seq<Json>, fmt: Json -> string)
    requires AllStrings(lines)
    ensures AllStrings(WithSummaries(lines, summaries, fmt))
    ensures Extends(lines, WithSummaries(lines, summaries, fmt))
  {
    if summaries != [] {
      var titled := lines + [JStr("SUMMARIES:")];
      var bulleted := WithBullets(titled, summaries, fmt);
      BulletsAppend(titled, summaries, fmt);
      StringsAppended(lines, [JStr("SUMMARIES:")]);
      StringsAppended(bulleted, [JStr(""), JStr(SummaryRule), JStr("")]);
      Chain(lines, titled, bulleted);
    }
  }

  /** Appending string lines to string lines. */
  lemma StringsAppended(lines: seq<Json>, more: seq<Json>)
    requires AllStrings(lines) && AllStrings(more)
    ensures AllStrings(lines + more) && Extends(lines, lines + more)
  {
    assert (lines + more)[..|lines|] == lines;
  }

  lemma {:induction false} BulletsAppend(lines: seq<Json>, summaries: seq<Json>, fmt: Json -> string)
    requires AllStrings(lines)
    ensures AllStrings(WithBullets(lines, summaries, fmt)) && Extends(lines, WithBullets(lines, summaries, fmt))
    decreases |summaries|
  {
    if summaries != [] {
      BulletsAppend(lines, summaries[..|summaries| - 1], fmt);
    }
  }

  /** The export succeeds exactly when every message has a string content
      (if any) and a usage whose counts add up (if any). */
  lemma ExportSucceeds(projectId: string, sessionId: string, c: Conversation, fmt: Json -> string)
    ensures ExportText(projectId, sessionId, c, fmt).Ok? <==> forall i :: 0 <= i < |c.messages| ==> Exportable(c.messages[i])
  {
    var start := WithSummaries(HeaderLines(projectId, sessionId), c.summaries, fmt);
    StartIsText(projectId, sessionId, c.summaries, fmt);
    MessagesSucceed(start, c.messages, fmt);
    if WithMessages(start, c.messages, fmt).Ok? {
      MessagesStrings(start, c.messages, fmt);
    }
  }

  /** Every truthy message content appears in the exported text. */
  lemma ContentExported(projectId: string, sessionId: string, c: Conversation, fmt: Json -> string, i: nat)
    requires ExportText(projectId, sessionId, c, fmt).Ok?
    requires i < |c.messages| && Truthy(c.messages[i].content)
    ensures c.messages[i].content.JStr?
    ensures Contains(ExportText(projectId, sessionId, c, fmt).value, c.messages[i].content.s)
  {
    var start := WithSummaries(HeaderLines(projectId, sessionId), c.summaries, fmt);
    var out := WithMessages(start, c.messages, fmt).value;
    ContentsKept(start, c.messages, fmt, i);
    var j :| 0 <= j < |out| && out[j] == c.messages[i].content;
    assert out[j].JStr?;
    JoinContains(Strs(out), "\n", j);
  }

  /** Five lines joined by newlines, the last one empty. */
  lemma JoinFive(a: string, b: string, c: string, d: string)
    ensures Join([a, b, c, d, ""], "\n") == a + "\n" + b + "\n" + c + "\n" + d + "\n"
  {
    var n := "\n";
    assert [d, ""][1..] == [""];
    var j2 := Join([d, ""], n);
    assert j2 == d + n + Join([""], n);
    assert d + n + "" == d + n;
    assert [c, d, ""][1..] == [d, ""];
    var j3 := Join([c, d, ""], n);
    assert j3 == c + n + (d + n);
    assert [b, c, d, ""][1..] == [c, d, ""];
    var j4 := Join([b, c, d, ""], n);
    assert j4 == b + n + (c + n + (d + n));
    assert [a, b, c, d, ""][1..] == [b, c, d, ""];
    assert Join([a, b, c, d, ""], n) == a + n + (b + n + (c + n + (d + n)));
  }

  /** The header lines joined: the framed session and project lines and an
      empty line. */
  lemma FramedJoin(projectId: string, sessionId: string)
    ensures Join([Rule, "Session: " + sessionId, "Project: " + Projects.ClaudeName(projectId), Rule, ""], "\n")
      == Rule + "\n" + "Session: " + sessionId + "\n" + "Project: " + Projects.ClaudeName(projectId) + "\n" + Rule + "\n"
  {
    FramedNamed(sessionId, Projects.ClaudeName(projectId));
  }

  lemma FramedNamed(sessionId: string, name: string)
    ensures Join([Rule, "Session: " + sessionId, "Project: " + name, Rule, ""], "\n")
      == Rule + "\n" + "Session: " + sessionId + "\n" + "Project: " + name + "\n" + Rule + "\n"
  {
    var session, project := "Session: " + sessionId, "Project: " + name;
    JoinFive(Rule, session, project, Rule);
    assert Rule + "\n" + session == Rule + "\n" + "Session: " + sessionId;
    assert Rule + "\n" + "Session: " + sessionId + "\n" + project
      == Rule + "\n" + "Session: " + sessionId + "\n" + "Project: " + name;
  }

  /** Lines that open with given strings join to a text that opens with
      those strings joined. */
  lemma JoinedPrefix(out: seq<Json>, pre: seq<string>)
    requires AllStrings(out) && pre != [] && |pre| <= |out|
    requires forall k :: 0 <= k < |pre| ==> out[k] == JStr(pre[k])
    ensures StartsWith(JoinStrs(out, "\n").value, Join(pre, "\n"))
  {
    var strs := Strs(out);
    assert strs == pre + strs[|pre|..];
    JoinPrefix(pre, strs[|pre|..], "\n");
  }

  /** The exported text opens with the framed session and project lines. */
  lemma HeaderFirst(projectId: string, sessionId: string, c: Conversation, fmt: Json -> string)
    requires ExportText(projectId, sessionId, c, fmt).Ok?
    ensures StartsWith(ExportText(projectId, sessionId, c, fmt).value,
      Rule + "\n" + "Session: " + sessionId + "\n" + "Project: " + Projects.ClaudeName(projectId) + "\n" + Rule + "\n")
  {
    var header := HeaderLines(projectId, sessionId);
    var start := WithSummaries(header, c.summaries, fmt);
    var out := WithMessages(start, c.messages, fmt).value;
    assert ExportText(projectId, sessionId, c, fmt) == JoinStrs(out, "\n");
    StartIsText(projectId, sessionId, c.summaries, fmt);
    MessagesExtend(start, c.messages, fmt);
    assert out[..|start|][..|header|] == header;
    var session, project := "Session: " + sessionId, "Project: " + Projects.ClaudeName(projectId);
    var hs := [Rule, session, project, Rule, ""];
    forall k | 0 <= k < 5
      ensures out[k] == JStr(hs[k])
    {
      assert out[..5][k] == header[k];
    }
    JoinedPrefix(out, hs);
    FramedJoin(projectId, sessionId);
  }
}
