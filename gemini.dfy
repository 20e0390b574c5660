/** The Gemini CLI session format: one JSON document per session, holding
    top-level metadata and a list of messages. */
module GeminiParser {
  import opened Wrappers
  import opened Text
  import opened JsonModel
  import opened Schema
  import opened Folds

  // -------------------------------------------------------------- thoughts

  /** Whether a thought contributes a line of thinking: it is a dict whose
      `subject` or `description` is truthy. */
  predicate Renders(thought: Json) {
    thought.JObj?
    && (Truthy(Field(thought, "subject", JStr(""))) || Truthy(Field(thought, "description", JStr(""))))
  }

  /** The line a rendered thought contributes: `**subject**: description`,
      or the bare description when the subject is falsy. The f-string
      formats both values with `str`. */
  function ThoughtLine(thought: Json, fmt: Json -> string): Json
    requires thought.JObj?
  {
    var subject := Field(thought, "subject", JStr(""));
    var desc := Field(thought, "description", JStr(""));
    if Truthy(subject) then JStr("**" + Str(subject, fmt) + "**: " + Str(desc, fmt)) else desc
  }

  /** The line a thought contributes, as a list of zero or one lines. */
  function ThoughtPart(thought: Json, fmt: Json -> string): seq<Json> {
    if Renders(thought) then [ThoughtLine(thought, fmt)] else []
  }

  /** The thinking lines of a list of thoughts, in order. */
  function ThoughtParts(thoughts: seq<Json>, fmt: Json -> string): (r: seq<Json>)
    ensures |r| <= |thoughts|
  {
    if thoughts == [] then []
    else ThoughtPart(thoughts[0], fmt) + ThoughtParts(thoughts[1..], fmt)
  }

  /** The lines collected so far followed by those of the remaining
      thoughts, split at the next thought. */
  lemma ThoughtPartsNext(acc: seq<Json>, thoughts: seq<Json>, fmt: Json -> string)
    requires thoughts != []
    ensures acc + ThoughtParts(thoughts, fmt) == (acc + ThoughtPart(thoughts[0], fmt)) + ThoughtParts(thoughts[1..], fmt)
  {
  }

  /** The loop over `thoughts`. */
  method CollectThoughts(thoughts: seq<Json>, fmt: Json -> string) returns (thinkingParts: seq<Json>)
    ensures thinkingParts == ThoughtParts(thoughts, fmt)
  {
    thinkingParts := [];
    for i := 0 to |thoughts|
      invariant thinkingParts + ThoughtParts(thoughts[i..], fmt) == ThoughtParts(thoughts, fmt)
    {
      var thought := thoughts[i];
      ThoughtPartsNext(thinkingParts, thoughts[i..], fmt);
      assert thoughts[i..][1..] == thoughts[i + 1..];
      if Renders(thought) {
        thinkingParts := thinkingParts + [ThoughtLine(thought, fmt)];
      } else {
        assert thinkingParts + ThoughtPart(thought, fmt) == thinkingParts;
      }
    }
    assert thoughts[|thoughts|..] == [];
  }

  // ------------------------------------------------------------ tool calls

  /** The comprehension over `toolCalls`: every dict becomes a record with
      `name` (default `""`) and `input` taken from `args` (default `{}`);
      anything else is skipped. */
  function ToolCalls(calls: seq<Json>): (r: seq<ToolUse>)
    ensures |r| <= |calls|
  {
    if calls == [] then []
    else
      (if calls[0].JObj? then [ToolUse(Field(calls[0], "name", JStr("")), Field(calls[0], "args", JObj([])))] else [])
      + ToolCalls(calls[1..])
  }

  // -------------------------------------------------------------- messages

  /** The message of one entry of `messages`: one for a `user` or a `gemini`
      entry, none for any other type. */
  function EntryMessages(msg: Json, fmt: Json -> string): (r: Result<seq<Message>>)
    requires msg.JObj?
    ensures Field(msg, "type", JNull) !in {JStr("user"), JStr("gemini")} ==> r == Ok([])
    ensures Field(msg, "type", JNull) == JStr("user") ==>
      r == Ok([Plain(User, Field(msg, "content", JStr("")), Field(msg, "timestamp", JNull))])
    ensures Field(msg, "type", JNull) == JStr("gemini") && r.Ok? ==>
      |r.value| == 1 && r.value[0].role == Assistant
      && r.value[0].content == Field(msg, "content", JStr(""))
      && r.value[0].timestamp == Field(msg, "timestamp", JNull)
      && r.value[0].model == Field(msg, "model", JStr("gemini"))
      && r.value[0].tokens == Field(msg, "tokens", JNull)
  {
    var msgType := Field(msg, "type", JNull);
    var timestamp := Field(msg, "timestamp", JNull);
    var content := Field(msg, "content", JStr(""));
    if msgType == JStr("user") then Ok([Plain(User, content, timestamp)])
    else if msgType == JStr("gemini") then
      var thoughts :- Iterate(Field(msg, "thoughts", JArr([])));
      var calls :- Iterate(Field(msg, "toolCalls", JArr([])));
      var thinking :- JoinLinesIfAny(ThoughtParts(thoughts, fmt));
      var toolUses := ToolCalls(calls);
      Ok([Plain(Assistant, content, timestamp).(
        thinking := thinking,
        toolUses := if toolUses == [] then None else Some(toolUses),
        model := Field(msg, "model", JStr("gemini")),
        tokens := Field(msg, "tokens", JNull))])
    else Ok([])
  }

  /** One entry of the message loop; `.get` on an entry that is not a dict raises. */
  function Step(messages: seq<Message>, msg: Json, fmt: Json -> string): Result<seq<Message>> {
    if !msg.JObj? then Raised(ShapeError)
    else
      var emitted :- EntryMessages(msg, fmt);
      Ok(messages + emitted)
  }

  /** `Step` with the formatting of non-string values fixed. */
  function Stepper(fmt: Json -> string): (seq<Message>, Json) -> Result<seq<Message>> {
    (ms, m) => Step(ms, m, fmt)
  }

  /** The message loop as a fold. */
  function Messages(items: seq<Json>, fmt: Json -> string): Result<seq<Message>> {
    Fold(Stepper(fmt), [], items)
  }

  /** `parse_gemini_conversation` on the decoded document (None: the file is
      not JSON, and `json.load` raises). */
  function GeminiConversation(doc: Option<Json>, sessionId: string, fmt: Json -> string): (r: Result<Conversation>)
    ensures doc.None? ==> r == Raised(JsonDecodeError)
    ensures doc.Some? && !doc.value.JObj? ==> r == Raised(ShapeError)
    ensures r.Ok? ==> r.value.summaries == [] && r.value.sessionId == sessionId
    ensures r.Ok? ==> r.value.meta == GeminiMeta(
      Field(doc.value, "sessionId", JNull), Field(doc.value, "projectHash", JNull),
      Field(doc.value, "startTime", JNull), Field(doc.value, "lastUpdated", JNull))
  {
    if doc.None? then Raised(JsonDecodeError)
    else
      var data := doc.value;
      if !data.JObj? then Raised(ShapeError)
      else
        var meta := GeminiMeta(
          Field(data, "sessionId", JNull), Field(data, "projectHash", JNull),
          Field(data, "startTime", JNull), Field(data, "lastUpdated", JNull));
        var items :- Iterate(Field(data, "messages", JArr([])));
        var messages :- Messages(items, fmt);
        Ok(Conversation([], messages, sessionId, meta))
  }

  /** `parse_gemini_conversation`: the loop over the document's messages. */
  method ParseGeminiConversation(doc: Option<Json>, sessionId: string, fmt: Json -> string) returns (r: Result<Conversation>)
    ensures r == GeminiConversation(doc, sessionId, fmt)
  {
    if doc.None? {
      return Raised(JsonDecodeError);
    }
    var data := doc.value;
    if !data.JObj? {
      return Raised(ShapeError);
    }
    var meta := GeminiMeta(
      Field(data, "sessionId", JNull), Field(data, "projectHash", JNull),
      Field(data, "startTime", JNull), Field(data, "lastUpdated", JNull));
    var itemsOrError := Iterate(Field(data, "messages", JArr([])));
    if itemsOrError.Raised? {
      return Raised(itemsOrError.exc);
    }
    var items := itemsOrError.value;
    var messages: seq<Message> := [];
    for i := 0 to |items|
      invariant Fold(Stepper(fmt), [], items) == Fold(Stepper(fmt), messages, items[i..])
    {
      assert items[i..][1..] == items[i + 1..];
      ghost var before := messages;
      var msg := items[i];
      if !msg.JObj? {
        return Raised(ShapeError);
      }
      var msgType := Field(msg, "type", JNull);
      var timestamp := Field(msg, "timestamp", JNull);
      var content := Field(msg, "content", JStr(""));
      if msgType == JStr("user") {
        messages := messages + [Plain(User, content, timestamp)];
        assert EntryMessages(msg, fmt) == Ok(messages[|before|..]);
      } else if msgType == JStr("gemini") {
        var thoughts := Iterate(Field(msg, "thoughts", JArr([])));
        if thoughts.Raised? {
          return Raised(thoughts.exc);
        }
        var thinkingParts := CollectThoughts(thoughts.value, fmt);
        var calls := Iterate(Field(msg, "toolCalls", JArr([])));
        if calls.Raised? {
          return Raised(calls.exc);
        }
        var toolUses := ToolCalls(calls.value);
        if !AllStrings(thinkingParts) {
          return Raised(ShapeError);
        }
        messages := messages + [Plain(Assistant, content, timestamp).(
          thinking := if thinkingParts != [] then Some(Join(Strs(thinkingParts), "\n")) else None,
          toolUses := if toolUses != [] then Some(toolUses) else None,
          model := Field(msg, "model", JStr("gemini")),
          tokens := Field(msg, "tokens", JNull))];
        assert EntryMessages(msg, fmt) == Ok(messages[|before|..]);
      } else {
        assert EntryMessages(msg, fmt) == Ok([]);
        assert before + [] == messages;
      }
      assert Fold(Stepper(fmt), before, items[i..]) == Fold(Stepper(fmt), messages, items[i + 1..]);
    }
    assert items[|items|..] == [];
    return Ok(Conversation([], messages, sessionId, meta));
  }

  // -------------------------------------------------------------- properties

  /** The thinking lines are empty exactly when no thought renders. */
  lemma {:induction false} ThoughtsAbsentIff(thoughts: seq<Json>, fmt: Json -> string)
    ensures ThoughtParts(thoughts, fmt) == [] <==> forall i :: 0 <= i < |thoughts| ==> !Renders(thoughts[i])
  {
    if thoughts != [] {
      ThoughtsAbsentIff(thoughts[1..], fmt);
      assert forall i :: 1 <= i < |thoughts| ==> thoughts[i] == thoughts[1..][i - 1];
    }
  }

  /** The tool records are empty exactly when no tool call is a dict. */
  lemma {:induction false} ToolCallsAbsentIff(calls: seq<Json>)
    ensures ToolCalls(calls) == [] <==> forall i :: 0 <= i < |calls| ==> !calls[i].JObj?
  {
    if calls != [] {
      ToolCallsAbsentIff(calls[1..]);
      assert forall i :: 1 <= i < |calls| ==> calls[i] == calls[1..][i - 1];
    }
  }

  /** The tool records keep the order of the calls: those of a concatenation
      are those of each part, in turn. */
  lemma {:induction false} ToolCallsAppend(a: seq<Json>, b: seq<Json>)
    ensures ToolCalls(a + b) == ToolCalls(a) + ToolCalls(b)
  {
    if a == [] {
      assert a + b == b;
    } else {
      assert (a + b)[1..] == a[1..] + b;
      ToolCallsAppend(a[1..], b);
      AppendAssociative(ToolCalls([a[0]]), ToolCalls(a[1..]), ToolCalls(b));
    }
  }

  /** A `gemini` entry's message has `thinking` exactly when some thought
      renders, holding the `"\n"`-join of the rendered lines, and `tool_uses`
      exactly when some tool call is a dict, holding their records. */
  lemma AssistantOptionals(msg: Json, fmt: Json -> string, thoughts: seq<Json>, calls: seq<Json>)
    requires msg.JObj? && Field(msg, "type", JNull) == JStr("gemini")
    requires Iterate(Field(msg, "thoughts", JArr([]))) == Ok(thoughts)
    requires Iterate(Field(msg, "toolCalls", JArr([]))) == Ok(calls)
    requires EntryMessages(msg, fmt).Ok?
    ensures var m := EntryMessages(msg, fmt).value[0];
      (m.thinking.None? <==> forall i :: 0 <= i < |thoughts| ==> !Renders(thoughts[i]))
      && (m.thinking.Some? ==> AllStrings(ThoughtParts(thoughts, fmt)) && m.thinking.value == Join(Strs(ThoughtParts(thoughts, fmt)), "\n"))
      && (m.toolUses.None? <==> forall i :: 0 <= i < |calls| ==> !calls[i].JObj?)
      && (m.toolUses.Some? ==> m.toolUses.value == ToolCalls(calls))
  {
    ThoughtsAbsentIff(thoughts, fmt);
    ToolCallsAbsentIff(calls);
  }

  /** The role of the message an entry yields, if it yields one. */
  function EntryRole(msg: Json): seq<Role> {
    if !msg.JObj? then []
    else
      var t := Field(msg, "type", JNull);
      if t == JStr("user") then [User] else if t == JStr("gemini") then [Assistant] else []
  }

  /** Reference definition: the role of each entry's message, in order. */
  function EntryRoles(items: seq<Json>): seq<Role> {
    if items == [] then [] else EntryRole(items[0]) + EntryRoles(items[1..])
  }

  /** The messages an entry yields when it can be processed, none otherwise. */
  function ItemMessages(msg: Json, fmt: Json -> string): seq<Message> {
    if msg.JObj? && EntryMessages(msg, fmt).Ok? then EntryMessages(msg, fmt).value else []
  }

  /** Reference definition: the messages of each entry, in order. */
  function DocMessages(items: seq<Json>, fmt: Json -> string): seq<Message> {
    if items == [] then [] else ItemMessages(items[0], fmt) + DocMessages(items[1..], fmt)
  }

  /** Whether an entry can be processed without raising. */
  predicate EntryParses(msg: Json, fmt: Json -> string) {
    Step([], msg, fmt).Ok?
  }

  /** Whether a step succeeds does not depend on the messages so far, and a
      successful step appends exactly the entry's role. */
  lemma StepShape(ms: seq<Message>, msg: Json, fmt: Json -> string)
    ensures Step(ms, msg, fmt).Ok? == EntryParses(msg, fmt)
    ensures Step(ms, msg, fmt).Ok? ==> Roles(Step(ms, msg, fmt).value) == Roles(ms) + EntryRole(msg)
    ensures Step(ms, msg, fmt).Ok? ==> Step(ms, msg, fmt).value == ms + ItemMessages(msg, fmt)
  {
    if msg.JObj? && EntryMessages(msg, fmt).Ok? {
      var e := EntryMessages(msg, fmt).value;
      assert Roles(e) == EntryRole(msg);
      assert Roles(ms + e) == Roles(ms) + Roles(e);
    }
  }

  lemma {:induction false} FoldShape(ms: seq<Message>, items: seq<Json>, fmt: Json -> string)
    ensures Fold(Stepper(fmt), ms, items).Ok? <==> forall i :: 0 <= i < |items| ==> EntryParses(items[i], fmt)
    ensures Fold(Stepper(fmt), ms, items).Ok? ==>
      Roles(Fold(Stepper(fmt), ms, items).value) == Roles(ms) + EntryRoles(items)
    ensures Fold(Stepper(fmt), ms, items).Ok? ==>
      Fold(Stepper(fmt), ms, items).value == ms + DocMessages(items, fmt)
    decreases |items|
  {
    if items == [] {
      assert Roles(ms) + [] == Roles(ms);
      assert ms + [] == ms;
    } else {
      StepShape(ms, items[0], fmt);
      assert forall i :: 1 <= i < |items| ==> items[i] == items[1..][i - 1];
      if Step(ms, items[0], fmt).Ok? {
        var t := Step(ms, items[0], fmt).value;
        FoldShape(t, items[1..], fmt);
        AppendAssociative(Roles(ms), EntryRole(items[0]), EntryRoles(items[1..]));
        AppendAssociative(ms, ItemMessages(items[0], fmt), DocMessages(items[1..], fmt));
      }
    }
  }

  /** The parse succeeds exactly when the document is a dict whose
      `messages` can be iterated and every entry can be processed; it then
      holds one message per `user` or `gemini` entry, in order, with role
      user or assistant respectively, and that message is the one the entry
      yields (EntryMessages). */
  lemma ConversationShape(data: Json, sessionId: string, fmt: Json -> string, items: seq<Json>)
    requires data.JObj? && Iterate(Field(data, "messages", JArr([]))) == Ok(items)
    ensures GeminiConversation(Some(data), sessionId, fmt).Ok? <==> forall i :: 0 <= i < |items| ==> EntryParses(items[i], fmt)
    ensures GeminiConversation(Some(data), sessionId, fmt).Ok? ==>
      var c := GeminiConversation(Some(data), sessionId, fmt).value;
      Roles(c.messages) == EntryRoles(items) && |c.messages| == |EntryRoles(items)|
      && c.messages == DocMessages(items, fmt)
  {
    FoldShape([], items, fmt);
  }

  /** Entries of any other type are skipped without affecting the rest. */
  lemma SkipsOtherEntries(a: seq<Json>, msg: Json, b: seq<Json>, fmt: Json -> string)
    requires msg.JObj? && Field(msg, "type", JNull) !in {JStr("user"), JStr("gemini")}
    ensures Messages(a + [msg] + b, fmt) == Messages(a + b, fmt)
  {
    forall t: seq<Message> ensures Stepper(fmt)(t, msg) == Ok(t) {
      assert t + [] == t;
    }
    FoldSkip(Stepper(fmt), [], a, msg, b);
  }

  const ExamplePlan := JObj([("subject", JStr("Plan")), ("description", JStr("read"))])
  const ExampleBare := JObj([("description", JStr("go"))])
  const ExampleEmpty := JObj([("subject", JStr(""))])

  /** Rendering of three thoughts: one with a subject, one with only a
      description, and one with nothing, next to a thought that is not a
      dict. */
  lemma ExampleThoughts(fmt: Json -> string)
    ensures ThoughtParts([ExamplePlan, JStr("x"), ExampleBare, ExampleEmpty], fmt)
      == [JStr("**Plan**: read"), JStr("go")]
  {
    var ts := [ExamplePlan, JStr("x"), ExampleBare, ExampleEmpty];
    assert Field(ExamplePlan, "subject", JStr("")) == JStr("Plan");
    assert ExamplePlan.fields[1..] == [("description", JStr("read"))];
    assert Field(ExamplePlan, "description", JStr("")) == JStr("read");
    assert ThoughtLine(ExamplePlan, fmt) == JStr("**" + "Plan" + "**: " + "read");
    assert Renders(ExamplePlan);
    assert "**" + "Plan" + "**: " + "read" == "**Plan**: read";
    assert ThoughtPart(ExamplePlan, fmt) == [JStr("**Plan**: read")];
    assert ExampleBare.fields[1..] == [];
    assert Field(ExampleBare, "subject", JStr("")) == JStr("");
    assert ThoughtPart(ExampleBare, fmt) == [JStr("go")];
    assert !Renders(ExampleEmpty);
    assert ts[1..] == [JStr("x"), ExampleBare, ExampleEmpty];
    assert ts[1..][1..] == [ExampleBare, ExampleEmpty];
    assert ts[1..][1..][1..] == [ExampleEmpty];
    assert [ExampleEmpty][1..] == [];
    assert ThoughtParts([ExampleEmpty], fmt) == [];
    assert ThoughtParts([ExampleBare, ExampleEmpty], fmt) == [JStr("go")];
    assert ThoughtParts([JStr("x"), ExampleBare, ExampleEmpty], fmt) == [JStr("go")];
  }
}
