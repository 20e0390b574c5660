/** The unified shape the three parsers produce, and the abstract view of the
    files they read. */
module Schema {
  import opened Wrappers
  import opened JsonModel

  datatype Role = User | Assistant

  /** The role as the result dict spells it. */
  function RoleName(r: Role): string {
    match r
    case User => "user"
    case Assistant => "assistant"
  }

  /** A tool invocation record `{"name": ..., "input": ...}`. */
  datatype ToolUse = ToolUse(name: Json, input: Json)

  /** One normalised message. A key a parser does not set and a key it sets
      to `None` are both `JNull` (or `None` for `thinking` and `tool_uses`):
      every consumer reads them with `.get`, which cannot tell them apart. */
  datatype Message = Message(
    role: Role,
    content: Json,
    thinking: Option<string>,
    toolUses: Option<seq<ToolUse>>,
    timestamp: Json,
    model: Json,
    usage: Json,
    tokens: Json,
    uuid: Json,
    cwd: Json,
    gitBranch: Json)

  /** A message with only a role, a content and a timestamp. */
  function Plain(role: Role, content: Json, timestamp: Json): Message {
    Message(role, content, None, None, timestamp, JNull, JNull, JNull, JNull, JNull, JNull)
  }

  /** The role of each message, in order. */
  function Roles(ms: seq<Message>): (r: seq<Role>)
    ensures |r| == |ms| && forall i :: 0 <= i < |ms| ==> r[i] == ms[i].role
  {
    if ms == [] then [] else [ms[0].role] + Roles(ms[1..])
  }

  /** Appending a message appends its role. */
  lemma RolesSnoc(ms: seq<Message>, m: Message)
    ensures Roles(ms + [m]) == Roles(ms) + [m.role]
  {
    var r := Roles(ms + [m]);
    assert forall i :: 0 <= i < |ms| ==> (ms + [m])[i] == ms[i];
    assert r == Roles(ms) + [m.role];
  }

  /** The session-level `meta` of a result: none for the Claude format. */
  datatype Meta =
    | NoMeta
    | CodexMeta(cwd: Json, model: Json, cliVersion: Json)
    | GeminiMeta(sessionId: Json, projectHash: Json, startTime: Json, lastUpdated: Json)

  /** `{"summaries", "messages", "session_id", "meta"}`. */
  datatype Conversation = Conversation(summaries: seq<Json>, messages: seq<Message>, sessionId: string, meta: Meta)

  /** The keys of the source table. */
  datatype Source = ClaudeCode | Codex | Gemini

  function SourceOf(id: string): (r: Option<Source>)
    ensures r.Some? <==> id in {"claude-code", "codex", "gemini"}
  {
    if id == "claude-code" then Some(ClaudeCode)
    else if id == "codex" then Some(Codex)
    else if id == "gemini" then Some(Gemini)
    else None
  }

  /** A JSONL file's lines, each decoded by `json.loads` (None: the line is not JSON). */
  type Lines = seq<Option<Json>>

  /** What opening a file gives: its contents, or an OS error. */
  datatype Contents<T> = Unreadable | Readable(data: T)

  /** A line-delimited session file: its stem, its file name, its decoded
      lines and the number of `*.jsonl` files in the same-named directory
      beside it. */
  datatype JsonlFile = JsonlFile(stem: string, name: string, body: Contents<Lines>, subagents: nat)

  /** A single-document session file; `Readable(None)` is a file that is not JSON. */
  datatype JsonFile = JsonFile(stem: string, name: string, body: Contents<Option<Json>>, subagents: nat)
}
