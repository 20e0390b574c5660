# clicodelog in Dafny

clicodelog is a local viewer for the logs that three coding assistants write:
Claude Code (one JSON object per line), OpenAI Codex (one JSON object per
line) and Google Gemini (one JSON document per session). It lists the
projects of a source, the sessions of a project with a short summary of each,
and the normalised conversation of a session. It also exports a conversation
as plain text.

This project models that core and proves properties of the model:

- `claude.dfy`, `codex.dfy` and `gemini.dfy` model the three parsers. Each
  turns one session file into the common `{summaries, messages, session_id,
  meta}` shape (`schema.dfy`). The Codex parser also merges tool-call and
  reasoning fragments into the assistant message before them.
- `utils.dfy` models the path-id codec: URL-safe base64 of the UTF-8 bytes,
  without padding (`base64.dfy`, `utf8.dfy`). It also models the two readers
  that find a session's grouping key: the Codex working directory and the
  Gemini project hash.
- `sessions.dfy` models the session summariser. It has a class
  `SessionState` for the mutable `state` dict, with one method per reader.
- `projects.dfy` models the project lists of the three sources: directory
  entries for Claude Code, and for Codex and Gemini, session files grouped by
  key and sorted.
- `conversation.dfy` (module `Locator`) models the session-file lookup and
  the dispatch to the right parser.
- `export.dfy` models the export endpoint: the text it builds and the
  response it sends.
- `legacy.dfy` models the older single-source `app.py`: its project list,
  session list and conversation view, each compared with the package's own.

The supporting modules are:

- `json.dfy`: Python's dynamic typing over decoded JSON. It covers `.get` on
  a non-dict, iteration, slicing, `+`, `str()` and `"\n".join`. Each of these
  raises where Python raises, so every operation returns
  `Result<T> = Ok(v) | Raised(exc)`.
- `text.dfy`: string helpers.
- `sorting.dfy`: Python's stable `sorted` on string keys.
- `folds.dfy`: the accumulator loop `Fold`, with generic lemmas about it.

Every loop in the source becomes a `method` with a `for` loop over the
indices of the sequence it walks. Its `ensures` ties the result to a
recursive specification function. The properties are proved about that
function.

The following are inputs rather than actions:

- Directory listings, in the order Python visits them.
- File contents: each line already decoded by `json.loads`, with `None` for
  a line that is not JSON, or `Unreadable` when the file cannot be opened.
- The loaded project metadata.
- The rendering of lists and dicts by `repr` (the parameter `fmt`).

## Model

| member | source | states |
|---|---|---|
| Schema.SourceOf | clicodelog/projects.py:7-8 | a source id is known exactly when it is `claude-code`, `codex` or `gemini` |
| Schema.Roles | clicodelog/parsers/claude.py:31-32 | the role list has one entry per message, the i-th being the i-th message's role |
| JsonModel.Get | clicodelog/parsers/claude.py:14 | `.get` succeeds exactly on a dict and yields the stored value or the default |
| JsonModel.SetItem | clicodelog/parsers/codex.py:107 | item assignment succeeds exactly on a dict; the key then holds the new value and every other key keeps its value |
| JsonModel.Iterate | clicodelog/parsers/claude.py:24 | a `for` loop runs over a list's items, a string's characters or a dict's keys, and raises on anything else |
| JsonModel.Prefix | clicodelog/sessions.py:92 | slicing `[:n]` works on strings and lists only and keeps the first `n` elements, or all when there are fewer |
| JsonModel.JoinStrs | clicodelog/parsers/claude.py:29 | `"\n".join` succeeds exactly when every part is a string, and then is the join of those strings |
| JsonModel.JoinLinesIfAny | clicodelog/parsers/claude.py:64 | `"\n".join(parts) if parts else None`: None exactly for no parts, raising exactly when a part is not a string |
| JsonModel.Add | clicodelog/routes/export.py:48 | `+` adds numbers (booleans count as 0/1), concatenates strings or lists, and raises on any other pair |
| JsonModel.Str | clicodelog/routes/export.py:43 | `str()` of a string is the string itself |
| Sorting.SortBySorted | clicodelog/projects.py:29 | `sorted` yields the input in ascending order, as a permutation of it |
| Utf8.EncodeChar | clicodelog/utils.py:6 | a character encodes to one to four bytes, and to one byte exactly when it is ASCII |
| Utf8.DecodeEncode | clicodelog/utils.py:5-13 | decoding UTF-8 gives back every encoded string |
| Utf8.EncodeAscii | clicodelog/utils.py:6 | an ASCII string encodes to one byte per character, each the character's code |
| Utf8.EncodeAppend | clicodelog/utils.py:6 | encoding works character by character: the encoding of a concatenation is the concatenation of the encodings |
| Base64.UrlSafeChar | clicodelog/utils.py:6 | every 6-bit value maps into the URL- and filename-safe alphabet |
| Base64.StdValue | clicodelog/utils.py:13 | the decoder's table gives a 6-bit value for alphabet bytes and nothing for `=` |
| Base64.DecodesEncoded | clicodelog/utils.py:5-13 | `urlsafe_b64decode` undoes `urlsafe_b64encode` for every byte string |
| Utils.Repadded | clicodelog/utils.py:10-12 | re-padding appends only `=`, fewer than four, up to a multiple of four characters |
| Utils.EncodedPathId | clicodelog/utils.py:5-6 | a path id uses only URL-safe characters, never `=`, and its length is never 1 modulo 4 |
| Utils.PathIdRoundTrip | clicodelog/utils.py:5-13 | `decode_path_id(encode_path_id(p)) == p` for every string `p` |
| Utils.GetCodexCwd | clicodelog/utils.py:16-29 | the line loop with its early return computes the working directory of the first `session_meta` entry, None when the file has none or cannot be read |
| Utils.FirstSessionMetaWins | clicodelog/utils.py:20-24 | the first `session_meta` entry decides the working directory; what follows it is never read |
| Utils.NoSessionMeta | clicodelog/utils.py:16-29 | a file without a `session_meta` entry has no working directory |
| Utils.GeminiProjectHash | clicodelog/utils.py:32-40 | a project hash exists exactly for a readable JSON dict, and is its `projectHash` (default `""`) |
| ClaudeParser.UserBlockText | clicodelog/parsers/claude.py:25-28 | a user block contributes text exactly when it is a `text` dict or a bare string |
| ClaudeParser.CollectUserText | clicodelog/parsers/claude.py:23-28 | the inner loop collects the texts of the user blocks in block order |
| ClaudeParser.FlattenUserContent | clicodelog/parsers/claude.py:21-29 | content that is not a list is kept; a list becomes the `"\n"`-join of its texts, and raises exactly when one is not a string |
| ClaudeParser.UserContentSplits | clicodelog/parsers/claude.py:22-29 | splitting flattened user content on newlines gives back its texts, when none of them holds a newline |
| ClaudeParser.UserMessage | clicodelog/parsers/claude.py:19-38 | a user entry fails exactly when `message` is not a dict or its content cannot be flattened; otherwise its message has role user, content equal to the flattened `message.content` (default ""), the entry's timestamp, uuid, cwd and git branch, and no thinking or tool uses |
| ClaudeParser.BlockParts | clicodelog/parsers/claude.py:49-59 | an assistant block adds text, thinking or a tool record exactly when it is a dict of that type |
| ClaudeParser.SortAssistantBlocks | clicodelog/parsers/claude.py:44-59 | the block loop sorts the blocks into texts, thinkings and tool records |
| ClaudeParser.PartsOfAppend | clicodelog/parsers/claude.py:48-59 | each list keeps block order: the parts of a concatenation are the parts of each half, in turn |
| ClaudeParser.PartsEmptyIff | clicodelog/parsers/claude.py:48-59 | each list is empty exactly when no block has its type |
| ClaudeParser.AssistantMessage | clicodelog/parsers/claude.py:40-70 | an assistant entry fails exactly when its content blocks cannot be read or a text or thinking is not a string; otherwise it yields an assistant message carrying the entry's timestamp and uuid and the message's model and usage |
| ClaudeParser.AssistantOptionals | clicodelog/parsers/claude.py:61-65 | `thinking` exists exactly when a thinking block does and is then the `"\n"`-join of the thinking blocks, `tool_uses` exists exactly when a tool block does, and the content is the join of the texts |
| ClaudeParser.AssistantMessageOf | clicodelog/parsers/claude.py:61-70 | an entry whose texts and thinkings are strings yields a message with the joined texts, the joined thinkings (None when there are none) and the tool records (None when there are none) |
| ClaudeParser.ParseClaudeConversation | clicodelog/parsers/claude.py:5-76 | the line loop computes the conversation the specification defines |
| ClaudeParser.StepShape | clicodelog/parsers/claude.py:12-74 | whether a line can be processed does not depend on earlier lines; a processed line adds exactly its role and its summary |
| ClaudeParser.ConversationShape | clicodelog/parsers/claude.py:5-76 | the parse succeeds exactly when every line can be processed; it then holds one message per user or assistant entry, in file order and with that role, each being the message UserMessage or AssistantMessage builds from its entry, every summary, and the session id |
| ClaudeParser.SkipsInertLine | clicodelog/parsers/claude.py:14-19 | a line that is not JSON, or an entry of another type, is skipped without affecting the rest |
| ClaudeParser.ExampleAssistantTurn | clicodelog/parsers/claude.py:40-70 | an assistant turn with one text block and one tool call gives that text, that tool record and no thinking |
| ClaudeParser.SmallSessionExample | clicodelog/parsers/claude.py:5-76 | a summary, a user turn and an assistant turn give one summary and two messages, as shown |
| GeminiParser.CollectThoughts | clicodelog/parsers/gemini.py:28-34 | the thoughts loop computes the thinking lines the specification defines |
| GeminiParser.ThoughtsAbsentIff | clicodelog/parsers/gemini.py:28-34 | there are no thinking lines exactly when no thought is a dict with a subject or description |
| GeminiParser.ExampleThoughts | clicodelog/parsers/gemini.py:28-34 | a thought renders as `**subject**: description`, or as the description alone without a subject; an empty thought or a non-dict is skipped |
| GeminiParser.ToolCalls | clicodelog/parsers/gemini.py:36-40 | at most one tool record per call |
| GeminiParser.ToolCallsAbsentIff | clicodelog/parsers/gemini.py:36-40 | there are no tool records exactly when no call is a dict |
| GeminiParser.ToolCallsAppend | clicodelog/parsers/gemini.py:36-40 | tool records keep the order of the calls |
| GeminiParser.EntryMessages | clicodelog/parsers/gemini.py:19-50 | a `user` entry gives one user message with its content and timestamp; a `gemini` entry gives one assistant message with its content, timestamp, model (default `gemini`) and tokens; any other type gives none |
| GeminiParser.AssistantOptionals | clicodelog/parsers/gemini.py:27-50 | `thinking` exists exactly when some thought renders, and is then the join of the rendered lines; `tool_uses` exists exactly when some call is a dict, and then holds their records |
| GeminiParser.GeminiConversation | clicodelog/parsers/gemini.py:5-52 | a file that is not JSON raises a decode error; a non-dict document raises; a result has no summaries, the session id, and the meta taken from the document |
| GeminiParser.ParseGeminiConversation | clicodelog/parsers/gemini.py:5-52 | the message loop computes the conversation the specification defines |
| GeminiParser.StepShape | clicodelog/parsers/gemini.py:19-50 | whether an entry can be processed does not depend on earlier ones; a processed entry adds exactly its role |
| GeminiParser.ConversationShape | clicodelog/parsers/gemini.py:5-52 | the parse succeeds exactly when every entry can be processed, and then holds one message per `user` or `gemini` entry, in order, with that role, each being the message EntryMessages builds from its entry |
| GeminiParser.SkipsOtherEntries | clicodelog/parsers/gemini.py:19-27 | an entry of another type is skipped without affecting the rest |
| CodexParser.KeptUserTexts | clicodelog/parsers/codex.py:28-40 | at most one text per block is kept, and no kept text is boilerplate |
| CodexParser.CollectInputText | clicodelog/parsers/codex.py:28-40 | the user block loop, with its `continue`, computes the kept texts |
| CodexParser.KeptRaisesOnNonString | clicodelog/parsers/codex.py:31-37 | the user block loop raises exactly when an `input_text` text is not a string |
| CodexParser.KeptIsFilteredInput | clicodelog/parsers/codex.py:28-40 | the kept texts are exactly the non-boilerplate `input_text` texts, in block order |
| CodexParser.OrdinaryTextThreshold | clicodelog/parsers/codex.py:32-39 | plain text is kept up to 1000 characters and dropped from 1001 |
| CodexParser.MarkupDropped | clicodelog/parsers/codex.py:33 | text starting with `<` is always dropped |
| CodexParser.TextsOfType | clicodelog/parsers/codex.py:49-53 | the comprehension is empty exactly when no block is a dict of the type |
| CodexParser.ReasoningText | clicodelog/parsers/codex.py:72-83 | encrypted reasoning shows the fixed placeholder |
| CodexParser.ResponseItem | clicodelog/parsers/codex.py:21-92 | a `response_item` emits at most one message, stamped with the entry's timestamp, and an assistant message is attributed to the running `model_provider` |
| CodexParser.EmitResponseItem | clicodelog/parsers/codex.py:22-92 | the branch computes what the specification emits |
| CodexParser.UserMessageEmits | clicodelog/parsers/codex.py:27-46 | a user `message` raises exactly when its content cannot be iterated or an `input_text` text is not a string; otherwise it emits a user message exactly when a text survives the boilerplate filter, holding the `"\n"`-join of the surviving texts and the timestamp |
| CodexParser.AssistantMessageEmits | clicodelog/parsers/codex.py:48-60 | an assistant `message` raises exactly when its content cannot be iterated or an `output_text` text is not a string; otherwise it emits exactly when some block is an `output_text` dict, one message holding the `"\n"`-join of those texts, the timestamp and the model |
| CodexParser.SummaryReasoningEmits | clicodelog/parsers/codex.py:71-92 | unencrypted reasoning raises exactly when its summary cannot be iterated or a `summary_text` text is not a string; otherwise it emits exactly when the `"\n"`-join of those texts is not empty, one message with empty content and that join, stripped, as its thinking |
| CodexParser.FunctionCallEmitsOneCall | clicodelog/parsers/codex.py:62-69 | a `function_call` emits one assistant message with empty content and the single record `{name, input: arguments}` |
| CodexParser.EncryptedReasoningPlaceholder | clicodelog/parsers/codex.py:71-92 | encrypted reasoning emits one message whose thinking is the placeholder, unchanged by stripping |
| CodexParser.StripUnpadded | clicodelog/parsers/codex.py:89 | `strip()` leaves text that neither starts nor ends with whitespace unchanged |
| CodexParser.BlankReasoningKept | clicodelog/parsers/codex.py:83-92 | reasoning made only of whitespace still emits a message, with empty thinking, which merging keeps on its own |
| CodexParser.ResponseItemEffect | clicodelog/parsers/codex.py:21-25 | a `response_item` leaves the metadata unchanged and attributes its message to the running provider |
| CodexParser.EventEffect | clicodelog/parsers/codex.py:94-102 | an `event_msg` leaves the metadata unchanged and attributes its message to the running provider |
| CodexParser.EntryEffect | clicodelog/parsers/codex.py:13-111 | one line emits at most one message, attributed to the metadata in force before it |
| CodexParser.TurnContextSetsOnlyModel | clicodelog/parsers/codex.py:104-107 | a `turn_context` with a truthy model emits nothing and overwrites only the `model` key of the metadata |
| CodexParser.SkipsUndecodableLine | clicodelog/parsers/codex.py:109-111 | a line that is not JSON is skipped without affecting the rest |
| CodexParser.StepFromState | clicodelog/parsers/codex.py:13-107 | what a line does depends only on the running metadata; earlier messages are kept in front |
| CodexParser.StepSessionMeta | clicodelog/parsers/codex.py:18-19 | a `session_meta` entry replaces the running metadata with its payload |
| CodexParser.SessionMetaForgetsEarlierLines | clicodelog/parsers/codex.py:18-19 | lines before a `session_meta` entry do not affect the meta the parse reports |
| CodexParser.Consolidated | clicodelog/parsers/codex.py:113-127 | merging never lengthens the list, and the last message keeps the role of the input's last message |
| CodexParser.AbsorbMerged | clicodelog/parsers/codex.py:116-126 | a fragment after an assistant message changes only that message: a tool fragment extends its `tool_uses` and leaves its thinking; a thinking fragment sets its thinking to the old thinking, a newline and the new one, or to the new one when the old is empty; content, timestamp and every other field stay |
| CodexParser.ConsolidationKeepsThinking | clicodelog/parsers/codex.py:113-127 | joined with newlines, the truthy thinking texts after merging equal those before, and there is some exactly when there was some, for messages that do not carry both tool calls and thinking |
| CodexParser.EmittedSingleKind | clicodelog/parsers/codex.py:21-106 | no line emits a message that carries both tool calls and thinking |
| CodexParser.CodexThinkingKept | clicodelog/parsers/codex.py:113-127 | the merged conversation keeps every thinking text the line loop emitted, in order |
| CodexParser.Consolidate | clicodelog/parsers/codex.py:114-127 | the merge loop, which updates the previous message in place, computes the merged list |
| CodexParser.ConsolidationKeepsUsers | clicodelog/parsers/codex.py:113-127 | merging never drops, alters or reorders a user message |
| CodexParser.ConsolidationKeepsTools | clicodelog/parsers/codex.py:116-120 | merging keeps every tool record, in order |
| CodexParser.ConsolidationLength | clicodelog/parsers/codex.py:116-127 | the merged list is shorter by exactly the number of content-less fragments that follow an assistant message |
| CodexParser.NoMergesNoChange | clicodelog/parsers/codex.py:113-127 | with no such fragment, merging changes nothing |
| CodexParser.TurnCollapses | clicodelog/parsers/codex.py:116-126 | an assistant text followed by a tool call and by reasoning becomes one message holding all three |
| CodexParser.ParseCodexConversation | clicodelog/parsers/codex.py:5-138 | the line loop, the merge loop and the result dict compute the conversation the specification defines |
| Sessions.Summary | clicodelog/sessions.py:69 | the summary is always truthy: the first summary when set, else the first user message, else `No summary` |
| Sessions.SessionState.constructor | clicodelog/sessions.py:52-53 | the state starts with nothing recorded |
| Sessions.SessionState.RecordTimestamp | clicodelog/sessions.py:111-114 | a truthy timestamp becomes the last one, and also the first one when none was recorded |
| Sessions.SessionState.ReadClaudeEntry | clicodelog/sessions.py:108-125 | the new state, or the exception, is the specification's for a Claude entry |
| Sessions.SessionState.ReadCodexEntry | clicodelog/sessions.py:128-149 | the new state, or the exception, is the specification's for a Codex entry |
| Sessions.SessionState.ReadJsonlFile | clicodelog/sessions.py:95-105 | the line loop, which skips lines that are not JSON, gives the specification's state or exception |
| Sessions.SessionState.ReadGeminiFile | clicodelog/sessions.py:80-92 | the document reader gives the specification's state or exception |
| Sessions.ParseJsonlSessionInfo | clicodelog/sessions.py:51-77 | the entry of a line-delimited file is the specification's; None when reading raised |
| Sessions.ParseGeminiSessionInfo | clicodelog/sessions.py:51-77 | the entry of a Gemini document is the specification's; None when reading raised |
| Sessions.JsonlInfos | clicodelog/sessions.py:37 | the list holds exactly the entries of the files that could be read, so an unreadable file is dropped |
| Sessions.GeminiInfos | clicodelog/sessions.py:37 | the same, for Gemini documents |
| Sessions.CodexFilesOf | clicodelog/sessions.py:26-29 | the Codex files kept are exactly those whose working directory is the target |
| Sessions.GeminiFilesOf | clicodelog/sessions.py:32-35 | the Gemini documents kept are exactly those whose project hash is the target |
| Sessions.GetSessions | clicodelog/sessions.py:9-37 | an unknown source, a missing Claude directory or an undecodable Codex id give an empty list; a Claude project lists its readable files; a decodable Codex id lists the readable files whose working directory it decodes to; a Gemini id lists the readable documents with that project hash |
| Sessions.GeminiProjectSessions | clicodelog/sessions.py:31-37 | a Gemini project lists a session exactly when some document with that project hash yields it |
| Sessions.CodexProjectSessions | clicodelog/sessions.py:21-29 | a Codex project id lists exactly the readable sessions whose working directory is the one the id encodes |
| Sessions.ReadFollowsRules | clicodelog/sessions.py:108-116 | each line obeys the timestamp rule, and in Claude files the first-summary and counting rules too |
| Sessions.JsonlTimestamps | clicodelog/sessions.py:111-114 | in both line formats the first and last timestamps are the file's first and last truthy `timestamp` |
| Sessions.GeminiTimestamps | clicodelog/sessions.py:83-84 | a Gemini document's timestamps are its `startTime` and `lastUpdated` |
| Sessions.ClaudeFirstSummary | clicodelog/sessions.py:109-110 | a Claude summary is the first non-empty summary entry, falling back to the preview, then to `No summary` |
| Sessions.ClaudeCountMatchesParser | clicodelog/sessions.py:115-116 | a Claude session's count equals the number of messages the parser returns for the same lines |
| Sessions.GeminiCountMatchesParser | clicodelog/sessions.py:85-88 | whenever the Gemini parser succeeds, the summary does too, and its count equals the parsed message count |
| Sessions.CodexEntryCounts | clicodelog/sessions.py:134-138 | a Codex `response_item` with role user or assistant counts one, whatever its content |
| Sessions.CodexCountCanExceedParser | clicodelog/sessions.py:134-138 | a Codex file holding only a markup user turn counts one message while the parser returns none |
| Sessions.CodexPreviewIsFirstUsable | clicodelog/sessions.py:139-145 | a Codex preview is the first 100 characters of the first usable `input_text` block |
| Sessions.CodexPreviewNotMarkup | clicodelog/sessions.py:143-144 | a Codex preview from blocks is a string of at most 100 characters that does not start with `<` |
| Sessions.JsonlPreviewBounded | clicodelog/sessions.py:117-149 | in both line formats the preview holds at most 100 characters (or items, for a list content) |
| Sessions.GeminiPreviewBounded | clicodelog/sessions.py:89-92 | a Gemini preview, if any, is a string of at most 100 characters |
| Projects.MetaDefaults | clicodelog/projects.py:16-17 | a project without metadata gets an empty custom name and no tags |
| Projects.Described | clicodelog/projects.py:20-30 | one project per row, in order, keeping the row's id, name and count and carrying that id's metadata; it fails exactly when some metadata cannot be read |
| Projects.ClaudeName | clicodelog/projects.py:23 | a display name holds no `-` and does not start with `/`; it is the directory name with its leading run of `-` and `/` dropped and every other `-` read as `/`, character by character |
| Projects.DirsOf | clicodelog/projects.py:29 | the filter keeps exactly the entries that are directories |
| Projects.ClaudeRows | clicodelog/projects.py:20-30 | each directory gives its name, its display name and the number of session files beneath it |
| Projects.GroupCodexFiles | clicodelog/projects.py:33-37 | the Codex grouping loop computes the specification's groups |
| Projects.GroupGeminiFiles | clicodelog/projects.py:51-55 | the Gemini grouping loop computes the specification's groups |
| Projects.GroupedOk | clicodelog/projects.py:33-37 | grouping raises exactly when a truthy key is not a string |
| Projects.GroupedShape | clicodelog/projects.py:33-37 | the groups are the distinct non-empty keys, each holding exactly the files with that key |
| Projects.GroupedTotal | clicodelog/projects.py:33-37 | the group sizes add up to the number of files with a truthy key |
| Projects.GroupRows | clicodelog/projects.py:38-48 | one row per key, in key order, with that group's size |
| Projects.SortedKeys | clicodelog/projects.py:47 | the sorted keys are group keys |
| Projects.SortedKeysShape | clicodelog/projects.py:47 | the sorted keys are ascending, distinct, exactly the group keys, with the same total size |
| Projects.GroupedListing | clicodelog/projects.py:32-66 | a grouped listing has one project per distinct key, ascending, each counting the files with its key |
| Projects.GetProjects | clicodelog/projects.py:6-66 | an unknown source or a missing data directory gives an empty list |
| Projects.ClaudeListing | clicodelog/projects.py:19-30 | Claude projects are ascending by directory name, one per directory and nothing else |
| Projects.CodexListing | clicodelog/projects.py:32-48 | Codex project names are ascending without repeats and are exactly the non-empty working directories; each counts its files, and the counts add up to the files with a truthy directory |
| Projects.CodexIdsDecode | clicodelog/projects.py:40-41 | every Codex project id decodes back to the project's working directory |
| Projects.GeminiListing | clicodelog/projects.py:50-66 | Gemini project ids are ascending without repeats and are exactly the non-empty hashes; each is named after its hash and counts its documents |
| Locator.FindSessionFile | clicodelog/conversation.py:26-46 | the three searches with early return compute the specification's file |
| Locator.FirstMatchIsFirst | clicodelog/conversation.py:28-30 | a search returns the first matching file, and nothing exactly when no file matches |
| Locator.ClaudeSearch | clicodelog/conversation.py:27-30 | a Claude session is the first file under the project with the session's stem |
| Locator.CodexSearch | clicodelog/conversation.py:32-39 | a Codex project id finds the first file with the session's stem whose working directory is the id's |
| Locator.GeminiSearch | clicodelog/conversation.py:41-44 | a Gemini session is found only in a document of that project, with the session's stem |
| Locator.ConversationReply | clicodelog/conversation.py:8-23 | an unknown source gives `Unknown source`; a session that cannot be found gives `Session not found`, and only then |
| Locator.GetConversation | clicodelog/conversation.py:8-23 | the lookup and dispatch compute the specification's reply |
| Locator.Dispatch | clicodelog/conversation.py:18-23 | a found file goes to its source's parser, whose result or exception comes back unchanged |
| Locator.GeminiParseFailureRaises | clicodelog/conversation.py:23 | a Gemini document that is not JSON makes the request raise instead of giving an error dict |
| Locator.ReplyCarriesSessionId | clicodelog/conversation.py:18-23 | a conversation that is served carries the requested session id |
| Export.Clipped | clicodelog/routes/export.py:45 | a value is kept whole up to 200 characters; a longer one is cut to 200 and followed by `...` |
| Export.Tokens | clicodelog/routes/export.py:48-49 | the token line needs a dict usage, and sums the input and output counts (0 when missing) |
| Export.AppendInputs | clicodelog/routes/export.py:42-45 | the loop adds one line per input item |
| Export.AppendTools | clicodelog/routes/export.py:40-47 | the loop adds each tool's lines |
| Export.AppendMessage | clicodelog/routes/export.py:29-51 | one message's block is appended as the specification defines |
| Export.AppendSummaries | clicodelog/routes/export.py:23-27 | the summaries block is appended as the specification defines |
| Export.RenderExport | clicodelog/routes/export.py:20-54 | the line building and the join compute the exported text |
| Export.ApiExport | clicodelog/routes/export.py:12-57 | the endpoint computes the specification's response |
| Export.ExportResponse | clicodelog/routes/export.py:12-57 | an error reply answers 404 with its message; an attachment is named `<session>.txt` and comes only from a served conversation |
| Export.SectionsAppend | clicodelog/routes/export.py:31-50 | a message's sections add string lines, except its content, which comes right after the heading |
| Export.MessageSucceeds | clicodelog/routes/export.py:48-50 | a message block renders exactly when its usage adds up |
| Export.MessageAppends | clicodelog/routes/export.py:29-51 | a message block keeps earlier lines, adds strings apart from its content, and holds a truthy content |
| Export.MessageStrings | clicodelog/routes/export.py:29-51 | a message block's lines are all strings exactly when the earlier ones were and its content is text |
| Export.MessagesSucceed | clicodelog/routes/export.py:29-51 | the messages render exactly when every usage adds up |
| Export.MessagesStrings | clicodelog/routes/export.py:29-51 | the rendered lines are all strings exactly when every content is text |
| Export.ContentsKept | clicodelog/routes/export.py:34-35 | every truthy content is among the rendered lines |
| Export.MessagesExtend | clicodelog/routes/export.py:29-51 | rendering the messages keeps the lines before them in place |
| Export.StartIsText | clicodelog/routes/export.py:20-27 | the header and the summaries are string lines |
| Export.ExportSucceeds | clicodelog/routes/export.py:20-54 | the export succeeds exactly when every message has text content (if any) and a usage that adds up (if any) |
| Export.ContentExported | clicodelog/routes/export.py:34-35 | every truthy message content is a string contained in the exported text |
| Export.HeaderFirst | clicodelog/routes/export.py:20-21 | the exported text opens with the framed `Session:` and `Project:` lines |
| Legacy.ProjectsOfDirs | app.py:93-103 | the i-th project is made from the i-th directory entry |
| Legacy.GetProjects | app.py:87-105 | the loop over the sorted directory computes the specification's list |
| Legacy.DirsOfSortBy | app.py:93-94 | sorting, then keeping directories, equals keeping directories, then sorting |
| Legacy.ProjectListing | app.py:87-105 | no data directory gives an empty list; otherwise one project per directory, ascending by id, sound and complete |
| Legacy.SameProjectsAsPackage | app.py:93-103 | the legacy list shows the same projects, in the same order and under the same names, as the package's Claude Code list |
| Legacy.ScanFile | app.py:123-136 | the line loop computes the specification's scan |
| Legacy.SessionsOfExactly | app.py:137-150 | the list holds exactly the entries of the files that could be scanned |
| Legacy.SessionList | app.py:108-112 | a missing project directory gives an empty list |
| Legacy.GetSessions | app.py:108-152 | the loop over the session files, which skips a file that raises, computes the specification's list |
| Legacy.ScanContents | app.py:124-136 | a scan succeeds exactly when every line is either not JSON or a dict; it records the first and last truthy timestamps, the first non-empty summary (else `No summary`) and the number of user and assistant entries |
| Legacy.SameScanAsPackage | app.py:124-136 | wherever the package summariser reads a Claude file, the legacy scan agrees with it except for the first-user-message preview |
| Legacy.ConversationReply | app.py:155-159 | a missing file gives `Session not found`; a served conversation carries the session id |
| Legacy.GetConversation | app.py:155-235 | the legacy view computes the specification's reply |
| Legacy.SameConversationAsPackage | app.py:155-235 | for the file the package finds, the legacy view replies exactly as the package does |
| Legacy.ListedCountMatchesView | app.py:133-134 | a listed session opens on exactly as many messages as it was listed with, under the listed id |

## Left out

- File-system access: `open`, `exists`, `iterdir`, `glob`, `rglob` and `stat` are not performed. Listings are inputs already in visiting order, and the newest-first `st_mtime` sort is assumed done.
- The `size`, `modified`, `full_path` and `path` fields of sessions and projects are not modelled: they come from `stat` and from path strings.
- `print` of errors is left out.
- JSON decoding is not modelled: a line is given decoded, or as None when `json.loads` fails. Floats are left out; numbers are integers. Dict keys are assumed distinct, as the decoder produces them.
- `repr` of lists and dicts in f-strings is the parameter `fmt`, because it depends on Python's Unicode database.
- Exception kinds are not told apart beyond decode error, shape error and OS error; nothing in the core observes the kind.
- `load_project_meta` is not part of this model: the loaded metadata dict is an input. `get_project_meta_key` is modelled as `Projects.MetaKey`, `<source>:<project>`.
- `get_subagent_sessions` (`clicodelog/sessions.py:40-48`) and the `subagent_count` field are not modelled; the file's subagent count is only carried as an input.
- The sync code, background sync, `server.py` and every route other than export are left out. In the legacy `app.py` only `get_projects`, `get_sessions` and `get_conversation` are modelled, not the Flask routes.
- A file that disappears between `exists()` and `open` is not modelled.
- CodexParser.ConsolidationKeepsThinking: stated only for messages that do not carry both tool calls and thinking. A fragment with both would lose its thinking in the tool merge, as the source's `continue` does; the line loop never emits one (EmittedSingleKind), so CodexThinkingKept covers every parsed file.
- Codex consolidation updates the previous dict in place; the model replaces the last list element, which no other holder of the dict can observe.
- `binascii.a2b_base64` is modelled in its default lenient mode only: bytes outside the alphabet are skipped, `=` ends the input once it completes a group of at least two data characters, and a group left incomplete is an error. Its `strict_mode`, which `decode_path_id` never sets, is left out, and its error messages are not told apart.
- Legacy.ConversationReply: the line loop of `app.py:161-235` is the same statement for statement as `clicodelog/parsers/claude.py:7-76`, so the model reuses the Claude parser instead of repeating it.
- Legacy.SessionList: the `st_mtime` order is an input, as for the package's session list.
- Projects.GetProjects: the function's own contract only states the empty cases; the full listing is stated by ClaudeListing, CodexListing and GeminiListing about the per-source functions.
