/** Locating one session's file and handing it to its source's parser. */
module Locator {
  import opened Wrappers
  import opened JsonModel
  import opened Schema
  import opened Utils
  import ClaudeParser
  import CodexParser
  import GeminiParser

  /** A located session file: line-delimited (Claude, Codex) or a single
      document (Gemini). */
  datatype SessionFile = JsonlSession(jsonl: JsonlFile) | DocumentSession(doc: JsonFile)

  /** The directory scans the search walks, each in walk order:
      `claudeFiles` is every `*.jsonl` file under the project's directory
      (recursively, so sub-agent files too), `codexFiles` every `*.jsonl`
      file of the Codex data, `geminiFiles` every Gemini session document. */
  datatype Listing = Listing(claudeFiles: seq<JsonlFile>, codexFiles: seq<JsonlFile>, geminiFiles: seq<JsonFile>)

  /** Reference definition: the first element satisfying `p`. */
  function FirstMatch<T>(xs: seq<T>, p: T -> bool): Option<T> {
    if xs == [] then None else if p(xs[0]) then Some(xs[0]) else FirstMatch(xs[1..], p)
  }

  function ClaudeMatch(sessionId: string): JsonlFile -> bool {
    (f: JsonlFile) => f.stem == sessionId
  }

  function CodexMatch(sessionId: string, cwd: string): JsonlFile -> bool {
    (f: JsonlFile) => f.stem == sessionId && CodexCwd(f.body) == Some(JStr(cwd))
  }

  function GeminiMatch(sessionId: string, projectId: string): JsonFile -> bool {
    (f: JsonFile) => f.stem == sessionId && GeminiProjectHash(f.body) == Some(JStr(projectId))
  }

  function AsJsonl(found: Option<JsonlFile>): Option<SessionFile> {
    match found
    case None => None
    case Some(f) => Some(JsonlSession(f))
  }

  function AsDocument(found: Option<JsonFile>): Option<SessionFile> {
    match found
    case None => None
    case Some(f) => Some(DocumentSession(f))
  }

  /** `_find_session_file`: the first file with the session's stem that
      belongs to the project. A Codex project id that does not decode finds
      nothing. */
  function SessionFileOf(projectId: string, sessionId: string, source: Source, listing: Listing): Option<SessionFile> {
    match source
    case ClaudeCode => AsJsonl(FirstMatch(listing.claudeFiles, ClaudeMatch(sessionId)))
    case Codex =>
      (match DecodePathId(projectId)
       case None => None
       case Some(cwd) => AsJsonl(FirstMatch(listing.codexFiles, CodexMatch(sessionId, cwd))))
    case Gemini => AsDocument(FirstMatch(listing.geminiFiles, GeminiMatch(sessionId, projectId)))
  }

  /** `_find_session_file`: three linear searches with early return. */
  method FindSessionFile(projectId: string, sessionId: string, source: Source, listing: Listing)
    returns (r: Option<SessionFile>)
    ensures r == SessionFileOf(projectId, sessionId, source, listing)
  {
    if source == ClaudeCode {
      var files := listing.claudeFiles;
      for i := 0 to |files|
        invariant FirstMatch(files, ClaudeMatch(sessionId)) == FirstMatch(files[i..], ClaudeMatch(sessionId))
      {
        assert files[i..][1..] == files[i + 1..];
        if files[i].stem == sessionId {
          return Some(JsonlSession(files[i]));
        }
      }
      assert files[|files|..] == [];
    } else if source == Codex {
      var target := DecodePathId(projectId);
      if target.None? {
        return None;
      }
      var files := listing.codexFiles;
      for i := 0 to |files|
        invariant FirstMatch(files, CodexMatch(sessionId, target.value)) == FirstMatch(files[i..], CodexMatch(sessionId, target.value))
      {
        assert files[i..][1..] == files[i + 1..];
        if files[i].stem == sessionId {
          var cwd := GetCodexCwd(files[i].body);
          if cwd == Some(JStr(target.value)) {
            return Some(JsonlSession(files[i]));
          }
        }
      }
      assert files[|files|..] == [];
    } else {
      var files := listing.geminiFiles;
      for i := 0 to |files|
        invariant FirstMatch(files, GeminiMatch(sessionId, projectId)) == FirstMatch(files[i..], GeminiMatch(sessionId, projectId))
      {
        assert files[i..][1..] == files[i + 1..];
        if files[i].stem == sessionId && GeminiProjectHash(files[i].body) == Some(JStr(projectId)) {
          return Some(DocumentSession(files[i]));
        }
      }
      assert files[|files|..] == [];
    }
    return None;
  }

  /** What `get_conversation` returns: an error dict, or a parsed session. */
  datatype Reply = Failure(error: string) | Success(conversation: Conversation)

  /** The parser of the file's source on the file's contents; a file that
      cannot be opened raises. */
  function Parse(source: Source, file: SessionFile, sessionId: string, fmt: Json -> string): Result<Conversation> {
    match file
    case JsonlSession(f) =>
      if f.body.Unreadable? then Raised(IoError)
      else if source == ClaudeCode then ClaudeParser.ClaudeConversation(f.body.data, sessionId)
      else CodexParser.CodexConversation(f.body.data, sessionId)
    case DocumentSession(f) =>
      if f.body.Unreadable? then Raised(IoError)
      else GeminiParser.GeminiConversation(f.body.data, sessionId, fmt)
  }

  /** `get_conversation`: an unknown source and a missing session are
      error dicts; otherwise the parser's result is returned unchanged, and
      an exception it raises propagates. */
  function ConversationReply(projectId: string, sessionId: string, sourceId: string, listing: Listing, fmt: Json -> string): (r: Result<Reply>)
    ensures SourceOf(sourceId).None? ==> r == Ok(Failure("Unknown source"))
    ensures SourceOf(sourceId).Some? ==>
      (r == Ok(Failure("Session not found")) <==> SessionFileOf(projectId, sessionId, SourceOf(sourceId).value, listing).None?)
  {
    match SourceOf(sourceId)
    case None => Ok(Failure("Unknown source"))
    case Some(source) =>
      match SessionFileOf(projectId, sessionId, source, listing)
      case None => Ok(Failure("Session not found"))
      case Some(file) =>
        var c :- Parse(source, file, sessionId, fmt);
        Ok(Success(c))
  }

  /** `get_conversation`. */
  method GetConversation(projectId: string, sessionId: string, sourceId: string, listing: Listing, fmt: Json -> string)
    returns (r: Result<Reply>)
    ensures r == ConversationReply(projectId, sessionId, sourceId, listing, fmt)
  {
    var source := SourceOf(sourceId);
    if source.None? {
      return Ok(Failure("Unknown source"));
    }
    var file := FindSessionFile(projectId, sessionId, source.value, listing);
    if file.None? {
      return Ok(Failure("Session not found"));
    }
    var parsed: Result<Conversation>;
    match file.value {
      case JsonlSession(f) =>
        if f.body.Unreadable? {
          return Raised(IoError);
        }
        if source.value == ClaudeCode {
          parsed := ClaudeParser.ParseClaudeConversation(f.body.data, sessionId);
        } else {
          parsed := CodexParser.ParseCodexConversation(f.body.data, sessionId);
        }
      case DocumentSession(f) =>
        if f.body.Unreadable? {
          return Raised(IoError);
        }
        parsed := GeminiParser.ParseGeminiConversation(f.body.data, sessionId, fmt);
    }
    if parsed.Raised? {
      return Raised(parsed.exc);
    }
    return Ok(Success(parsed.value));
  }

  // ------------------------------------------------------------ properties

  /** The search returns the first matching element, and finds nothing
      exactly when no element matches. */
  lemma {:induction false} FirstMatchIsFirst<T>(xs: seq<T>, p: T -> bool)
    ensures FirstMatch(xs, p).None? <==> forall i :: 0 <= i < |xs| ==> !p(xs[i])
    ensures FirstMatch(xs, p).Some? ==>
      exists i :: 0 <= i < |xs| && xs[i] == FirstMatch(xs, p).value && p(xs[i]) && forall j :: 0 <= j < i ==> !p(xs[j])
  {
    if xs != [] && !p(xs[0]) {
      FirstMatchIsFirst(xs[1..], p);
      assert forall i :: 1 <= i < |xs| ==> xs[i] == xs[1..][i - 1];
      if FirstMatch(xs, p).Some? {
        var i :| 0 <= i < |xs[1..]| && xs[1..][i] == FirstMatch(xs, p).value && p(xs[1..][i])
          && forall j :: 0 <= j < i ==> !p(xs[1..][j]);
        assert xs[i + 1] == xs[1..][i];
      }
    }
  }

  /** A Claude session is the first file under the project whose stem is
      the session id; there is none exactly when no file has that stem. */
  lemma ClaudeSearch(projectId: string, sessionId: string, listing: Listing)
    ensures SessionFileOf(projectId, sessionId, ClaudeCode, listing).None? <==>
      forall i :: 0 <= i < |listing.claudeFiles| ==> listing.claudeFiles[i].stem != sessionId
    ensures SessionFileOf(projectId, sessionId, ClaudeCode, listing).Some? ==>
      var f := SessionFileOf(projectId, sessionId, ClaudeCode, listing).value;
      f.JsonlSession? && exists i :: (0 <= i < |listing.claudeFiles| && listing.claudeFiles[i] == f.jsonl
        && f.jsonl.stem == sessionId && forall j :: 0 <= j < i ==> listing.claudeFiles[j].stem != sessionId)
  {
    FirstMatchIsFirst(listing.claudeFiles, ClaudeMatch(sessionId));
  }

  /** The id of a Codex project finds the first file with the session's
      stem whose working directory is that project's. */
  lemma CodexSearch(cwd: string, sessionId: string, listing: Listing)
    ensures SessionFileOf(EncodePathId(cwd), sessionId, Codex, listing)
      == AsJsonl(FirstMatch(listing.codexFiles, CodexMatch(sessionId, cwd)))
    ensures SessionFileOf(EncodePathId(cwd), sessionId, Codex, listing).Some? ==>
      var f := SessionFileOf(EncodePathId(cwd), sessionId, Codex, listing).value.jsonl;
      f in listing.codexFiles && f.stem == sessionId && CodexCwd(f.body) == Some(JStr(cwd))
  {
    PathIdRoundTrip(cwd);
    FirstMatchIsFirst(listing.codexFiles, CodexMatch(sessionId, cwd));
  }

  /** A Gemini session is found only in a document of the project. */
  lemma GeminiSearch(projectId: string, sessionId: string, listing: Listing)
    ensures SessionFileOf(projectId, sessionId, Gemini, listing).None? <==>
      forall i :: 0 <= i < |listing.geminiFiles| ==> !GeminiMatch(sessionId, projectId)(listing.geminiFiles[i])
    ensures SessionFileOf(projectId, sessionId, Gemini, listing).Some? ==>
      var f := SessionFileOf(projectId, sessionId, Gemini, listing).value;
      f.DocumentSession? && f.doc in listing.geminiFiles && f.doc.stem == sessionId
      && GeminiProjectHash(f.doc.body) == Some(JStr(projectId))
  {
    FirstMatchIsFirst(listing.geminiFiles, GeminiMatch(sessionId, projectId));
  }

  /** A found file goes to exactly its source's parser, whose result comes
      back unchanged. */
  lemma Dispatch(projectId: string, sessionId: string, sourceId: string, listing: Listing, fmt: Json -> string)
    requires SourceOf(sourceId).Some?
    requires SessionFileOf(projectId, sessionId, SourceOf(sourceId).value, listing).Some?
    ensures var file := SessionFileOf(projectId, sessionId, SourceOf(sourceId).value, listing).value;
      var parsed := Parse(SourceOf(sourceId).value, file, sessionId, fmt);
      ConversationReply(projectId, sessionId, sourceId, listing, fmt)
        == (if parsed.Ok? then Ok(Success(parsed.value)) else Raised(parsed.exc))
    ensures var file := SessionFileOf(projectId, sessionId, SourceOf(sourceId).value, listing).value;
      (file.JsonlSession? <==> sourceId != "gemini")
  {
  }

  /** A Gemini document that is not JSON makes the request raise; no error
      dict is returned for it. */
  lemma GeminiParseFailureRaises(projectId: string, sessionId: string, listing: Listing, fmt: Json -> string)
    requires SessionFileOf(projectId, sessionId, Gemini, listing).Some?
    requires SessionFileOf(projectId, sessionId, Gemini, listing).value.doc.body == Readable(None)
    ensures ConversationReply(projectId, sessionId, "gemini", listing, fmt) == Raised(JsonDecodeError)
  {
  }

  /** A session served from a successful parse carries the requested id. */
  lemma ReplyCarriesSessionId(projectId: string, sessionId: string, sourceId: string, listing: Listing, fmt: Json -> string)
    requires ConversationReply(projectId, sessionId, sourceId, listing, fmt).Ok?
    requires ConversationReply(projectId, sessionId, sourceId, listing, fmt).value.Success?
    ensures ConversationReply(projectId, sessionId, sourceId, listing, fmt).value.conversation.sessionId == sessionId
  {
    var source := SourceOf(sourceId).value;
    var file := SessionFileOf(projectId, sessionId, source, listing).value;
    if file.JsonlSession? && source == ClaudeCode {
      ClaudeParser.ConversationShape(file.jsonl.body.data, sessionId);
    }
  }
}
