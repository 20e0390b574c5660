/** The single-source viewer of the top-level `app.py`: its project list,
    its session list and its conversation view, all over the Claude Code
    data directory. */
module Legacy {
  import opened Wrappers
  import opened Text
  import opened JsonModel
  import opened Schema
  import opened Folds
  import opened Sorting
  import Projects
  import Sessions
  import ClaudeParser
  import Locator

  // --------------------------------------------------------- the project list

  /** A project entry (its filesystem `path` is left out of the model). */
  datatype ProjectInfo = ProjectInfo(id: string, name: string, sessionCount: nat)

  /** The entry of one directory: its name, its readable name and the
      number of `*.jsonl` files directly inside it. */
  function ProjectOf(d: Projects.DirEntry): ProjectInfo {
    ProjectInfo(d.name, Projects.ClaudeName(d.name), d.topFiles)
  }

  /** The entries of the directories among `entries`, in order. */
  function ProjectsOf(entries: seq<Projects.DirEntry>): seq<ProjectInfo> {
    if entries == [] then []
    else (if entries[0].isDir then [ProjectOf(entries[0])] else []) + ProjectsOf(entries[1..])
  }

  /** The entries of the given directories, in order. */
  function Listed(ds: seq<Projects.DirEntry>): (r: seq<ProjectInfo>)
    ensures |r| == |ds|
  {
    if ds == [] then [] else [ProjectOf(ds[0])] + Listed(ds[1..])
  }

  lemma {:induction false} ListedAt(ds: seq<Projects.DirEntry>)
    ensures forall i :: 0 <= i < |ds| ==> Listed(ds)[i] == ProjectOf(ds[i])
  {
    if ds != [] {
      ListedAt(ds[1..]);
      forall i | 1 <= i < |ds|
        ensures Listed(ds)[i] == ProjectOf(ds[i])
      {
        assert Listed(ds)[i] == Listed(ds[1..])[i - 1];
      }
    }
  }

  /** Keeping the directories, then listing, is listing as the loop does. */
  lemma {:induction false} ProjectsOfListed(entries: seq<Projects.DirEntry>)
    ensures ProjectsOf(entries) == Listed(Projects.DirsOf(entries))
  {
    if entries != [] {
      ProjectsOfListed(entries[1..]);
      var ds := Projects.DirsOf(entries[1..]);
      var e := entries[0];
      if e.isDir {
        assert Projects.DirsOf(entries) == [e] + ds;
        assert ([e] + ds)[1..] == ds;
        assert Listed([e] + ds) == [ProjectOf(e)] + Listed(ds);
      } else {
        assert Projects.DirsOf(entries) == ds;
      }
    }
  }

  /** The project of the `i`-th directory is the `i`-th entry. */
  lemma ProjectsOfDirs(entries: seq<Projects.DirEntry>)
    ensures |ProjectsOf(entries)| == |Projects.DirsOf(entries)|
    ensures forall i :: 0 <= i < |ProjectsOf(entries)| ==> ProjectsOf(entries)[i] == ProjectOf(Projects.DirsOf(entries)[i])
  {
    ProjectsOfListed(entries);
    ListedAt(Projects.DirsOf(entries));
  }

  /** `get_projects`: nothing without a data directory; otherwise its
      entries sorted by name, keeping the directories. */
  function ProjectList(dataDirExists: bool, entries: seq<Projects.DirEntry>): seq<ProjectInfo> {
    if !dataDirExists then [] else ProjectsOf(SortBy(entries, Projects.EntryName))
  }

  /** `get_projects`: the loop over the sorted directory. */
  method GetProjects(dataDirExists: bool, entries: seq<Projects.DirEntry>) returns (projects: seq<ProjectInfo>)
    ensures projects == ProjectList(dataDirExists, entries)
  {
    if !dataDirExists {
      return [];
    }
    projects := [];
    var sorted := SortBy(entries, Projects.EntryName);
    for i := 0 to |sorted|
      invariant projects + ProjectsOf(sorted[i..]) == ProjectsOf(sorted)
    {
      assert sorted[i..] == [sorted[i]] + sorted[i + 1..];
      var d := sorted[i];
      if d.isDir {
        projects := projects + [ProjectInfo(d.name, Projects.ClaudeName(d.name), d.topFiles)];
      }
    }
    assert sorted[|sorted|..] == [];
  }

  /** Keeping the directories of a list led by `e`. */
  lemma DirsOfCons(e: Projects.DirEntry, es: seq<Projects.DirEntry>)
    ensures Projects.DirsOf([e] + es) == (if e.isDir then [e] else []) + Projects.DirsOf(es)
  {
    assert ([e] + es)[1..] == es;
  }

  /** Inserting into a sorted list, then keeping the directories, is
      keeping the directories, then inserting (when the new entry is one). */
  lemma {:induction false} DirsOfInsert(x: Projects.DirEntry, xs: seq<Projects.DirEntry>)
    requires SortedBy(xs, Projects.EntryName)
    ensures Projects.DirsOf(Insert(x, xs, Projects.EntryName)) ==
      if x.isDir then Insert(x, Projects.DirsOf(xs), Projects.EntryName) else Projects.DirsOf(xs)
  {
    var key := Projects.EntryName;
    if xs == [] {
      DirsOfCons(x, []);
    } else if LexLe(x.name, xs[0].name) {
      InsertFront(x, xs);
    } else {
      assert SortedBy(xs[1..], key) by {
        forall i, j | 0 <= i < j < |xs[1..]|
          ensures LexLe(key(xs[1..][i]), key(xs[1..][j]))
        {
          assert xs[1..][i] == xs[i + 1] && xs[1..][j] == xs[j + 1];
        }
      }
      DirsOfInsert(x, xs[1..]);
      InsertLater(x, xs);
    }
  }

  /** An entry not above the head of a sorted list goes in front, before
      and after keeping the directories. */
  lemma InsertFront(x: Projects.DirEntry, xs: seq<Projects.DirEntry>)
    requires SortedBy(xs, Projects.EntryName)
    requires xs != [] && LexLe(x.name, xs[0].name)
    ensures Projects.DirsOf(Insert(x, xs, Projects.EntryName)) ==
      if x.isDir then Insert(x, Projects.DirsOf(xs), Projects.EntryName) else Projects.DirsOf(xs)
  {
    var key := Projects.EntryName;
    assert Insert(x, xs, key) == [x] + xs;
    DirsOfCons(x, xs);
    var ds := Projects.DirsOf(xs);
    if x.isDir && ds != [] {
      assert ds[0] in ds;
      var j :| 0 <= j < |xs| && xs[j] == ds[0];
      if j > 0 {
        LexLeTransitive(x.name, xs[0].name, xs[j].name);
      }
      assert Insert(x, ds, key) == [x] + ds;
    }
  }

  /** An entry above the head of a list goes in after it, before and
      after keeping the directories. */
  lemma InsertLater(x: Projects.DirEntry, xs: seq<Projects.DirEntry>)
    requires xs != [] && !LexLe(x.name, xs[0].name)
    requires Projects.DirsOf(Insert(x, xs[1..], Projects.EntryName)) ==
      if x.isDir then Insert(x, Projects.DirsOf(xs[1..]), Projects.EntryName) else Projects.DirsOf(xs[1..])
    ensures Projects.DirsOf(Insert(x, xs, Projects.EntryName)) ==
      if x.isDir then Insert(x, Projects.DirsOf(xs), Projects.EntryName) else Projects.DirsOf(xs)
  {
    var key := Projects.EntryName;
    var rest := Insert(x, xs[1..], key);
    var d1 := Projects.DirsOf(xs[1..]);
    var head := if xs[0].isDir then [xs[0]] else [];
    assert Insert(x, xs, key) == [xs[0]] + rest;
    DirsOfCons(xs[0], rest);
    assert xs == [xs[0]] + xs[1..];
    DirsOfCons(xs[0], xs[1..]);
    assert Projects.DirsOf(xs) == head + d1;
    if x.isDir && xs[0].isDir {
      InsertPast(x, xs[0], d1);
      assert Projects.DirsOf(Insert(x, xs, key)) == [xs[0]] + Insert(x, d1, key);
    } else if x.isDir {
      assert head + d1 == d1;
      assert Projects.DirsOf(Insert(x, xs, key)) == [] + Insert(x, d1, key);
      assert [] + Insert(x, d1, key) == Insert(x, d1, key);
    }
  }

  lemma InsertPast(x: Projects.DirEntry, y: Projects.DirEntry, ys: seq<Projects.DirEntry>)
    requires !LexLe(x.name, y.name)
    ensures Insert(x, [y] + ys, Projects.EntryName) == [y] + Insert(x, ys, Projects.EntryName)
  {
    assert ([y] + ys)[0] == y && ([y] + ys)[1..] == ys;
  }

  /** Sorting, then keeping the directories, is keeping the directories,
      then sorting: the sort is stable. */
  lemma {:induction false} DirsOfSortBy(xs: seq<Projects.DirEntry>)
    ensures Projects.DirsOf(SortBy(xs, Projects.EntryName)) == SortBy(Projects.DirsOf(xs), Projects.EntryName)
  {
    if xs != [] {
      DirsOfSortBy(xs[1..]);
      SortBySorted(xs[1..], Projects.EntryName);
      DirsOfInsert(xs[0], SortBy(xs[1..], Projects.EntryName));
      assert xs == [xs[0]] + xs[1..];
      DirsOfCons(xs[0], xs[1..]);
      var ds := Projects.DirsOf(xs);
      if xs[0].isDir {
        assert ds[0] == xs[0] && ds[1..] == Projects.DirsOf(xs[1..]);
      } else {
        assert ds == Projects.DirsOf(xs[1..]);
      }
    }
  }

  /** The list holds one entry per directory of the data directory, in
      name order, each with the directory's name, its readable name and
      its own session files; without a data directory it is empty. */
  lemma ProjectListing(dataDirExists: bool, entries: seq<Projects.DirEntry>)
    ensures !dataDirExists ==> ProjectList(dataDirExists, entries) == []
    ensures dataDirExists ==> |ProjectList(dataDirExists, entries)| == |Projects.DirsOf(entries)|
    ensures forall i, j :: 0 <= i < j < |ProjectList(dataDirExists, entries)| ==>
      LexLe(ProjectList(dataDirExists, entries)[i].id, ProjectList(dataDirExists, entries)[j].id)
    ensures forall p :: p in ProjectList(dataDirExists, entries) ==>
      exists e :: e in entries && e.isDir && p == ProjectOf(e)
    ensures dataDirExists ==> forall e :: e in entries && e.isDir ==> ProjectOf(e) in ProjectList(dataDirExists, entries)
  {
    if dataDirExists {
      var dirs := Projects.DirsOf(entries);
      var ds := SortBy(dirs, Projects.EntryName);
      DirsOfSortBy(entries);
      ProjectsOfDirs(SortBy(entries, Projects.EntryName));
      SortBySorted(dirs, Projects.EntryName);
      SortedListing(ProjectList(dataDirExists, entries), ds, dirs, entries);
    }
  }

  lemma SortedListing(r: seq<ProjectInfo>, ds: seq<Projects.DirEntry>, dirs: seq<Projects.DirEntry>, entries: seq<Projects.DirEntry>)
    requires SortedBy(ds, Projects.EntryName) && multiset(ds) == multiset(dirs)
    requires forall e :: e in dirs <==> e in entries && e.isDir
    requires |r| == |ds| && forall i :: 0 <= i < |r| ==> r[i] == ProjectOf(ds[i])
    ensures |r| == |dirs|
    ensures forall i, j :: 0 <= i < j < |r| ==> LexLe(r[i].id, r[j].id)
    ensures forall p :: p in r ==> exists e :: e in entries && e.isDir && p == ProjectOf(e)
    ensures forall e :: e in entries && e.isDir ==> ProjectOf(e) in r
  {
    assert |ds| == |multiset(ds)| == |multiset(dirs)| == |dirs|;
    forall i, j | 0 <= i < j < |r|
      ensures LexLe(r[i].id, r[j].id)
    {
      assert r[i].id == Projects.EntryName(ds[i]) && r[j].id == Projects.EntryName(ds[j]);
    }
    forall p | p in r
      ensures exists e :: e in entries && e.isDir && p == ProjectOf(e)
    {
      var i :| 0 <= i < |r| && r[i] == p;
      assert ds[i] in multiset(dirs);
    }
    forall e | e in entries && e.isDir
      ensures ProjectOf(e) in r
    {
      assert e in multiset(ds);
      var i :| 0 <= i < |ds| && ds[i] == e;
      assert r[i] == ProjectOf(e);
    }
  }

  /** The list shows the same projects, in the same order and under the
      same names, as the multi-source Claude project list; only the
      session count differs: here it counts the session files directly in
      the directory, there every one beneath it. */
  lemma SameProjectsAsPackage(entries: seq<Projects.DirEntry>, meta: Json, ps: seq<Projects.Project>)
    requires Projects.ClaudeProjects(entries, meta) == Ok(ps)
    ensures |ProjectList(true, entries)| == |ps|
    ensures forall i :: 0 <= i < |ps| ==>
      ProjectList(true, entries)[i].id == ps[i].id && ProjectList(true, entries)[i].name == ps[i].name
  {
    var ds := SortBy(Projects.DirsOf(entries), Projects.EntryName);
    DirsOfSortBy(entries);
    ProjectsOfDirs(SortBy(entries, Projects.EntryName));
    Projects.ClaudeRowsListing(ds, meta, ps);
  }

  // --------------------------------------------------------- the session list

  /** One line of the summary scan, on the scanner's state record (this
      scan keeps no preview, so `firstUserMessage` is never set): a line
      that is not JSON is skipped; one whose value is not a dict raises. A
      summary entry fills an empty first summary, the timestamp rule
      applies, and a user or assistant entry is counted. */
  function LineStep(t: Sessions.Tally, line: Option<Json>): Result<Sessions.Tally> {
    match line
    case None => Ok(t)
    case Some(entry) =>
      if !entry.JObj? then Raised(ShapeError)
      else
        var entryType := Field(entry, "type", JNull);
        var t1 := if entryType == JStr("summary") && !Truthy(t.firstSummary)
          then t.(firstSummary := Field(entry, "summary", JStr(""))) else t;
        var t2 := Sessions.Stamp(t1, Field(entry, "timestamp", JNull));
        Ok(if entryType == JStr("user") || entryType == JStr("assistant") then t2.(messageCount := t2.messageCount + 1) else t2)
  }

  /** The scan of one session file's lines. */
  function Scan(lines: Lines): Result<Sessions.Tally> {
    Fold(LineStep, Sessions.Fresh, lines)
  }

  /** A session's entry (its size and modification time are left out). */
  datatype SessionInfo = SessionInfo(
    id: string,
    filename: string,
    summary: Json,
    messageCount: nat,
    firstTimestamp: Json,
    lastTimestamp: Json)

  /** `first_summary or "No summary"`. */
  function SummaryOf(t: Sessions.Tally): Json {
    if Truthy(t.firstSummary) then t.firstSummary else JStr("No summary")
  }

  /** The entry of one session file: none when the file cannot be opened
      or its scan raises. */
  function SessionOf(f: JsonlFile): Option<SessionInfo> {
    match f.body
    case Unreadable => None
    case Readable(lines) =>
      match Scan(lines)
      case Raised(_) => None
      case Ok(t) => Some(SessionInfo(f.stem, f.name, SummaryOf(t), t.messageCount, t.firstTimestamp, t.lastTimestamp))
  }

  /** The entries of the files that could be scanned, in order. */
  function SessionsOf(files: seq<JsonlFile>): (r: seq<SessionInfo>)
    ensures |r| <= |files|
  {
    if files == [] then []
    else
      var rest := SessionsOf(files[1..]);
      match SessionOf(files[0])
      case None => rest
      case Some(s) => [s] + rest
  }

  /** The list holds an entry exactly when some file gives it. */
  lemma {:induction false} SessionsOfExactly(files: seq<JsonlFile>)
    ensures forall s :: s in SessionsOf(files) ==> exists f :: f in files && SessionOf(f) == Some(s)
    ensures forall f :: f in files && SessionOf(f).Some? ==> SessionOf(f).value in SessionsOf(files)
  {
    if files != [] {
      SessionsOfExactly(files[1..]);
      assert forall f :: f in files <==> f == files[0] || f in files[1..];
    }
  }

  /** `get_sessions`: `dir` is the `*.jsonl` files of the project's
      directory, newest first, or None when the directory does not exist. */
  function SessionList(dir: Option<seq<JsonlFile>>): (r: seq<SessionInfo>)
    ensures dir.None? ==> r == []
  {
    match dir
    case None => []
    case Some(files) => SessionsOf(files)
  }

  /** The line loop of one session file. */
  method ScanFile(lines: Lines) returns (r: Result<Sessions.Tally>)
    ensures r == Scan(lines)
  {
    var firstSummary := JNull;
    var messageCount: nat := 0;
    var firstTimestamp := JNull;
    var lastTimestamp := JNull;
    for i := 0 to |lines|
      invariant Scan(lines) == Fold(LineStep, Sessions.Tally(firstSummary, messageCount, firstTimestamp, lastTimestamp, JNull), lines[i..])
    {
      assert lines[i..][1..] == lines[i + 1..];
      var line := lines[i];
      if line.None? {
        continue;
      }
      var entry := line.value;
      if !entry.JObj? {
        return Raised(ShapeError);
      }
      var entryType := Field(entry, "type", JNull);
      if entryType == JStr("summary") && !Truthy(firstSummary) {
        firstSummary := Field(entry, "summary", JStr(""));
      }
      var ts := Field(entry, "timestamp", JNull);
      if Truthy(ts) {
        if !Truthy(firstTimestamp) {
          firstTimestamp := ts;
        }
        lastTimestamp := ts;
      }
      if entryType == JStr("user") || entryType == JStr("assistant") {
        messageCount := messageCount + 1;
      }
    }
    assert lines[|lines|..] == [];
    return Ok(Sessions.Tally(firstSummary, messageCount, firstTimestamp, lastTimestamp, JNull));
  }

  /** An optional entry as a list of zero or one entries. */
  function Listed1(o: Option<SessionInfo>): seq<SessionInfo> {
    if o.Some? then [o.value] else []
  }

  lemma SessionsOfStep(acc: seq<SessionInfo>, files: seq<JsonlFile>, i: nat, next: seq<SessionInfo>)
    requires i < |files| && next == acc + Listed1(SessionOf(files[i]))
    ensures acc + SessionsOf(files[i..]) == next + SessionsOf(files[i + 1..])
  {
    var tail := files[i..];
    assert tail[0] == files[i] && tail[1..] == files[i + 1..];
    SessionsOfCons(tail);
    AppendAssociative(acc, Listed1(SessionOf(files[i])), SessionsOf(files[i + 1..]));
  }

  lemma SessionsOfCons(files: seq<JsonlFile>)
    requires files != []
    ensures SessionsOf(files) == Listed1(SessionOf(files[0])) + SessionsOf(files[1..])
  {
    var o := SessionOf(files[0]);
    if o.Some? {
      assert Listed1(o) == [o.value];
    } else {
      assert Listed1(o) + SessionsOf(files[1..]) == SessionsOf(files[1..]);
    }
  }

  /** The body of the `get_sessions` loop for one file: its entry, or
      nothing when it cannot be read or scanned. */
  method ReadSession(f: JsonlFile) returns (o: Option<SessionInfo>)
    ensures o == SessionOf(f)
  {
    if f.body.Unreadable? {
      return None;
    }
    var t := ScanFile(f.body.data);
    if t.Raised? {
      return None;
    }
    return Some(SessionInfo(f.stem, f.name, SummaryOf(t.value), t.value.messageCount, t.value.firstTimestamp, t.value.lastTimestamp));
  }

  /** `get_sessions`: the loop over the session files; a file that raises
      is left out and the loop goes on. */
  method GetSessions(dir: Option<seq<JsonlFile>>) returns (sessions: seq<SessionInfo>)
    ensures sessions == SessionList(dir)
  {
    if dir.None? {
      return [];
    }
    var files := dir.value;
    sessions := [];
    for i := 0 to |files|
      invariant sessions + SessionsOf(files[i..]) == SessionsOf(files)
    {
      var o := ReadSession(files[i]);
      var next := if o.Some? then sessions + [o.value] else sessions;
      assert next == sessions + Listed1(o);
      SessionsOfStep(sessions, files, i, next);
      sessions := next;
    }
    assert files[|files|..] == [];
  }

  /** Whether a decoded line can be scanned. */
  predicate Scannable(line: Option<Json>) {
    line.None? || line.value.JObj?
  }

  lemma StepStamped(t: Sessions.Tally, line: Option<Json>)
    ensures Sessions.Stamped(LineStep, t, line)
  {
  }

  lemma StepCounted(t: Sessions.Tally, line: Option<Json>)
    ensures Sessions.Counted(LineStep, t, line)
  {
  }

  /** A file is scanned exactly when every line is either not JSON or a
      dict; a file is then summarised by its first truthy timestamp, its
      last truthy timestamp, its first non-empty summary entry (else "No
      summary") and the number of its user and assistant entries. */
  lemma ScanContents(lines: Lines)
    ensures Scan(lines).Ok? <==> forall i :: 0 <= i < |lines| ==> Scannable(lines[i])
    ensures Scan(lines).Ok? ==>
      var t := Scan(lines).value;
      var first := Sessions.FirstTruthy(ClaudeParser.SummaryTexts(lines));
      t.firstTimestamp == Sessions.FirstTruthy(Sessions.Stamps(lines))
      && t.lastTimestamp == Sessions.LastTruthy(Sessions.Stamps(lines))
      && t.messageCount == |ClaudeParser.EntryRoles(lines)|
      && SummaryOf(t) == (if Truthy(first) then first else JStr("No summary"))
  {
    FoldSucceeds(LineStep, Scannable, Sessions.Fresh, lines);
    forall t, line ensures Sessions.Stamped(LineStep, t, line) {
      StepStamped(t, line);
    }
    forall t, line ensures Sessions.Counted(LineStep, t, line) {
      StepCounted(t, line);
    }
    Sessions.FoldTimestamps(LineStep, Sessions.Fresh, lines);
    Sessions.FoldFirstSummary(LineStep, Sessions.Fresh, lines);
    Sessions.FoldCountsClaude(LineStep, Sessions.Fresh, lines);
  }

  /** The legacy state is the package's with the preview dropped. */
  predicate NoPreview(package: Sessions.Tally, legacy: Sessions.Tally) {
    legacy == package.(firstUserMessage := JNull)
  }

  lemma StepAgrees(a: Sessions.Tally, b: Sessions.Tally, line: Option<Json>)
    requires NoPreview(a, b) && Sessions.LineStep(ClaudeCode, a, line).Ok?
    ensures LineStep(b, line).Ok? && NoPreview(Sessions.LineStep(ClaudeCode, a, line).value, LineStep(b, line).value)
  {
  }

  /** Wherever the multi-source scanner summarises a Claude session file,
      this scan does too, with the same first summary, count and
      timestamps; only the preview of the first user message is missing. */
  lemma SameScanAsPackage(lines: Lines)
    requires Sessions.JsonlRead(ClaudeCode, Sessions.Fresh, lines).Ok?
    ensures Scan(lines) == Ok(Sessions.JsonlRead(ClaudeCode, Sessions.Fresh, lines).value.(firstUserMessage := JNull))
  {
    forall a, b, line | NoPreview(a, b) && Sessions.LineStepper(ClaudeCode)(a, line).Ok?
      ensures LineStep(b, line).Ok? && NoPreview(Sessions.LineStepper(ClaudeCode)(a, line).value, LineStep(b, line).value)
    {
      StepAgrees(a, b, line);
    }
    FoldSimulates(Sessions.LineStepper(ClaudeCode), LineStep, NoPreview, Sessions.Fresh, Sessions.Fresh, lines);
  }

  // ---------------------------------------------------- the conversation view

  /** `get_conversation`: `file` is `<project>/<session>.jsonl` of the data
      directory when it exists. A missing file is an error dict; otherwise
      the Claude Code parser's result, whose line loop this function
      repeats statement for statement. */
  function ConversationReply(sessionId: string, file: Option<JsonlFile>): (r: Result<Locator.Reply>)
    ensures file.None? ==> r == Ok(Locator.Failure("Session not found"))
    ensures r.Ok? && r.value.Success? ==> r.value.conversation.sessionId == sessionId
  {
    match file
    case None => Ok(Locator.Failure("Session not found"))
    case Some(f) =>
      if f.body.Unreadable? then Raised(IoError)
      else
        ClaudeParser.ConversationShape(f.body.data, sessionId);
        var c :- ClaudeParser.ClaudeConversation(f.body.data, sessionId);
        Ok(Locator.Success(c))
  }

  /** `get_conversation`. */
  method GetConversation(sessionId: string, file: Option<JsonlFile>) returns (r: Result<Locator.Reply>)
    ensures r == ConversationReply(sessionId, file)
  {
    if file.None? {
      return Ok(Locator.Failure("Session not found"));
    }
    var f := file.value;
    if f.body.Unreadable? {
      return Raised(IoError);
    }
    var c := ClaudeParser.ParseClaudeConversation(f.body.data, sessionId);
    if c.Raised? {
      return Raised(c.exc);
    }
    return Ok(Locator.Success(c.value));
  }

  /** Given the file the multi-source lookup finds for a Claude Code
      session, the single-source view answers exactly as the multi-source
      one does. */
  lemma SameConversationAsPackage(projectId: string, sessionId: string, listing: Locator.Listing,
                                  fmt: Json -> string, f: JsonlFile)
    requires Locator.SessionFileOf(projectId, sessionId, ClaudeCode, listing) == Some(Locator.JsonlSession(f))
    ensures ConversationReply(sessionId, Some(f)) == Locator.ConversationReply(projectId, sessionId, "claude-code", listing, fmt)
  {
    assert SourceOf("claude-code") == Some(ClaudeCode);
  }

  /** A session listed with a message count opens, when it parses, on
      exactly that many messages, under the id it is listed with. */
  lemma ListedCountMatchesView(f: JsonlFile, info: SessionInfo, c: Conversation)
    requires SessionOf(f) == Some(info)
    requires ConversationReply(info.id, Some(f)) == Ok(Locator.Success(c))
    ensures info.messageCount == |c.messages|
    ensures c.sessionId == info.id
  {
    ScanContents(f.body.data);
    ClaudeParser.ConversationShape(f.body.data, info.id);
  }
}
