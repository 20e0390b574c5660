/** The project list of a source: one entry per Claude project directory,
    and one per distinct working directory (Codex) or project hash (Gemini)
    among the session files. */
module Projects {
  import opened Wrappers
  import opened Text
  import opened JsonModel
  import opened Schema
  import opened Utils
  import opened Sorting

  /** A project entry (its filesystem `path` is left out of the model). */
  datatype Project = Project(id: string, name: string, customName: Json, tags: Json, sessionCount: nat)

  /** An entry of the Claude data directory: its name, whether it is a
      directory, how many `*.jsonl` files lie anywhere beneath it
      (`sessionFiles`) and how many lie directly inside it (`topFiles`). */
  datatype DirEntry = DirEntry(name: string, isDir: bool, sessionFiles: nat, topFiles: nat)

  // ------------------------------------------------------------ metadata

  /** The key of a project in the metadata file. */
  function MetaKey(projectId: string, sourceId: string): string {
    sourceId + ":" + projectId
  }

  /** The custom name (default `""`) and tags (default `[]`) stored for a
      project; a metadata value that is not a dict, at the top or under the
      key, raises. */
  function ProjectMeta(meta: Json, sourceId: string, projectId: string): Result<(Json, Json)> {
    var entry :- Get(meta, MetaKey(projectId, sourceId), JObj([]));
    var customName :- Get(entry, "custom_name", JStr(""));
    var tags :- Get(entry, "tags", JArr([]));
    Ok((customName, tags))
  }

  /** A project with no metadata gets the defaults. */
  lemma MetaDefaults(meta: Json, sourceId: string, projectId: string)
    requires meta.JObj? && Lookup(meta.fields, MetaKey(projectId, sourceId)).None?
    ensures ProjectMeta(meta, sourceId, projectId) == Ok((JStr(""), JArr([])))
  {
  }

  /** One project row per `(id, name, count)`, in order, with its metadata. */
  function Described(meta: Json, sourceId: string, rows: seq<(string, string, nat)>): (r: Result<seq<Project>>)
    ensures r.Ok? ==> |r.value| == |rows|
    ensures r.Ok? ==> forall i :: 0 <= i < |rows| ==>
      r.value[i].id == rows[i].0 && r.value[i].name == rows[i].1 && r.value[i].sessionCount == rows[i].2
      && ProjectMeta(meta, sourceId, rows[i].0) == Ok((r.value[i].customName, r.value[i].tags))
    ensures r.Ok? <==> forall i :: 0 <= i < |rows| ==> ProjectMeta(meta, sourceId, rows[i].0).Ok?
  {
    if rows == [] then Ok([])
    else
      match ProjectMeta(meta, sourceId, rows[0].0)
      case Raised(e) => Raised(e)
      case Ok(m) =>
        var rest := Described(meta, sourceId, rows[1..]);
        assert forall i :: 1 <= i < |rows| ==> rows[i] == rows[1..][i - 1];
        if rest.Raised? then Raised(rest.exc)
        else Ok([Project(rows[0].0, rows[0].1, m.0, m.1, rows[0].2)] + rest.value)
  }

  // --------------------------------------------------------------- Claude

  /** The display name of a Claude project directory: every `-` becomes `/`,
      then leading `/` are stripped. So the name is a suffix of the
      directory name with `-` read as `/`, and what was dropped in front of
      it is only `-` and `/`. */
  function ClaudeName(dirName: string): (r: string)
    ensures '-' !in r
    ensures r == [] || r[0] != '/'
    ensures |r| <= |dirName|
    ensures forall j :: 0 <= j < |dirName| - |r| ==> dirName[j] == '-' || dirName[j] == '/'
    ensures forall i :: 0 <= i < |r| ==>
      r[i] == if dirName[|dirName| - |r| + i] == '-' then '/' else dirName[|dirName| - |r| + i]
  {
    var replaced := ReplaceChar(dirName, '-', '/');
    ClaudeNameFacts(dirName);
    LStripChar(replaced, '/')
  }

  lemma ClaudeNameFacts(dirName: string)
    ensures var r := LStripChar(ReplaceChar(dirName, '-', '/'), '/');
      '-' !in r && (r == [] || r[0] != '/')
      && (forall j :: 0 <= j < |dirName| - |r| ==> dirName[j] == '-' || dirName[j] == '/')
      && forall i :: 0 <= i < |r| ==>
        r[i] == if dirName[|dirName| - |r| + i] == '-' then '/' else dirName[|dirName| - |r| + i]
  {
    var replaced := ReplaceChar(dirName, '-', '/');
    ReplaceCharAt(dirName, '-', '/');
    LStripCharSuffix(replaced, '/');
  }

  /** The entries that are directories, in order. */
  function DirsOf(entries: seq<DirEntry>): (r: seq<DirEntry>)
    ensures forall e :: e in r <==> e in entries && e.isDir
    ensures |r| <= |entries|
  {
    if entries == [] then []
    else
      assert entries == [entries[0]] + entries[1..];
      (if entries[0].isDir then [entries[0]] else []) + DirsOf(entries[1..])
  }

  function EntryName(e: DirEntry): string {
    e.name
  }

  function ClaudeRows(dirs: seq<DirEntry>): (r: seq<(string, string, nat)>)
    ensures |r| == |dirs|
    ensures forall i :: 0 <= i < |dirs| ==> r[i] == (dirs[i].name, ClaudeName(dirs[i].name), dirs[i].sessionFiles)
  {
    if dirs == [] then [] else [(dirs[0].name, ClaudeName(dirs[0].name), dirs[0].sessionFiles)] + ClaudeRows(dirs[1..])
  }

  /** The Claude branch: the directories of the data directory, sorted by name. */
  function ClaudeProjects(entries: seq<DirEntry>, meta: Json): Result<seq<Project>> {
    Described(meta, "claude-code", ClaudeRows(SortBy(DirsOf(entries), EntryName)))
  }

  // --------------------------------------------------------- grouping keys

  /** `cwd_sessions` / `hash_sessions`: the keys in insertion order and the
      files under each. */
  datatype Groups<T> = Groups(order: seq<string>, members: map<string, seq<T>>)

  /** `if key: groups.setdefault(key, []).append(x)`. A truthy key that is
      not a string raises: it is unhashable, or the later slicing, sorting
      or encoding of it raises. */
  function AddTo<T>(g: Groups<T>, key: Json, x: T): Result<Groups<T>> {
    if !Truthy(key) then Ok(g)
    else if !key.JStr? then Raised(ShapeError)
    else if key.s in g.members then Ok(Groups(g.order, g.members[key.s := g.members[key.s] + [x]]))
    else Ok(Groups(g.order + [key.s], g.members[key.s := [x]]))
  }

  /** The grouping loop over `xs` with the key function `key`. */
  function Grouped<T>(xs: seq<T>, key: T -> Json): Result<Groups<T>>
    decreases |xs|
  {
    if xs == [] then Ok(Groups([], map[]))
    else
      var g :- Grouped(xs[..|xs| - 1], key);
      AddTo(g, key(xs[|xs| - 1]), xs[|xs| - 1])
  }

  /** The grouping key of a Codex file: its working directory (`None` when
      it has none). */
  function CodexKey(f: JsonlFile): Json {
    CodexCwd(f.body).GetOr(JNull)
  }

  /** The grouping key of a Gemini document: its project hash. */
  function GeminiKey(f: JsonFile): Json {
    GeminiProjectHash(f.body).GetOr(JNull)
  }

  /** Once the grouping has raised, later elements change nothing. */
  lemma {:induction false} GroupedRaisedStays<T>(xs: seq<T>, key: T -> Json, n: nat)
    requires n <= |xs| && Grouped(xs[..n], key).Raised?
    ensures Grouped(xs, key) == Grouped(xs[..n], key)
    decreases |xs|
  {
    if n < |xs| {
      var init := xs[..|xs| - 1];
      assert init[..n] == xs[..n];
      GroupedRaisedStays(init, key, n);
    } else {
      assert xs[..n] == xs;
    }
  }

  /** The Codex grouping loop. */
  method GroupCodexFiles(files: seq<JsonlFile>) returns (r: Result<Groups<JsonlFile>>)
    ensures r == Grouped(files, CodexKey)
  {
    var order: seq<string> := [];
    var members: map<string, seq<JsonlFile>> := map[];
    for i := 0 to |files|
      invariant Grouped(files[..i], CodexKey) == Ok(Groups(order, members))
    {
      assert files[..i + 1][..i] == files[..i];
      var f := files[i];
      var cwd := GetCodexCwd(f.body);
      if cwd.Some? && Truthy(cwd.value) {
        if !cwd.value.JStr? {
          GroupedRaisedStays(files, CodexKey, i + 1);
          return Raised(ShapeError);
        }
        var k := cwd.value.s;
        if k in members {
          members := members[k := members[k] + [f]];
        } else {
          order := order + [k];
          members := members[k := [f]];
        }
      }
    }
    assert files[..|files|] == files;
    return Ok(Groups(order, members));
  }

  /** The Gemini grouping loop. */
  method GroupGeminiFiles(files: seq<JsonFile>) returns (r: Result<Groups<JsonFile>>)
    ensures r == Grouped(files, GeminiKey)
  {
    var order: seq<string> := [];
    var members: map<string, seq<JsonFile>> := map[];
    for i := 0 to |files|
      invariant Grouped(files[..i], GeminiKey) == Ok(Groups(order, members))
    {
      assert files[..i + 1][..i] == files[..i];
      var f := files[i];
      var h := GeminiProjectHash(f.body);
      if h.Some? && Truthy(h.value) {
        if !h.value.JStr? {
          GroupedRaisedStays(files, GeminiKey, i + 1);
          return Raised(ShapeError);
        }
        var k := h.value.s;
        if k in members {
          members := members[k := members[k] + [f]];
        } else {
          order := order + [k];
          members := members[k := [f]];
        }
      }
    }
    assert files[..|files|] == files;
    return Ok(Groups(order, members));
  }

  function Identity(s: string): string {
    s
  }

  /** One row per group, in the order of `keys`. */
  function GroupRows<T>(keys: seq<string>, members: map<string, seq<T>>, id: string -> string, name: string -> string): (r: seq<(string, string, nat)>)
    requires forall i :: 0 <= i < |keys| ==> keys[i] in members
    ensures |r| == |keys|
    ensures forall i :: 0 <= i < |keys| ==> r[i] == (id(keys[i]), name(keys[i]), |members[keys[i]]|)
  {
    if keys == [] then []
    else [(id(keys[0]), name(keys[0]), |members[keys[0]]|)] + GroupRows(keys[1..], members, id, name)
  }

  /** The name of a Gemini project: `Project ` and the first eight
      characters of its hash. */
  function GeminiName(hash: string): string {
    "Project " + (if |hash| <= 8 then hash else hash[..8]) + "..."
  }

  /** The keys of the groups, sorted (`sorted(groups.items())`: the keys
      are distinct, so the lists never take part in the comparison). */
  function SortedKeys<T>(g: Groups<T>): (keys: seq<string>)
    ensures forall i :: 0 <= i < |keys| ==> keys[i] in g.order
  {
    SortBySorted(g.order, Identity);
    var keys := SortBy(g.order, Identity);
    assert forall i :: 0 <= i < |keys| ==> keys[i] in multiset(g.order);
    keys
  }

  /** One row per group, sorted by key. */
  function SortedRows<T>(g: Groups<T>, id: string -> string, name: string -> string): seq<(string, string, nat)>
    requires forall k :: k in g.order ==> k in g.members
  {
    GroupRows(SortedKeys(g), g.members, id, name)
  }

  /** The Codex branch: one project per distinct truthy working directory,
      sorted, whose id is the directory's path id. */
  function CodexProjects(files: seq<JsonlFile>, meta: Json): Result<seq<Project>> {
    var g :- Grouped(files, CodexKey);
    GroupedShape(files, CodexKey);
    Described(meta, "codex", SortedRows(g, EncodePathId, Identity))
  }

  /** The Gemini branch: one project per distinct truthy project hash, sorted. */
  function GeminiProjects(files: seq<JsonFile>, meta: Json): Result<seq<Project>> {
    var g :- Grouped(files, GeminiKey);
    GroupedShape(files, GeminiKey);
    Described(meta, "gemini", SortedRows(g, Identity, GeminiName))
  }

  /** `get_projects`. The data directory's existence, its entries (Claude),
      its session files in walk order (Codex, Gemini) and the loaded
      metadata are inputs. */
  function GetProjects(sourceId: string, dataDirExists: bool, meta: Json, entries: seq<DirEntry>,
                       codexFiles: seq<JsonlFile>, geminiFiles: seq<JsonFile>): (r: Result<seq<Project>>)
    ensures SourceOf(sourceId).None? || !dataDirExists ==> r == Ok([])
  {
    match SourceOf(sourceId)
    case None => Ok([])
    case Some(source) =>
      if !dataDirExists then Ok([])
      else if source == ClaudeCode then ClaudeProjects(entries, meta)
      else if source == Codex then CodexProjects(codexFiles, meta)
      else GeminiProjects(geminiFiles, meta)
  }

  // ------------------------------------------------------ grouping theory

  /** Keys without repeats. */
  predicate Distinct(ks: seq<string>) {
    forall i, j :: 0 <= i < j < |ks| ==> ks[i] != ks[j]
  }

  /** The order and the dict agree on the keys, and no key repeats. */
  predicate WellFormed<T>(g: Groups<T>) {
    Distinct(g.order)
    && (forall k :: k in g.order ==> k in g.members)
    && (forall k :: k in g.members ==> k in g.order)
  }

  /** Every truthy key is a string. */
  predicate StringKeys<T>(xs: seq<T>, key: T -> Json) {
    forall i :: 0 <= i < |xs| ==> Truthy(key(xs[i])) ==> key(xs[i]).JStr?
  }

  /** The elements of `xs` whose key is the string `k`, in order: an
      independent statement of the group of `k`. */
  function KeyedBy<T>(xs: seq<T>, key: T -> Json, k: string): seq<T>
    decreases |xs|
  {
    if xs == [] then []
    else KeyedBy(xs[..|xs| - 1], key, k) + (if key(xs[|xs| - 1]) == JStr(k) then [xs[|xs| - 1]] else [])
  }

  /** How many elements of `xs` have a truthy key. */
  function TruthyCount<T>(xs: seq<T>, key: T -> Json): nat
    decreases |xs|
  {
    if xs == [] then 0
    else TruthyCount(xs[..|xs| - 1], key) + (if Truthy(key(xs[|xs| - 1])) then 1 else 0)
  }

  /** The sizes of the groups of `keys`, added up. */
  function SumCounts<T>(keys: seq<string>, m: map<string, seq<T>>): nat {
    if keys == [] then 0 else (if keys[0] in m then |m[keys[0]]| else 0) + SumCounts(keys[1..], m)
  }

  /** Grouping succeeds exactly when every truthy key is a string. */
  lemma {:induction false} GroupedOk<T>(xs: seq<T>, key: T -> Json)
    ensures Grouped(xs, key).Ok? <==> StringKeys(xs, key)
    decreases |xs|
  {
    if xs != [] {
      var init := xs[..|xs| - 1];
      GroupedOk(init, key);
      assert forall i :: 0 <= i < |init| ==> init[i] == xs[i];
    }
  }

  /** The keys are the distinct non-empty string keys of `xs`, each listed
      once, and each group holds exactly the elements with that key. */
  lemma {:induction false} GroupedShape<T>(xs: seq<T>, key: T -> Json)
    requires Grouped(xs, key).Ok?
    ensures WellFormed(Grouped(xs, key).value)
    ensures forall k :: k in Grouped(xs, key).value.members <==>
      (k != [] && exists i :: 0 <= i < |xs| && key(xs[i]) == JStr(k))
    ensures forall k :: k in Grouped(xs, key).value.members ==> Grouped(xs, key).value.members[k] == KeyedBy(xs, key, k)
    decreases |xs|
  {
    if xs != [] {
      var init := xs[..|xs| - 1];
      var x := xs[|xs| - 1];
      GroupedShape(init, key);
      var g := Grouped(init, key).value;
      var g' := Grouped(xs, key).value;
      assert g' == AddTo(g, key(x), x).value;
      assert forall i :: 0 <= i < |init| ==> init[i] == xs[i];
      forall k
        ensures k in g'.members <==> (k != [] && exists i :: 0 <= i < |xs| && key(xs[i]) == JStr(k))
      {
        if k != [] && key(x) == JStr(k) {
          assert key(xs[|xs| - 1]) == JStr(k);
        }
        if k in g.members {
          var i :| 0 <= i < |init| && key(init[i]) == JStr(k);
          assert key(xs[i]) == JStr(k);
        }
        if k != [] && exists i :: 0 <= i < |xs| && key(xs[i]) == JStr(k) {
          var i :| 0 <= i < |xs| && key(xs[i]) == JStr(k);
          if i < |init| {
            assert key(init[i]) == JStr(k);
          }
        }
      }
      forall k | k in g'.members
        ensures g'.members[k] == KeyedBy(xs, key, k)
      {
        assert KeyedBy(xs, key, k) == KeyedBy(init, key, k) + (if key(x) == JStr(k) then [x] else []);
        if k !in g.members {
          KeyedByAbsent(init, key, k);
        }
      }
      if Truthy(key(x)) && key(x).s !in g.members {
        forall a, b | 0 <= a < b < |g'.order|
          ensures g'.order[a] != g'.order[b]
        {
          if b == |g.order| {
            assert g'.order[a] == g.order[a];
            assert g.order[a] in g.members;
          }
        }
      }
    }
  }

  lemma {:induction false} KeyedByAbsent<T>(xs: seq<T>, key: T -> Json, k: string)
    requires forall i :: 0 <= i < |xs| ==> key(xs[i]) != JStr(k)
    ensures KeyedBy(xs, key, k) == []
    decreases |xs|
  {
    if xs != [] {
      var init := xs[..|xs| - 1];
      assert forall i :: 0 <= i < |init| ==> init[i] == xs[i];
      KeyedByAbsent(init, key, k);
    }
  }

  lemma {:induction false} SumConcat<T>(a: seq<string>, b: seq<string>, m: map<string, seq<T>>)
    ensures SumCounts(a + b, m) == SumCounts(a, m) + SumCounts(b, m)
  {
    if a != [] {
      assert (a + b)[1..] == a[1..] + b;
      SumConcat(a[1..], b, m);
    } else {
      assert a + b == b;
    }
  }

  /** Changing the group of a key that is not listed changes nothing. */
  lemma {:induction false} SumOutside<T>(keys: seq<string>, m: map<string, seq<T>>, k: string, v: seq<T>)
    requires k !in keys
    ensures SumCounts(keys, m[k := v]) == SumCounts(keys, m)
  {
    if keys != [] {
      SumOutside(keys[1..], m, k, v);
    }
  }

  /** Changing the group of a key listed once changes the sum by the
      difference of the sizes. */
  lemma {:induction false} SumInside<T>(keys: seq<string>, m: map<string, seq<T>>, k: string, v: seq<T>)
    requires Distinct(keys) && k in keys && k in m
    ensures SumCounts(keys, m[k := v]) + |m[k]| == SumCounts(keys, m) + |v|
  {
    if keys[0] == k {
      assert k !in keys[1..];
      SumOutside(keys[1..], m, k, v);
    } else {
      SumInside(keys[1..], m, k, v);
    }
  }

  /** The group sizes add up to the number of elements with a truthy key. */
  lemma {:induction false} GroupedTotal<T>(xs: seq<T>, key: T -> Json)
    requires Grouped(xs, key).Ok?
    ensures SumCounts(Grouped(xs, key).value.order, Grouped(xs, key).value.members) == TruthyCount(xs, key)
    decreases |xs|
  {
    if xs != [] {
      var init := xs[..|xs| - 1];
      var x := xs[|xs| - 1];
      GroupedTotal(init, key);
      GroupedShape(init, key);
      var g := Grouped(init, key).value;
      if Truthy(key(x)) {
        var k := key(x).s;
        if k in g.members {
          SumInside(g.order, g.members, k, g.members[k] + [x]);
        } else {
          SumConcat(g.order, [k], g.members[k := [x]]);
          SumOutside(g.order, g.members, k, [x]);
        }
      }
    }
  }

  lemma MultisetRemove(b: seq<string>, j: nat)
    requires j < |b|
    ensures multiset(b[..j] + b[j + 1..]) == multiset(b) - multiset{b[j]}
  {
    assert b == b[..j] + [b[j]] + b[j + 1..];
  }

  lemma RemoveMatched(a: seq<string>, b: seq<string>, j: nat)
    requires multiset(a) == multiset(b) && a != [] && j < |b| && b[j] == a[0]
    ensures multiset(a[1..]) == multiset(b[..j] + b[j + 1..])
  {
    MultisetRemove(b, j);
    assert a == [a[0]] + a[1..];
    assert multiset(a) == multiset{a[0]} + multiset(a[1..]);
  }

  /** Matching the head of `a` with one key of `b` reduces the sums to
      what is left of both. */
  lemma SumMatched<T>(a: seq<string>, b: seq<string>, j: nat, m: map<string, seq<T>>)
    requires a != [] && j < |b| && b[j] == a[0]
    requires SumCounts(a[1..], m) == SumCounts(b[..j] + b[j + 1..], m)
    ensures SumCounts(a, m) == SumCounts(b, m)
  {
    SumRemove(b, j, m);
  }

  /** The sum does not depend on the order of the keys. */
  lemma {:induction false} SumPermutation<T>(a: seq<string>, b: seq<string>, m: map<string, seq<T>>)
    requires multiset(a) == multiset(b)
    ensures SumCounts(a, m) == SumCounts(b, m)
    decreases |a|
  {
    if a == [] {
      assert |b| == |multiset(b)|;
    } else {
      assert a[0] in multiset(a);
      var j := IndexOf(b, a[0]);
      var rest := b[..j] + b[j + 1..];
      RemoveMatched(a, b, j);
      SumPermutation(a[1..], rest, m);
      SumMatched(a, b, j, m);
    }
  }

  /** The first position of `x` in `b`. */
  function IndexOf(b: seq<string>, x: string): (j: nat)
    requires x in multiset(b)
    ensures j < |b| && b[j] == x
  {
    if b[0] == x then 0
    else
      assert b == [b[0]] + b[1..];
      1 + IndexOf(b[1..], x)
  }

  lemma SumRemove<T>(b: seq<string>, j: nat, m: map<string, seq<T>>)
    requires j < |b|
    ensures SumCounts(b, m) == SumCounts(b[..j] + b[j + 1..], m) + SumCounts([b[j]], m)
  {
    assert b == b[..j] + [b[j]] + b[j + 1..];
    SumConcat(b[..j] + [b[j]], b[j + 1..], m);
    SumConcat(b[..j], [b[j]], m);
    SumConcat(b[..j], b[j + 1..], m);
  }

  lemma {:induction false} DistinctCounts(a: seq<string>, x: string)
    requires Distinct(a)
    ensures multiset(a)[x] <= 1
  {
    if a != [] {
      assert a == [a[0]] + a[1..];
      assert a[0] !in a[1..];
      DistinctCounts(a[1..], x);
    }
  }

  /** A permutation of keys without repeats has no repeats. */
  lemma DistinctPermutation(a: seq<string>, b: seq<string>)
    requires Distinct(a) && multiset(a) == multiset(b)
    ensures Distinct(b)
  {
    forall i, j | 0 <= i < j < |b|
      ensures b[i] != b[j]
    {
      if b[i] == b[j] {
        assert b == b[..i] + [b[i]] + b[i + 1..j] + [b[j]] + b[j + 1..];
        assert multiset(b)[b[i]] >= 2;
        DistinctCounts(a, b[i]);
      }
    }
  }

  // ----------------------------------------------------- project listings

  /** The sum of the session counts. */
  function Total(ps: seq<Project>): nat {
    if ps == [] then 0 else ps[0].sessionCount + Total(ps[1..])
  }

  lemma {:induction false} TotalOfRows<T>(ps: seq<Project>, keys: seq<string>, m: map<string, seq<T>>)
    requires |ps| == |keys|
    requires forall i :: 0 <= i < |ps| ==> keys[i] in m && ps[i].sessionCount == |m[keys[i]]|
    ensures Total(ps) == SumCounts(keys, m)
  {
    if ps != [] {
      TotalOfRows(ps[1..], keys[1..], m);
    }
  }

  /** The sorted keys are the groups' keys, ascending, without repeats. */
  lemma SortedKeysShape<T>(g: Groups<T>)
    requires WellFormed(g)
    ensures SortedBy(SortedKeys(g), Identity) && Distinct(SortedKeys(g))
    ensures forall k :: k in SortedKeys(g) <==> k in g.members
    ensures SumCounts(SortedKeys(g), g.members) == SumCounts(g.order, g.members)
  {
    var keys := SortedKeys(g);
    SortBySorted(g.order, Identity);
    DistinctPermutation(g.order, keys);
    SumPermutation(g.order, keys, g.members);
    forall k
      ensures k in keys <==> k in g.order
    {
      assert k in keys <==> k in multiset(keys);
      assert k in g.order <==> k in multiset(g.order);
    }
  }

  /** Projects built from rows of groups carry the groups' keys and sizes. */
  lemma RowsListing<T>(keys: seq<string>, m: map<string, seq<T>>, meta: Json, sourceId: string,
                       id: string -> string, name: string -> string, ps: seq<Project>)
    requires forall i :: 0 <= i < |keys| ==> keys[i] in m
    requires Described(meta, sourceId, GroupRows(keys, m, id, name)) == Ok(ps)
    ensures |ps| == |keys|
    ensures forall i :: 0 <= i < |ps| ==>
      ps[i].id == id(keys[i]) && ps[i].name == name(keys[i]) && ps[i].sessionCount == |m[keys[i]]|
      && ProjectMeta(meta, sourceId, ps[i].id) == Ok((ps[i].customName, ps[i].tags))
    ensures Total(ps) == SumCounts(keys, m)
  {
    TotalOfRows(ps, keys, m);
  }

  /** A grouped listing has one project per distinct non-empty string key,
      in ascending key order without repeats; each counts the elements with
      its key, and the counts add up to the elements with a truthy key. */
  lemma GroupedListing<T>(xs: seq<T>, key: T -> Json, meta: Json, sourceId: string,
                          id: string -> string, name: string -> string, ps: seq<Project>)
    requires Grouped(xs, key).Ok? && WellFormed(Grouped(xs, key).value)
    requires Described(meta, sourceId, SortedRows(Grouped(xs, key).value, id, name)) == Ok(ps)
    ensures var keys := SortedKeys(Grouped(xs, key).value);
      |ps| == |keys| && SortedBy(keys, Identity) && Distinct(keys)
    ensures var keys := SortedKeys(Grouped(xs, key).value);
      forall i :: 0 <= i < |ps| ==>
        ps[i].id == id(keys[i]) && ps[i].name == name(keys[i]) && ps[i].sessionCount == |KeyedBy(xs, key, keys[i])|
        && ProjectMeta(meta, sourceId, ps[i].id) == Ok((ps[i].customName, ps[i].tags))
    ensures var keys := SortedKeys(Grouped(xs, key).value);
      forall k :: k in keys <==> (k != [] && exists i :: 0 <= i < |xs| && key(xs[i]) == JStr(k))
    ensures Total(ps) == TruthyCount(xs, key)
  {
    var g := Grouped(xs, key).value;
    GroupedShape(xs, key);
    GroupedTotal(xs, key);
    SortedKeysShape(g);
    RowsListing(SortedKeys(g), g.members, meta, sourceId, id, name, ps);
  }

  lemma IdRoundTrip(p: Project, cwd: string)
    requires p.id == EncodePathId(cwd) && p.name == cwd
    ensures DecodePathId(p.id) == Some(p.name)
  {
    PathIdRoundTrip(cwd);
  }

  /** A Codex listing is the described rows of its sorted groups. */
  lemma CodexRows(files: seq<JsonlFile>, meta: Json, ps: seq<Project>)
    requires CodexProjects(files, meta) == Ok(ps)
    ensures Grouped(files, CodexKey).Ok? && WellFormed(Grouped(files, CodexKey).value)
    ensures Described(meta, "codex", SortedRows(Grouped(files, CodexKey).value, EncodePathId, Identity)) == Ok(ps)
  {
    GroupedShape(files, CodexKey);
  }

  /** A Gemini listing is the described rows of its sorted groups. */
  lemma GeminiRows(files: seq<JsonFile>, meta: Json, ps: seq<Project>)
    requires GeminiProjects(files, meta) == Ok(ps)
    ensures Grouped(files, GeminiKey).Ok? && WellFormed(Grouped(files, GeminiKey).value)
    ensures Described(meta, "gemini", SortedRows(Grouped(files, GeminiKey).value, Identity, GeminiName)) == Ok(ps)
  {
    GroupedShape(files, GeminiKey);
  }

  /** Projects named by ascending keys without repeats have strictly
      ascending names, and exactly those names. */
  lemma OrderedNames(ps: seq<Project>, keys: seq<string>)
    requires |ps| == |keys| && SortedBy(keys, Identity) && Distinct(keys)
    requires forall i :: 0 <= i < |ps| ==> ps[i].name == keys[i]
    ensures forall i, j :: 0 <= i < j < |ps| ==> LexLe(ps[i].name, ps[j].name) && ps[i].name != ps[j].name
    ensures forall k :: (exists i :: 0 <= i < |ps| && ps[i].name == k) <==> k in keys
  {
    forall k | k in keys
      ensures exists i :: 0 <= i < |ps| && ps[i].name == k
    {
      var i :| 0 <= i < |keys| && keys[i] == k;
      assert ps[i].name == k;
    }
  }

  /** The same for projects whose ids are the keys. */
  lemma OrderedIds(ps: seq<Project>, keys: seq<string>)
    requires |ps| == |keys| && SortedBy(keys, Identity) && Distinct(keys)
    requires forall i :: 0 <= i < |ps| ==> ps[i].id == keys[i]
    ensures forall i, j :: 0 <= i < j < |ps| ==> LexLe(ps[i].id, ps[j].id) && ps[i].id != ps[j].id
    ensures forall k :: (exists i :: 0 <= i < |ps| && ps[i].id == k) <==> k in keys
  {
    forall k | k in keys
      ensures exists i :: 0 <= i < |ps| && ps[i].id == k
    {
      var i :| 0 <= i < |keys| && keys[i] == k;
      assert ps[i].id == k;
    }
  }

  /** Codex projects: names ascending without repeats, exactly the non-empty
      string working directories, each count the number of files with that
      directory, and the counts adding up to the files with a truthy
      directory. */
  lemma CodexListing(files: seq<JsonlFile>, meta: Json, ps: seq<Project>)
    requires CodexProjects(files, meta) == Ok(ps)
    ensures forall i, j :: 0 <= i < j < |ps| ==> LexLe(ps[i].name, ps[j].name) && ps[i].name != ps[j].name
    ensures forall k :: (exists i :: 0 <= i < |ps| && ps[i].name == k) <==>
      (k != [] && exists j :: 0 <= j < |files| && CodexKey(files[j]) == JStr(k))
    ensures forall i :: 0 <= i < |ps| ==> ps[i].sessionCount == |KeyedBy(files, CodexKey, ps[i].name)|
    ensures Total(ps) == TruthyCount(files, CodexKey)
  {
    CodexRows(files, meta, ps);
    GroupedListing(files, CodexKey, meta, "codex", EncodePathId, Identity, ps);
    var keys := SortedKeys(Grouped(files, CodexKey).value);
    OrderedNames(ps, keys);
  }

  /** Every Codex project id decodes back to the project's working directory. */
  lemma CodexIdsDecode(files: seq<JsonlFile>, meta: Json, ps: seq<Project>)
    requires CodexProjects(files, meta) == Ok(ps)
    ensures forall i :: 0 <= i < |ps| ==> DecodePathId(ps[i].id) == Some(ps[i].name)
  {
    CodexRows(files, meta, ps);
    GroupedListing(files, CodexKey, meta, "codex", EncodePathId, Identity, ps);
    var keys := SortedKeys(Grouped(files, CodexKey).value);
    forall i | 0 <= i < |ps|
      ensures DecodePathId(ps[i].id) == Some(ps[i].name)
    {
      IdRoundTrip(ps[i], keys[i]);
    }
  }

  /** Gemini projects: ids ascending without repeats, exactly the non-empty
      string project hashes, each named after its hash, each count the
      number of documents with that hash, and the counts adding up to the
      documents with a truthy hash. */
  lemma GeminiListing(files: seq<JsonFile>, meta: Json, ps: seq<Project>)
    requires GeminiProjects(files, meta) == Ok(ps)
    ensures forall i, j :: 0 <= i < j < |ps| ==> LexLe(ps[i].id, ps[j].id) && ps[i].id != ps[j].id
    ensures forall k :: (exists i :: 0 <= i < |ps| && ps[i].id == k) <==>
      (k != [] && exists j :: 0 <= j < |files| && GeminiKey(files[j]) == JStr(k))
    ensures forall i :: 0 <= i < |ps| ==>
      ps[i].name == GeminiName(ps[i].id) && ps[i].sessionCount == |KeyedBy(files, GeminiKey, ps[i].id)|
    ensures Total(ps) == TruthyCount(files, GeminiKey)
  {
    GeminiRows(files, meta, ps);
    GroupedListing(files, GeminiKey, meta, "gemini", Identity, GeminiName, ps);
    var keys := SortedKeys(Grouped(files, GeminiKey).value);
    OrderedIds(ps, keys);
  }

  /** Claude projects: ascending by directory name, one per directory entry
      and nothing else, each named by `ClaudeName` and counting the session
      files beneath it. */
  lemma ClaudeListing(entries: seq<DirEntry>, meta: Json, ps: seq<Project>)
    requires ClaudeProjects(entries, meta) == Ok(ps)
    ensures |ps| == |DirsOf(entries)|
    ensures forall i, j :: 0 <= i < j < |ps| ==> LexLe(ps[i].id, ps[j].id)
    ensures forall i :: 0 <= i < |ps| ==> exists e :: e in entries && e.isDir && ClaudeEntry(ps[i], e)
    ensures forall e :: e in entries && e.isDir ==> exists i :: 0 <= i < |ps| && ClaudeEntry(ps[i], e)
  {
    var dirs := DirsOf(entries);
    var ds := SortBy(dirs, EntryName);
    SortBySorted(dirs, EntryName);
    ClaudeRowsListing(ds, meta, ps);
    assert |ds| == |multiset(ds)| == |multiset(dirs)| == |dirs|;
    PermutedEntries(ps, ds, dirs, entries);
  }

  lemma PermutedEntries(ps: seq<Project>, ds: seq<DirEntry>, dirs: seq<DirEntry>, entries: seq<DirEntry>)
    requires multiset(ds) == multiset(dirs)
    requires forall e :: e in dirs <==> e in entries && e.isDir
    requires |ps| == |ds|
    requires forall i :: 0 <= i < |ps| ==> ClaudeEntry(ps[i], ds[i])
    ensures forall i :: 0 <= i < |ps| ==> exists e :: e in entries && e.isDir && ClaudeEntry(ps[i], e)
    ensures forall e :: e in entries && e.isDir ==> exists i :: 0 <= i < |ps| && ClaudeEntry(ps[i], e)
  {
    forall i | 0 <= i < |ps|
      ensures ds[i] in entries && ds[i].isDir
    {
      assert ds[i] in multiset(dirs);
    }
    forall e | e in entries && e.isDir
      ensures exists i :: 0 <= i < |ps| && ClaudeEntry(ps[i], e)
    {
      assert e in multiset(ds);
      var i :| 0 <= i < |ds| && ds[i] == e;
      assert ClaudeEntry(ps[i], ds[i]);
    }
  }

  lemma ClaudeRowsListing(ds: seq<DirEntry>, meta: Json, ps: seq<Project>)
    requires Described(meta, "claude-code", ClaudeRows(ds)) == Ok(ps)
    ensures |ps| == |ds|
    ensures forall i :: 0 <= i < |ps| ==> ClaudeEntry(ps[i], ds[i])
  {
  }

  /** `p` is the project of the directory entry `e`. */
  predicate ClaudeEntry(p: Project, e: DirEntry) {
    p.id == e.name && p.name == ClaudeName(e.name) && p.sessionCount == e.sessionFiles
  }
}
