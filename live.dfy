/** Xcode's live diagnostics (`get_xcode_live_diagnostics`): the most recent
    `*.xcdiagnostics` file of the editor-history directory, converted to JSON
    by `plutil`, in either of its two layouts, normalised into records and
    filtered to the ones that belong to the monitored root. */
module LiveDiagnostics {
  import opened Common
  import opened Strings
  import opened Paths
  import opened JsonValues
  import opened Records

  /** Everything the collector reads from outside. */
  datatype LiveSources = LiveSources(
    historyExists: bool,        // the IDEEditorInteractivityHistory directory exists
    files: seq<Artifact>,       // its *.xcdiagnostics files
    plutil: ToolRun,            // `plutil -convert json` of the most recent one
    cwd: Path,                  // the process working directory
    pathExists: string -> bool) // os.path.exists

  /** The two layouts: `diagnostics` entries with a numeric severity, and
      `diagnostics-items` entries with a textual kind. */
  datatype Layout = Numbered | Itemised

  /** The most entries read from either layout. */
  const LiveCap: nat := 20

  /** The oldest a diagnostics file may be, in seconds. */
  const LiveMaxAge: int := 3600

  // Severity

  /** `value >= 3` for the decoded values the model represents (floats are
      not among them): booleans count as 0 and 1, other types cannot be
      compared with an integer. */
  function AtLeastThree(v: Json): (r: Result<bool>)
    ensures r == Ok(true) <==> v.JInt? && v.i >= 3
    ensures r.Err? <==> !(v.JInt? || v.JBool?)
  {
    match v
    case JInt(i) => Ok(i >= 3)
    case JBool(_) => Ok(false)
    case _ => Err("TypeError: '>=' not supported")
  }

  function AsciiLowerChar(c: char): char {
    if 'A' <= c <= 'Z' then (c as int + 32) as char else c
  }

  /** `s.lower()` on ASCII letters. */
  function AsciiLower(s: string): (r: string)
    ensures |r| == |s|
    ensures forall i :: 0 <= i < |s| ==> r[i] == AsciiLowerChar(s[i])
  {
    seq(|s|, i requires 0 <= i < |s| => AsciiLowerChar(s[i]))
  }

  function SeverityName(isError: bool): string {
    if isError then "error" else "warning"
  }

  // Relevance

  /** What `os.path.exists` accepts as a path: a string; an integer is a file
      descriptor, which the model treats as absent; anything else raises. */
  function PathArgument(v: Json): Result<Option<string>> {
    match v
    case JString(s) => Ok(Some(s))
    case JInt(_) => Ok(None)
    case JBool(_) => Ok(None)
    case _ => Err("TypeError: stat: path should be string")
  }

  /** `value and os.path.exists(value)`, and the path when it holds. */
  function ExistingPath(v: Json, pathExists: string -> bool): (r: Result<Option<string>>)
    ensures r.Ok? && r.value.Some? ==> v == JString(r.value.value) && pathExists(r.value.value)
  {
    if !Truthy(v) then Ok(None)
    else
      match PathArgument(v)
      case Err(e) => Err(e)
      case Ok(None) => Ok(None)
      case Ok(Some(p)) => if pathExists(p) then Ok(Some(p)) else Ok(None)
  }

  /** What the relevance filter consults: the containment test of a path
      string in the monitored root, and `os.path.exists`. */
  datatype Scope = Scope(inRoot: string -> bool, pathExists: string -> bool)

  /** `os.path.commonpath([os.path.abspath(p), root_abs]) == root_abs`. */
  function UnderRoot(cwd: Path, root: Path): (f: string -> bool)
    requires Valid(cwd) && Valid(root)
  {
    (s: string) => WithinRoot(cwd, root, s)
  }

  /** The scope of a collection from `cwd` for the monitored `root`. */
  function ScopeOf(src: LiveSources, root: Path): Scope
    requires Valid(src.cwd) && Valid(root)
  {
    Scope(UnderRoot(src.cwd, root), src.pathExists)
  }

  /** `is_relevant`: an existing workspace path decides, else an existing
      file path, and when neither exists the record is kept. */
  function Relevant(scope: Scope, file: Json, workspace: Json): Result<bool> {
    match ExistingPath(workspace, scope.pathExists)
    case Err(e) => Err(e)
    case Ok(Some(w)) => Ok(scope.inRoot(w))
    case Ok(None) =>
      match ExistingPath(file, scope.pathExists)
      case Err(e) => Err(e)
      case Ok(Some(f)) => Ok(scope.inRoot(f))
      case Ok(None) => Ok(true)
  }

  // One entry

  function LiveRecord(isError: bool, file: Json, line: Json, message: Json, workspace: Json, raw: Json): Json {
    JObject([("severity", Str(SeverityName(isError))), ("file", file), ("line", line),
             ("message", message), ("source", Str("xcode_live")), ("workspacePath", workspace),
             ("raw_metadata", raw)])
  }

  /** The fields an entry contributes: whether it is an error, its file,
      line and message. */
  datatype Fields = Fields(isError: bool, file: Json, line: Json, message: Json)

  function RecordOf(f: Fields, workspace: Json, raw: Json): Json {
    LiveRecord(f.isError, f.file, f.line, f.message, workspace, raw)
  }

  function NumberedFields(diag: Json): Result<Fields> {
    if !diag.JObject? then Err(AttributeGet)
    else
      var d := diag.members;
      var isError :- AtLeastThree(Member(d, "severity", JInt(0)));
      var location := Member(d, "location", JObject([]));
      if !location.JObject? then Err(AttributeGet)
      else
        var loc := location.members;
        Ok(Fields(isError, Member(loc, "path", Str("Unknown")), Member(loc, "line", JInt(0)),
                  Member(d, "description", Str("Unknown issue"))))
  }

  function ItemisedFields(diag: Json): Result<Fields> {
    if !diag.JObject? then Err(AttributeGet)
    else
      var d := diag.members;
      var kind := Member(d, "kind", Str(""));
      if !kind.JString? then Err("AttributeError: object has no attribute 'lower'")
      else
        var location := Member(d, "diagnostic-context", JObject([]));
        if !location.JObject? then Err(AttributeGet)
        else
          var loc := location.members;
          Ok(Fields(Contains(AsciiLower(kind.s), "error"), Member(loc, "file-path", Str("Unknown")),
                    Member(loc, "line-number", JInt(0)), Member(d, "message", Str("Unknown issue"))))
  }

  function EntryFields(layout: Layout, diag: Json): Result<Fields> {
    match layout
    case Numbered => NumberedFields(diag)
    case Itemised => ItemisedFields(diag)
  }

  /** One loop turn: the entry's record, `None` when the relevance filter
      drops it, an error when reading it raises. */
  function EntryRecord(layout: Layout, diag: Json, workspace: Json, scope: Scope): Result<Option<Json>>
  {
    var f :- EntryFields(layout, diag);
    var keep :- Relevant(scope, f.file, workspace);
    Ok(if keep then Some(RecordOf(f, workspace, diag)) else None)
  }

  /** The records of `entries` in order, up to the first entry that raises:
      the exception ends the loop and the records gathered so far are
      returned. */
  function Collect(layout: Layout, entries: seq<Json>, workspace: Json, scope: Scope): seq<Json>
    decreases |entries|
  {
    if entries == [] then []
    else Prepend(EntryRecord(layout, entries[0], workspace, scope), Collect(layout, entries[1..], workspace, scope))
  }

  /** One entry's outcome in front of the records of the later entries. */
  function Prepend(r: Result<Option<Json>>, rest: seq<Json>): seq<Json> {
    match r
    case Err(_) => []
    case Ok(None) => rest
    case Ok(Some(x)) => [x] + rest
  }

  /** The converted document: its workspace path (the first truthy of three
      members, else `None`) and the entries of whichever layout it has,
      capped at 20; an error when the document is not a dict or the entries
      cannot be sliced. */
  function Document(data: Json): Result<(Json, Layout, seq<Json>)> {
    if !data.JObject? then Err(AttributeGet)
    else
    var d := data.members;
    var workspace := FirstTruthy([Member(d, "workspacePath", JNull), Member(d, "workspace", JNull),
                                  Member(d, "project", JNull)], JNull);
    if HasKey(data, "diagnostics") then
      var entries :- Index(data, "diagnostics");
      var capped :- Slice(entries, LiveCap);
      Ok((workspace, Numbered, capped))
    else if HasKey(data, "diagnostics-items") then
      var entries :- Index(data, "diagnostics-items");
      var capped :- Slice(entries, LiveCap);
      Ok((workspace, Itemised, capped))
    else Ok((workspace, Numbered, []))
  }

  /** The converted document, when there is a fresh diagnostics file and
      `plutil` produced a JSON document from it. */
  function FreshDocument(codec: Codec, src: LiveSources): Option<Json> {
    if !src.historyExists || src.files == [] then None
    else if src.files[MostRecent(src.files)].age > LiveMaxAge then None
    else match src.plutil
      case LaunchFailed(_) => None
      case Ran(code, out) =>
        if code != 0 || out == [] then None else codec.loads(out)
  }

  /** `get_xcode_live_diagnostics`. */
  function Live(codec: Codec, src: LiveSources, root: Path): seq<Json>
    requires Valid(src.cwd) && Valid(root)
  {
    match FreshDocument(codec, src)
    case None => []
    case Some(data) =>
      match Document(data)
      case Err(_) => []
      case Ok((workspace, layout, entries)) => Collect(layout, entries, workspace, ScopeOf(src, root))
  }

  // The collector as the source writes it: a loop appending to a list

  lemma CollectStep(layout: Layout, entries: seq<Json>, workspace: Json, scope: Scope, i: nat)
    requires i < |entries|
    ensures Collect(layout, entries[i..], workspace, scope) ==
      Prepend(EntryRecord(layout, entries[i], workspace, scope), Collect(layout, entries[i + 1..], workspace, scope))
  {
    assert entries[i..][1..] == entries[i + 1..];
  }

  /** One more entry read: the records gathered so far, then what the rest
      of the entries give, still make up the whole. */
  lemma CollectAdvance(whole: seq<Json>, gathered: seq<Json>, r: Result<Option<Json>>, tail: seq<Json>)
    requires gathered + Prepend(r, tail) == whole
    ensures r.Err? ==> gathered == whole
    ensures r.Ok? && r.value.None? ==> gathered + tail == whole
    ensures r.Ok? && r.value.Some? ==> (gathered + [r.value.value]) + tail == whole
  {
    if r.Err? {
      assert gathered + [] == gathered;
    } else if r.value.Some? {
      assert gathered + ([r.value.value] + tail) == (gathered + [r.value.value]) + tail;
    }
  }

  method CollectEntries(layout: Layout, entries: seq<Json>, workspace: Json, scope: Scope)
    returns (diagnostics: seq<Json>)
    ensures diagnostics == Collect(layout, entries, workspace, scope)
  {
    diagnostics := [];
    var i := 0;
    assert entries[0..] == entries;
    while i < |entries|
      invariant 0 <= i <= |entries|
      invariant diagnostics + Collect(layout, entries[i..], workspace, scope)
             == Collect(layout, entries, workspace, scope)
    {
      var r := EntryRecord(layout, entries[i], workspace, scope);
      CollectStep(layout, entries, workspace, scope, i);
      CollectAdvance(Collect(layout, entries, workspace, scope), diagnostics, r, Collect(layout, entries[i + 1..], workspace, scope));
      if r.Err? {
        return;
      }
      if r.value.Some? {
        diagnostics := diagnostics + [r.value.value];
      }
      i := i + 1;
    }
    assert entries[i..] == [];
  }

  method GetXcodeLiveDiagnostics(codec: Codec, src: LiveSources, root: Path) returns (diagnostics: seq<Json>)
    requires Valid(src.cwd) && Valid(root)
    ensures diagnostics == Live(codec, src, root)
  {
    var data := FreshDocument(codec, src);
    if data.None? {
      return [];
    }
    var doc := Document(data.value);
    if doc.Err? {
      return [];
    }
    var (workspace, layout, entries) := doc.value;
    diagnostics := CollectEntries(layout, entries, workspace, ScopeOf(src, root));
  }

  // Properties

  function RecordSet(rs: seq<Json>): set<Json> { set r | r in rs }

  lemma LiveRecordShape(isError: bool, file: Json, line: Json, message: Json, workspace: Json, raw: Json)
    ensures var r := LiveRecord(isError, file, line, message, workspace, raw);
      && (SeverityIs(r, "error") <==> isError)
      && ErrorOrWarning(r) && SourceIs(r, "xcode_live")
  {
    var ms := LiveRecord(isError, file, line, message, workspace, raw).members;
    LookupAt(ms, 0);
    LookupAt(ms, 4);
  }

  lemma EntryRecordShape(layout: Layout, e: Json, workspace: Json, scope: Scope)
    requires EntryRecord(layout, e, workspace, scope).Ok? && EntryRecord(layout, e, workspace, scope).value.Some?
    ensures var r := EntryRecord(layout, e, workspace, scope).value.value;
      && ErrorOrWarning(r) && SourceIs(r, "xcode_live")
      && EntryFields(layout, e).Ok? && r == RecordOf(EntryFields(layout, e).value, workspace, e)
  {
    var f := EntryFields(layout, e).value;
    LiveRecordShape(f.isError, f.file, f.line, f.message, workspace, e);
  }

  /** No more records than entries. */
  lemma {:induction false} CollectLength(layout: Layout, entries: seq<Json>, workspace: Json, scope: Scope)
    ensures |Collect(layout, entries, workspace, scope)| <= |entries|
    decreases |entries|
  {
    if entries != [] {
      CollectStep(layout, entries, workspace, scope, 0);
      assert entries[0..] == entries;
      CollectLength(layout, entries[1..], workspace, scope);
    }
  }

  /** Every live record is an error or a warning from `xcode_live`, built
      from one entry of the document: its fields and, as `raw_metadata`, the
      entry itself. */
  lemma {:induction false} CollectShape(layout: Layout, entries: seq<Json>, workspace: Json, scope: Scope)
    ensures forall r :: r in Collect(layout, entries, workspace, scope) ==>
      && ErrorOrWarning(r) && SourceIs(r, "xcode_live")
      && exists e :: e in entries && EntryFields(layout, e).Ok? && r == RecordOf(EntryFields(layout, e).value, workspace, e)
    decreases |entries|
  {
    if entries != [] {
      CollectStep(layout, entries, workspace, scope, 0);
      assert entries[0..] == entries;
      CollectShape(layout, entries[1..], workspace, scope);
      var e := entries[0];
      var r := EntryRecord(layout, e, workspace, scope);
      if r.Ok? && r.value.Some? {
        EntryRecordShape(layout, e, workspace, scope);
      }
      forall x | x in entries[1..] ensures x in entries { }
    }
  }

  lemma LiveBounded(codec: Codec, src: LiveSources, root: Path)
    requires Valid(src.cwd) && Valid(root)
    ensures |Live(codec, src, root)| <= LiveCap
    ensures forall r :: r in Live(codec, src, root) ==> ErrorOrWarning(r) && SourceIs(r, "xcode_live")
  {
    var data := FreshDocument(codec, src);
    if data.Some? && Document(data.value).Ok? {
      var (workspace, layout, entries) := Document(data.value).value;
      CollectLength(layout, entries, workspace, ScopeOf(src, root));
      CollectShape(layout, entries, workspace, ScopeOf(src, root));
    }
  }

  /** A diagnostics file older than an hour, or a missing directory, gives
      no records. */
  lemma StaleGivesNothing(codec: Codec, src: LiveSources, root: Path)
    requires Valid(src.cwd) && Valid(root)
    requires !src.historyExists || src.files == [] || src.files[MostRecent(src.files)].age > LiveMaxAge
    ensures Live(codec, src, root) == []
  {
  }

  /** The numeric layout's severity: `error` exactly when the entry's
      severity is an integer of at least 3. */
  lemma NumberedSeverity(diag: Json)
    requires NumberedFields(diag).Ok?
    ensures NumberedFields(diag).value.isError <==>
      var v := Member(diag.members, "severity", JInt(0)); v.JInt? && v.i >= 3
  {
  }

  /** The itemised layout's severity: `error` exactly when the lower-cased
      kind contains "error". */
  lemma ItemisedSeverity(diag: Json)
    requires ItemisedFields(diag).Ok?
    ensures var kind := Member(diag.members, "kind", Str(""));
      kind.JString? && (ItemisedFields(diag).value.isError <==> Contains(AsciiLower(kind.s), "error"))
  {
  }

  /** The filter is fail-open: when neither path exists the record stays. */
  lemma RelevanceFailOpen(scope: Scope, file: Json, workspace: Json)
    requires ExistingPath(workspace, scope.pathExists) == Ok(None) && ExistingPath(file, scope.pathExists) == Ok(None)
    ensures Relevant(scope, file, workspace) == Ok(true)
  {
  }

  /** An existing workspace path decides on its own, by containment of its
      absolute path in the root, whatever the file path is. */
  lemma RelevanceWorkspaceFirst(cwd: Path, root: Path, pathExists: string -> bool, file: Json, w: string)
    requires Valid(cwd) && Valid(root)
    requires w != [] && pathExists(w)
    ensures Relevant(Scope(UnderRoot(cwd, root), pathExists), file, JString(w)) == Ok(root <= AbsPath(cwd, w))
  {
    WithinRootIsPrefix(cwd, root, w);
  }

  /** Without an existing workspace path, an existing file path decides by
      containment in the root. */
  lemma RelevanceByFile(cwd: Path, root: Path, pathExists: string -> bool, f: string, workspace: Json)
    requires Valid(cwd) && Valid(root)
    requires ExistingPath(workspace, pathExists) == Ok(None)
    requires f != [] && pathExists(f)
    ensures Relevant(Scope(UnderRoot(cwd, root), pathExists), JString(f), workspace) == Ok(root <= AbsPath(cwd, f))
  {
    WithinRootIsPrefix(cwd, root, f);
  }
}
