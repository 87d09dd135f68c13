/** The monitor's `get_diagnostics`: live records, then xclogparser's errors
    and warnings for the most recent activity log, then the build server's
    `diagnostics.plist`, then SwiftPM's most recent log, each source capped,
    in that order; an exception no source handles itself empties the whole
    result. */
module MonitorDiagnostics {
  import opened Common
  import opened Strings
  import opened Paths
  import opened JsonValues
  import opened Records
  import opened Sequences
  import opened LiveDiagnostics

  /** Everything `get_diagnostics` reads from outside. */
  datatype Sources = Sources(
    live: LiveSources,
    which: ToolRun,                        // `which xclogparser`
    home: Path,                            // Path.home()
    activityLogs: seq<Artifact>,           // DerivedData/**/*.xcactivitylog
    xclogparser: ToolRun,                  // `xclogparser parse --reporter issues` of the most recent
    buildServerExists: bool,               // buildServer.json in the working directory
    buildServer: Option<Json>,             // its parsed content; None when reading it raises
    plists: seq<Artifact>,                 // build_root/**/diagnostics.plist
    plutil: ToolRun,                       // `plutil -convert json` of the most recent
    swiftPmLogsExist: bool,                // ~/.build/logs exists
    swiftPmLogs: seq<Artifact>,            // its *.log files
    swiftPmMatches: Option<seq<SwiftPmMatch>>)  // the pattern's matches in the most recent; None when reading raises

  const XclogErrorCap: nat := 10
  const XclogWarningCap: nat := 5
  const PlistCap: nat := 15

  /** Activity logs older than a day, in seconds, are ignored. */
  const ActivityLogMaxAge: int := 86400

  function DerivedData(home: Path): string {
    ToString(home + ["Library", "Developer", "Xcode", "DerivedData"])
  }

  /** The activity logs modified within the last day. */
  function RecentLogs(logs: seq<Artifact>): (r: seq<Artifact>)
    ensures forall a :: a in r <==> a in logs && a.age < ActivityLogMaxAge
  {
    if logs == [] then []
    else (if logs[0].age < ActivityLogMaxAge then [logs[0]] else []) + RecentLogs(logs[1..])
  }

  // Record builders

  /** The record standing in for xclogparser's output when there is no
      recent activity log; `filterText` is how the filter argument prints. */
  function NoLogRecord(home: Path, filterText: string): Json {
    JObject([("severity", Str("error")), ("file", Str("")), ("line", JInt(0)),
             ("message", Str("No .xcactivitylog files found for xclogparser in " + DerivedData(home)
                             + " (filter_xclogparser=" + filterText + ")")),
             ("source", Str("xclogparser")), ("log_path", Str(DerivedData(home)))])
  }

  /** What each loop turns an entry into. */
  datatype RecordKind = XclogError(logPath: string) | XclogWarning(logPath: string) | PlistEntry

  function XclogRecord(severity: string, fallback: string, issue: seq<(string, Json)>, logPath: string): Json {
    JObject([("severity", Str(severity)), ("file", Member(issue, "documentURL", Str("Unknown"))),
             ("line", Member(issue, "startingLineNumber", JInt(0))),
             ("message", Member(issue, "title", Str(fallback))),
             ("source", Str("xclogparser")), ("log_path", Str(logPath))])
  }

  function PlistRecord(isError: bool, file: string, line: Json, message: Json): Json {
    JObject([("severity", Str(SeverityName(isError))), ("file", Str(Basename(file))), ("line", line),
             ("message", message), ("source", Str("diagnostics.plist"))])
  }

  /** One entry's record, or the exception reading it raises. */
  function Build(kind: RecordKind, x: Json): Result<Json> {
    if !x.JObject? then Err(AttributeGet)
    else
      var d := x.members;
      match kind
      case XclogError(p) => Ok(XclogRecord("error", "Unknown error", d, p))
      case XclogWarning(p) => Ok(XclogRecord("warning", "Unknown warning", d, p))
      case PlistEntry =>
        var isError :- AtLeastThree(Member(d, "severity", JInt(0)));
        var location := Member(d, "location", JObject([]));
        if !location.JObject? then Err(AttributeGet)
        else
          var file := Member(location.members, "file", Str("Unknown"));
          if !file.JString? then Err("TypeError: " + PathTypeError(file))
          else Ok(PlistRecord(isError, file.s, Member(location.members, "line", JInt(0)),
                              Member(d, "message", Str("Unknown issue"))))
  }

  /** What a loop appending one record per entry leaves: the records
      appended before an entry raised, and whether none did. */
  datatype Appended = Appended(records: seq<Json>, completed: bool)

  /** One entry's outcome in front of what the later entries leave: an
      exception ends the loop with nothing more appended. */
  function Cons(r: Result<Json>, rest: Appended): Appended {
    match r
    case Err(_) => Appended([], false)
    case Ok(rec) => Appended([rec] + rest.records, rest.completed)
  }

  /** What a loop appending one record per outcome leaves. */
  function Accumulate(rs: seq<Result<Json>>): (r: Appended)
    ensures |r.records| <= |rs|
    decreases |rs|
  {
    if rs == [] then Appended([], true)
    else Cons(rs[0], Accumulate(rs[1..]))
  }

  /** Every record accumulated is the value of one of the outcomes. */
  lemma {:induction false} AccumulateMembers(rs: seq<Result<Json>>)
    ensures forall r :: r in Accumulate(rs).records ==> exists i :: 0 <= i < |rs| && rs[i] == Ok(r)
    decreases |rs|
  {
    if rs != [] {
      AccumulateMembers(rs[1..]);
      forall r | r in Accumulate(rs).records
        ensures exists i :: 0 <= i < |rs| && rs[i] == Ok(r)
      {
        if rs[0] != Ok(r) {
          var i :| 0 <= i < |rs[1..]| && rs[1..][i] == Ok(r);
          assert rs[i + 1] == Ok(r);
        }
      }
    }
  }

  /** The outcome of each entry under `f`, in order. */
  function Outcomes(xs: seq<Json>, f: Json -> Result<Json>): (rs: seq<Result<Json>>)
    ensures |rs| == |xs| && forall i :: 0 <= i < |xs| ==> rs[i] == f(xs[i])
  {
    seq(|xs|, i requires 0 <= i < |xs| => f(xs[i]))
  }

  /** Building one record of the given kind. */
  function BuildWith(kind: RecordKind): Json -> Result<Json> {
    x => Build(kind, x)
  }

  /** Each entry's outcome, in order. */
  function Builds(xs: seq<Json>, kind: RecordKind): (rs: seq<Result<Json>>)
    ensures |rs| == |xs| && forall i :: 0 <= i < |xs| ==> rs[i] == Build(kind, xs[i])
  {
    Outcomes(xs, BuildWith(kind))
  }

  function AppendEach(xs: seq<Json>, kind: RecordKind): (r: Appended)
    ensures |r.records| <= |xs|
  {
    Accumulate(Builds(xs, kind))
  }

  // The four sources

  /** One of the report's lists, cut to `cap` entries, as records; the
      list's entries raise when they are not dicts. */
  function SlicedRecords(members: seq<(string, Json)>, key: string, cap: nat, kind: RecordKind): Result<seq<Json>> {
    var xs :- Slice(Member(members, key, JArray([])), cap);
    var a := AppendEach(xs, kind);
    if a.completed then Ok(a.records) else Err(AttributeGet)
  }

  /** The records of xclogparser's JSON report: up to 10 errors, then up to
      5 warnings. */
  function XclogIssues(issues: Json, logPath: string): Result<seq<Json>> {
    if !issues.JObject? then Err(AttributeGet)
    else Combine(SlicedRecords(issues.members, "errors", XclogErrorCap, XclogError(logPath)),
                 SlicedRecords(issues.members, "warnings", XclogWarningCap, XclogWarning(logPath)))
  }

  /** The errors' records then the warnings' records; the first exception
      raised is the one that escapes. */
  function Combine(e: Result<seq<Json>>, w: Result<seq<Json>>): Result<seq<Json>> {
    if e.Err? then e
    else if w.Err? then w
    else Ok(e.value + w.value)
  }

  /** The records of one xclogparser run over the activity log `logPath`;
      a failed or silent run contributes nothing. */
  function XclogReport(codec: Codec, run: ToolRun, logPath: string): Result<seq<Json>> {
    match run
    case LaunchFailed(e) => Err(e)
    case Ran(c, out) =>
      if c != 0 || out == [] then Ok([])
      else
        match codec.loads(out)
        case None => Err("JSONDecodeError")
        case Some(issues) => XclogIssues(issues, logPath)
  }

  /** xclogparser's records: nothing when it is not installed, the stand-in
      record when no activity log is recent, otherwise the report on the
      most recent one. `Err` is an exception that escapes to the outer
      handler. */
  function XclogPart(codec: Codec, src: Sources, filterText: string): Result<seq<Json>> {
    match src.which
    case LaunchFailed(e) => Err(e)
    case Ran(code, _) =>
      if code != 0 then Ok([])
      else
        var recent := RecentLogs(src.activityLogs);
        if recent == [] then Ok([NoLogRecord(src.home, filterText)])
        else XclogReport(codec, src.xclogparser, recent[MostRecent(recent)].path)
  }

  /** The records of the converted plist; every exception is caught here,
      keeping the records already appended. */
  function PlistRecords(codec: Codec, plutil: ToolRun): seq<Json> {
    match plutil
    case LaunchFailed(_) => []
    case Ran(code, out) =>
      if code != 0 || out == [] then []
      else
        match codec.loads(out)
        case None => []
        case Some(data) =>
          if !data.JObject? then []
          else
            match Slice(Member(data.members, "diagnostics", JArray([])), PlistCap)
            case Err(_) => []
            case Ok(entries) => AppendEach(entries, PlistEntry).records
  }

  /** The build server's plist records, when buildServer.json names a
      `build_root` under which a diagnostics.plist exists. */
  function PlistPart(codec: Codec, src: Sources): Result<seq<Json>> {
    if !src.buildServerExists then Ok([])
    else
      match src.buildServer
      case None => Err("JSONDecodeError")
      case Some(config) =>
        var named :- In("build_root", config);
        if !named then Ok([])
        else
          var buildRoot :- Index(config, "build_root");
          if !buildRoot.JString? then Err("TypeError: " + PathTypeError(buildRoot))
          else if src.plists == [] then Ok([])
          else Ok(PlistRecords(codec, src.plutil))
  }

  /** The first 10 matches of the most recent SwiftPM log, when it is less
      than an hour old. */
  function SwiftPmPart(src: Sources): Result<seq<Json>> {
    if !src.swiftPmLogsExist || src.swiftPmLogs == [] then Ok([])
    else if src.swiftPmLogs[MostRecent(src.swiftPmLogs)].age >= SwiftPmMaxAge then Ok([])
    else
      match src.swiftPmMatches
      case None => Err("OSError")
      case Some(ms) => Ok(SwiftPmRecords(ms[..Min(SwiftPmCap, |ms|)]))
  }

  /** `get_diagnostics(filter_xclogparser)`. */
  function Diagnostics(codec: Codec, src: Sources, root: Path, filterText: string): seq<Json>
    requires Valid(src.live.cwd) && Valid(root)
  {
    match (XclogPart(codec, src, filterText), PlistPart(codec, src), SwiftPmPart(src))
    case (Ok(x), Ok(p), Ok(w)) => Live(codec, src.live, root) + x + p + w
    case _ => []
  }

  // The collector as the source writes it

  lemma AppendStep(rs: seq<Result<Json>>, i: nat)
    requires i < |rs|
    ensures Accumulate(rs[i..]) == Cons(rs[i], Accumulate(rs[i + 1..]))
  {
    assert rs[i..][1..] == rs[i + 1..];
  }

  /** One more entry read: the records appended so far, then what the rest
      of the entries give, still add up to the whole. */
  lemma AppendAdvance(whole: Appended, added: seq<Json>, r: Result<Json>, tail: Appended)
    requires whole.records == added + Cons(r, tail).records && whole.completed == Cons(r, tail).completed
    ensures r.Err? ==> whole == Appended(added, false)
    ensures r.Ok? ==> whole.records == (added + [r.value]) + tail.records && whole.completed == tail.completed
  {
    if r.Err? {
      assert added + [] == added;
    } else {
      assert added + ([r.value] + tail.records) == (added + [r.value]) + tail.records;
    }
  }

  /** The appending loop over the entries, one outcome each: it stops at
      the first entry that raises. */
  method AppendOutcomes(diagnostics: seq<Json>, xs: seq<Json>, f: Json -> Result<Json>)
    returns (out: seq<Json>, completed: bool)
    ensures out == diagnostics + Accumulate(Outcomes(xs, f)).records
    ensures completed == Accumulate(Outcomes(xs, f)).completed
  {
    out := diagnostics;
    ghost var rs := Outcomes(xs, f);
    ghost var whole := Accumulate(rs);
    ghost var added: seq<Json> := [];
    var i := 0;
    assert rs[0..] == rs;
    while i < |xs|
      invariant 0 <= i <= |xs|
      invariant out == diagnostics + added
      invariant whole.records == added + Accumulate(rs[i..]).records
      invariant whole.completed == Accumulate(rs[i..]).completed
    {
      var r := f(xs[i]);
      AppendStep(rs, i);
      AppendAdvance(whole, added, r, Accumulate(rs[i + 1..]));
      if r.Err? {
        return out, false;
      }
      out := out + [r.value];
      added := added + [r.value];
      i := i + 1;
    }
    assert rs[i..] == [];
    completed := true;
  }

  method AppendRecords(diagnostics: seq<Json>, xs: seq<Json>, kind: RecordKind) returns (out: seq<Json>, completed: bool)
    ensures out == diagnostics + AppendEach(xs, kind).records
    ensures completed == AppendEach(xs, kind).completed
  {
    out, completed := AppendOutcomes(diagnostics, xs, BuildWith(kind));
  }

  method CollectSliced(diagnostics: seq<Json>, members: seq<(string, Json)>, key: string, cap: nat, kind: RecordKind)
    returns (out: seq<Json>, ok: bool)
    ensures ok == SlicedRecords(members, key, cap, kind).Ok?
    ensures ok ==> out == diagnostics + SlicedRecords(members, key, cap, kind).value
  {
    var xs := Slice(Member(members, key, JArray([])), cap);
    if xs.Err? {
      return diagnostics, false;
    }
    out, ok := AppendRecords(diagnostics, xs.value, kind);
  }

  method CollectIssues(issues: Json, logPath: string, diagnostics: seq<Json>) returns (out: seq<Json>, ok: bool)
    ensures ok == XclogIssues(issues, logPath).Ok?
    ensures ok ==> out == diagnostics + XclogIssues(issues, logPath).value
  {
    out := diagnostics;
    if !issues.JObject? {
      return out, false;
    }
    ghost var e := SlicedRecords(issues.members, "errors", XclogErrorCap, XclogError(logPath));
    ghost var w := SlicedRecords(issues.members, "warnings", XclogWarningCap, XclogWarning(logPath));
    out, ok := CollectSliced(out, issues.members, "errors", XclogErrorCap, XclogError(logPath));
    if !ok {
      return out, false;
    }
    out, ok := CollectSliced(out, issues.members, "warnings", XclogWarningCap, XclogWarning(logPath));
    if ok {
      assert out == (diagnostics + e.value) + w.value == diagnostics + (e.value + w.value);
    }
  }

  method CollectXclog(codec: Codec, src: Sources, filterText: string, diagnostics: seq<Json>)
    returns (out: seq<Json>, ok: bool)
    ensures ok == XclogPart(codec, src, filterText).Ok?
    ensures ok ==> out == diagnostics + XclogPart(codec, src, filterText).value
  {
    out := diagnostics;
    if src.which.LaunchFailed? {
      return out, false;
    }
    if src.which.code != 0 {
      return out, true;
    }
    var recent := RecentLogs(src.activityLogs);
    if recent == [] {
      out := out + [NoLogRecord(src.home, filterText)];
      return out, true;
    }
    var logPath := recent[MostRecent(recent)].path;
    var run := src.xclogparser;
    if run.LaunchFailed? {
      return out, false;
    }
    if run.code != 0 || run.stdout == [] {
      return out, true;
    }
    var issues := codec.loads(run.stdout);
    if issues.None? {
      return out, false;
    }
    out, ok := CollectIssues(issues.value, logPath, out);
  }

  method CollectPlistRecords(codec: Codec, plutil: ToolRun, diagnostics: seq<Json>) returns (out: seq<Json>)
    ensures out == diagnostics + PlistRecords(codec, plutil)
  {
    out := diagnostics;
    if plutil.LaunchFailed? || plutil.code != 0 || plutil.stdout == [] {
      return;
    }
    var data := codec.loads(plutil.stdout);
    if data.None? || !data.value.JObject? {
      return;
    }
    var entries := Slice(Member(data.value.members, "diagnostics", JArray([])), PlistCap);
    if entries.Err? {
      return;
    }
    var completed;
    out, completed := AppendRecords(out, entries.value, PlistEntry);
  }

  method CollectPlist(codec: Codec, src: Sources, diagnostics: seq<Json>) returns (out: seq<Json>, ok: bool)
    ensures ok == PlistPart(codec, src).Ok?
    ensures ok ==> out == diagnostics + PlistPart(codec, src).value
  {
    out := diagnostics;
    if !src.buildServerExists {
      return out, true;
    }
    if src.buildServer.None? {
      return out, false;
    }
    var config := src.buildServer.value;
    var named := In("build_root", config);
    if named.Err? {
      return out, false;
    }
    if !named.value {
      return out, true;
    }
    var buildRoot := Index(config, "build_root");
    if buildRoot.Err? || !buildRoot.value.JString? {
      return out, false;
    }
    if src.plists == [] {
      return out, true;
    }
    // From here on every exception is caught and the records kept.
    out := CollectPlistRecords(codec, src.plutil, out);
    ok := true;
  }

  lemma SwiftPmRecordsStep(ms: seq<SwiftPmMatch>, i: nat)
    requires i < |ms|
    ensures SwiftPmRecords(ms[..i + 1]) == SwiftPmRecords(ms[..i]) + [SwiftPmRecord(ms[i])]
  {
    MapStep(ms, i, SwiftPmRecord);
  }

  method CollectSwiftPm(src: Sources, diagnostics: seq<Json>) returns (out: seq<Json>, ok: bool)
    ensures ok == SwiftPmPart(src).Ok?
    ensures ok ==> out == diagnostics + SwiftPmPart(src).value
  {
    out := diagnostics;
    if !src.swiftPmLogsExist || src.swiftPmLogs == [] {
      return out, true;
    }
    if src.swiftPmLogs[MostRecent(src.swiftPmLogs)].age >= SwiftPmMaxAge {
      return out, true;
    }
    if src.swiftPmMatches.None? {
      return out, false;
    }
    var ms := src.swiftPmMatches.value[..Min(SwiftPmCap, |src.swiftPmMatches.value|)];
    var i := 0;
    while i < |ms|
      invariant 0 <= i <= |ms|
      invariant out == diagnostics + SwiftPmRecords(ms[..i])
    {
      SwiftPmRecordsStep(ms, i);
      out := out + [SwiftPmRecord(ms[i])];
      i := i + 1;
    }
    assert ms[..i] == ms;
    ok := true;
  }

  method GetDiagnostics(codec: Codec, src: Sources, root: Path, filterText: string) returns (diagnostics: seq<Json>)
    requires Valid(src.live.cwd) && Valid(root)
    ensures diagnostics == Diagnostics(codec, src, root, filterText)
  {
    diagnostics := GetXcodeLiveDiagnostics(codec, src.live, root);
    var ok;
    diagnostics, ok := CollectXclog(codec, src, filterText, diagnostics);
    if !ok {
      return [];
    }
    diagnostics, ok := CollectPlist(codec, src, diagnostics);
    if !ok {
      return [];
    }
    diagnostics, ok := CollectSwiftPm(src, diagnostics);
    if !ok {
      return [];
    }
  }

  // Properties

  /** The rank of a record's source in the fixed concatenation order. */
  function SourceRank(r: Json): nat {
    if SourceIs(r, "xcode_live") then 0
    else if SourceIs(r, "xclogparser") then 1
    else if SourceIs(r, "diagnostics.plist") then 2
    else 3
  }

  predicate AllFrom(rs: seq<Json>, source: string) {
    forall r :: r in rs ==> SourceIs(r, source)
  }

  predicate AllSeverity(rs: seq<Json>, severity: string) {
    forall r :: r in rs ==> SeverityIs(r, severity)
  }

  lemma XclogRecordShape(severity: string, fallback: string, issue: seq<(string, Json)>, logPath: string)
    ensures SeverityIs(XclogRecord(severity, fallback, issue, logPath), severity)
    ensures SourceIs(XclogRecord(severity, fallback, issue, logPath), "xclogparser")
  {
    var ms := XclogRecord(severity, fallback, issue, logPath).members;
    LookupAt(ms, 0);
    LookupAt(ms, 4);
  }

  lemma PlistRecordShape(isError: bool, file: string, line: Json, message: Json)
    ensures var r := PlistRecord(isError, file, line, message);
      && ErrorOrWarning(r) && SourceIs(r, "diagnostics.plist")
      && Lookup(r.members, "file") == Some(Str(Basename(file)))
  {
    var r := PlistRecord(isError, file, line, message);
    var ms := r.members;
    assert SeverityIs(r, SeverityName(isError)) by { LookupAt(ms, 0); }
    assert SourceIs(r, "diagnostics.plist") by { LookupAt(ms, 4); }
    assert Lookup(ms, "file") == Some(Str(Basename(file))) by { LookupAt(ms, 1); }
  }

  lemma NoLogRecordShape(home: Path, filterText: string)
    ensures SeverityIs(NoLogRecord(home, filterText), "error")
    ensures SourceIs(NoLogRecord(home, filterText), "xclogparser")
  {
    var ms := NoLogRecord(home, filterText).members;
    LookupAt(ms, 0);
    LookupAt(ms, 4);
  }

  /** The record names its file by a bare name, without a directory. */
  predicate BareFile(r: Json) {
    r.JObject? &&
    match Lookup(r.members, "file")
    case Some(JString(f)) => '/' !in f
    case _ => false
  }

  /** Each xclogparser error record is an error, each warning record a
      warning, both from `xclogparser`; each plist record is an error or a
      warning from `diagnostics.plist` that names its file by a bare name. */
  lemma AppendEachShape(xs: seq<Json>, kind: RecordKind)
    ensures forall r :: r in AppendEach(xs, kind).records ==> RecordShape(r, kind)
  {
    var rs := Builds(xs, kind);
    AccumulateMembers(rs);
    forall r | r in AppendEach(xs, kind).records
      ensures RecordShape(r, kind)
    {
      var i :| 0 <= i < |rs| && rs[i] == Ok(r);
      BuildShape(kind, xs[i]);
    }
  }

  lemma BuildShape(kind: RecordKind, x: Json)
    requires Build(kind, x).Ok?
    ensures RecordShape(Build(kind, x).value, kind)
  {
    var d := x.members;
    match kind
    case XclogError(p) => XclogRecordShape("error", "Unknown error", d, p);
    case XclogWarning(p) => XclogRecordShape("warning", "Unknown warning", d, p);
    case PlistEntry =>
      var location := Member(d, "location", JObject([]));
      var file := Member(location.members, "file", Str("Unknown"));
      PlistRecordShape(AtLeastThree(Member(d, "severity", JInt(0))).value, file.s,
        Member(location.members, "line", JInt(0)), Member(d, "message", Str("Unknown issue")));
  }

  predicate RecordShape(r: Json, kind: RecordKind) {
    match kind
    case XclogError(_) => SeverityIs(r, "error") && SourceIs(r, "xclogparser")
    case XclogWarning(_) => SeverityIs(r, "warning") && SourceIs(r, "xclogparser")
    case PlistEntry => ErrorOrWarning(r) && SourceIs(r, "diagnostics.plist") && BareFile(r)
  }

  /** A list of the report gives at most `cap` records of its kind. */
  lemma SlicedShape(members: seq<(string, Json)>, key: string, cap: nat, kind: RecordKind)
    requires SlicedRecords(members, key, cap, kind).Ok?
    ensures var rs := SlicedRecords(members, key, cap, kind).value;
      |rs| <= cap && forall r :: r in rs ==> RecordShape(r, kind)
  {
    AppendEachShape(Slice(Member(members, key, JArray([])), cap).value, kind);
  }

  /** A report contributes at most 10 error records followed by at most 5
      warning records, all from `xclogparser`. */
  lemma IssuesShape(issues: Json, logPath: string)
    requires XclogIssues(issues, logPath).Ok?
    ensures var x := XclogIssues(issues, logPath).value;
      && AllFrom(x, "xclogparser")
      && exists k :: 0 <= k <= |x| && k <= XclogErrorCap && |x| - k <= XclogWarningCap
           && AllSeverity(x[..k], "error") && AllSeverity(x[k..], "warning")
  {
    var x := XclogIssues(issues, logPath).value;
    var e := SlicedRecords(issues.members, "errors", XclogErrorCap, XclogError(logPath)).value;
    var w := SlicedRecords(issues.members, "warnings", XclogWarningCap, XclogWarning(logPath)).value;
    SlicedShape(issues.members, "errors", XclogErrorCap, XclogError(logPath));
    SlicedShape(issues.members, "warnings", XclogWarningCap, XclogWarning(logPath));
    assert x == e + w;
    assert x[..|e|] == e && x[|e|..] == w;
    assert AllSeverity(x[..|e|], "error");
    assert AllSeverity(x[|e|..], "warning");
  }

  /** xclogparser contributes either the one stand-in error record (whenever
      it is installed but no log is recent) or at most 10 error records
      followed by at most 5 warning records. */
  lemma XclogShape(codec: Codec, src: Sources, filterText: string)
    requires XclogPart(codec, src, filterText).Ok?
    ensures var x := XclogPart(codec, src, filterText).value;
      && AllFrom(x, "xclogparser")
      && (src.which.code == 0 && RecentLogs(src.activityLogs) == [] ==> x == [NoLogRecord(src.home, filterText)])
      && (x == [NoLogRecord(src.home, filterText)]
          || exists k :: 0 <= k <= |x| && k <= XclogErrorCap && |x| - k <= XclogWarningCap
               && AllSeverity(x[..k], "error") && AllSeverity(x[k..], "warning"))
  {
    var x := XclogPart(codec, src, filterText).value;
    var recent := RecentLogs(src.activityLogs);
    if src.which.code == 0 && recent == [] {
      NoLogRecordShape(src.home, filterText);
    } else if x != [] {
      var run := src.xclogparser;
      IssuesShape(codec.loads(run.stdout).value, recent[MostRecent(recent)].path);
    } else {
      assert x[..0] == [] && x[0..] == [];
    }
  }

  /** The converted plist contributes at most 15 records, each an error or a
      warning from `diagnostics.plist` naming its file by a bare name. */
  lemma PlistRecordsShape(codec: Codec, plutil: ToolRun)
    ensures var p := PlistRecords(codec, plutil);
      && |p| <= PlistCap && AllFrom(p, "diagnostics.plist")
      && forall r :: r in p ==> ErrorOrWarning(r) && BareFile(r)
  {
    var p := PlistRecords(codec, plutil);
    if p != [] {
      var data := codec.loads(plutil.stdout).value;
      var entries := Slice(Member(data.members, "diagnostics", JArray([])), PlistCap).value;
      AppendEachShape(entries, PlistEntry);
    }
  }

  lemma PlistShape(codec: Codec, src: Sources)
    requires PlistPart(codec, src).Ok?
    ensures var p := PlistPart(codec, src).value;
      && |p| <= PlistCap && AllFrom(p, "diagnostics.plist")
      && forall r :: r in p ==> ErrorOrWarning(r) && BareFile(r)
  {
    PlistRecordsShape(codec, src.plutil);
  }

  /** SwiftPM contributes at most 10 records, each carrying its match's
      level as severity and `swiftpm` as source. */
  lemma SwiftPmShape(src: Sources)
    requires SwiftPmPart(src).Ok?
    ensures var w := SwiftPmPart(src).value;
      && |w| <= SwiftPmCap && AllFrom(w, "swiftpm")
      && forall r :: r in w ==> ErrorOrWarning(r)
  {
    var w := SwiftPmPart(src).value;
    if w != [] {
      var ms := src.swiftPmMatches.value;
      var top := ms[..Min(SwiftPmCap, |ms|)];
      assert w == SwiftPmRecords(top);
      forall r | r in w ensures SourceIs(r, "swiftpm") && ErrorOrWarning(r) {
        var k :| 0 <= k < |w| && w[k] == r;
        assert r == SwiftPmRecord(top[k]);
        SwiftPmRecordShape(top[k]);
      }
    }
  }

  /** The result is empty, or it is the live records, then xclogparser's,
      then the plist's, then SwiftPM's: sources never interleave, and there
      are at most 20 + 15 + 15 + 10 records. */
  lemma DiagnosticsOrder(codec: Codec, src: Sources, root: Path, filterText: string)
    requires Valid(src.live.cwd) && Valid(root)
    ensures var d := Diagnostics(codec, src, root, filterText);
      && |d| <= LiveCap + XclogErrorCap + XclogWarningCap + PlistCap + SwiftPmCap
      && forall i, j :: 0 <= i <= j < |d| ==> SourceRank(d[i]) <= SourceRank(d[j])
  {
    var d := Diagnostics(codec, src, root, filterText);
    if d != [] {
      var l := Live(codec, src.live, root);
      var x := XclogPart(codec, src, filterText).value;
      var p := PlistPart(codec, src).value;
      var w := SwiftPmPart(src).value;
      LiveBounded(codec, src.live, root);
      XclogShape(codec, src, filterText);
      PlistShape(codec, src);
      SwiftPmShape(src);
      RanksOf(l, x, p, w);
    }
  }

  lemma RanksOf(l: seq<Json>, x: seq<Json>, p: seq<Json>, w: seq<Json>)
    requires AllFrom(l, "xcode_live") && AllFrom(x, "xclogparser") && AllFrom(p, "diagnostics.plist") && AllFrom(w, "swiftpm")
    ensures var d := l + x + p + w;
      forall i, j :: 0 <= i <= j < |d| ==> SourceRank(d[i]) <= SourceRank(d[j])
  {
    var d := l + x + p + w;
    assert forall r :: r in l ==> SourceRank(r) == 0;
    assert forall r :: r in x ==> SourceRank(r) == 1 by {
      forall r | r in x ensures SourceRank(r) == 1 { assert SourceIs(r, "xclogparser"); }
    }
    assert forall r :: r in p ==> SourceRank(r) == 2 by {
      forall r | r in p ensures SourceRank(r) == 2 { assert SourceIs(r, "diagnostics.plist"); }
    }
    assert forall r :: r in w ==> SourceRank(r) == 3 by {
      forall r | r in w ensures SourceRank(r) == 3 { assert SourceIs(r, "swiftpm"); }
    }
    forall i | 0 <= i < |d| ensures SourceRank(d[i]) == Band(i, |l|, |x|, |p|) {
      if i < |l| { assert d[i] == l[i]; }
      else if i < |l| + |x| { assert d[i] == x[i - |l|]; }
      else if i < |l| + |x| + |p| { assert d[i] == p[i - |l| - |x|]; }
      else { assert d[i] == w[i - |l| - |x| - |p|]; }
    }
  }

  function Band(i: nat, a: nat, b: nat, c: nat): nat {
    if i < a then 0 else if i < a + b then 1 else if i < a + b + c then 2 else 3
  }

  /** An exception escaping any source empties the whole result. */
  lemma EscapingErrorEmpties(codec: Codec, src: Sources, root: Path, filterText: string)
    requires Valid(src.live.cwd) && Valid(root)
    requires XclogPart(codec, src, filterText).Err? || PlistPart(codec, src).Err? || SwiftPmPart(src).Err?
    ensures Diagnostics(codec, src, root, filterText) == []
  {
  }
}
