/** The shared helpers of `xcode_monitor_core`: project detection, scheme
    discovery, the build command and its output, the diagnostics collector,
    and the `XcodeMonitorCore` holder of the monitored path. */
module XcodeCore {
  import opened Common
  import opened Strings
  import opened Paths
  import opened JsonValues
  import opened Records
  import opened Sequences

  // Project detection

  /** The first of the globbed paths, if any. */
  function First(paths: seq<string>): (r: Option<string>)
    ensures r.None? <==> paths == []
    ensures r.Some? ==> r.value == paths[0]
  {
    if paths == [] then None else Some(paths[0])
  }

  /** `find_workspace_and_project`: the first `.xcworkspace` and the first
      `.xcodeproj` of the directory, each `None` when there is none. */
  function FindWorkspaceAndProject(workspaces: seq<string>, projects: seq<string>): (r: (Option<string>, Option<string>))
    ensures r.0 == First(workspaces) && r.1 == First(projects)
  {
    (First(workspaces), First(projects))
  }

  // The scheme in buildServer.json

  predicate IsSchemeFlag(arg: Json) {
    arg == JString("-scheme")
  }

  /** The first index holding `"-scheme"` with an element after it. */
  function SchemeFlag(args: seq<Json>): (r: Option<nat>)
    ensures r.Some? ==> r.value + 1 < |args| && args[r.value] == JString("-scheme")
    ensures r.Some? ==> forall i :: 0 <= i < r.value ==> args[i] != JString("-scheme")
    ensures r.None? <==> forall i :: 0 <= i < |args| - 1 ==> args[i] != JString("-scheme")
  {
    if args == [] then None
    else
      var r := FirstWhere(args[..|args| - 1], IsSchemeFlag);
      assert forall i :: 0 <= i < |args| - 1 ==> args[..|args| - 1][i] == args[i];
      r
  }

  /** `get_scheme_from_config`: the argument after the first `-scheme` of
      the configuration's `arguments`, `None` without a configuration file
      or such an argument. Reading or indexing the configuration can raise
      (`Err`). */
  function SchemeFromConfig(configExists: bool, config: Option<Json>): Result<Option<Json>> {
    if !configExists then Ok(None)
    else
      match config
      case None => Err("JSONDecodeError")
      case Some(c) =>
        if !c.JObject? then Err(NoAttribute(c, "get"))
        else
          var args := Member(c.members, "arguments", JArray([]));
          var elements :- Iterate(args);
          match SchemeFlag(elements)
          case None => Ok(None)
          // Iterating a dict yields its keys, but indexing it by position fails.
          case Some(i) => if args.JObject? then Err("KeyError: " + IntToString(i + 1)) else Ok(Some(elements[i + 1]))
  }

  /** With a list of arguments, the scheme is the element right after the
      first `-scheme` that has one. */
  lemma SchemeAfterFlag(pre: seq<Json>, scheme: Json, post: seq<Json>, others: seq<(string, Json)>)
    requires forall i :: 0 <= i < |pre| ==> pre[i] != JString("-scheme")
    ensures SchemeFromConfig(true, Some(JObject(others + [("arguments", JArray(pre + [JString("-scheme"), scheme] + post))])))
      == Ok(Some(scheme))
  {
    var ms := others + [("arguments", JArray(pre + [JString("-scheme"), scheme] + post))];
    LookupAt(ms, |others|);
    var args := pre + [JString("-scheme"), scheme] + post;
    assert args[|pre|] == JString("-scheme");
    assert args[|pre| + 1] == scheme;
    var f := SchemeFlag(args);
    assert f == Some(|pre|) by {
      assert forall i :: 0 <= i < |pre| ==> args[i] == pre[i];
    }
  }

  /** Without a configuration file, or without a `-scheme` that has a
      successor in a list of arguments, there is no scheme. */
  lemma NoSchemeWithoutFlag(config: Option<Json>, args: seq<Json>)
    requires forall i :: 0 <= i < |args| - 1 ==> args[i] != JString("-scheme")
    ensures SchemeFromConfig(false, config) == Ok(None)
    ensures SchemeFromConfig(true, Some(JObject([("arguments", JArray(args))]))) == Ok(None)
  {
    LookupAt([("arguments", JArray(args))], 0);
  }

  /** Arguments given as a dict are iterated by their keys, each once: a
      dict whose only key is `-scheme`, however often it is repeated, has
      one key and so no successor to name a scheme. */
  lemma RepeatedSchemeKey(others: seq<(string, Json)>, args: seq<(string, Json)>)
    requires args != [] && forall k :: 0 <= k < |args| ==> args[k].0 == "-scheme"
    ensures SchemeFromConfig(true, Some(JObject(others + [("arguments", JObject(args))]))) == Ok(None)
    ensures SchemeFromConfig(true, Some(JObject([("arguments", JObject([("-scheme", JInt(1)), ("-scheme", JInt(2))]))])))
      == Ok(None)
  {
    var ms := others + [("arguments", JObject(args))];
    LookupAt(ms, |others|);
    KeysOneName(args, "-scheme");
    var two := [("-scheme", JInt(1)), ("-scheme", JInt(2))];
    LookupAt([("arguments", JObject(two))], 0);
    KeysOneName(two, "-scheme");
  }

  // Scheme detection from `xcodebuild -list`

  /** A line whose stripped form starts with `Schemes:`. */
  predicate IsSchemesHeader(line: string) {
    StartsWith(Strip(line), "Schemes:")
  }

  predicate NonBlank(line: string) {
    Strip(line) != []
  }

  /** The first line whose stripped form starts with `Schemes:`. */
  function SchemesHeader(lines: seq<string>): (r: Option<nat>)
    ensures r.Some? ==> r.value < |lines| && IsSchemesHeader(lines[r.value])
                        && forall i :: 0 <= i < r.value ==> !IsSchemesHeader(lines[i])
    ensures r.None? <==> forall i :: 0 <= i < |lines| ==> !IsSchemesHeader(lines[i])
  {
    FirstWhere(lines, IsSchemesHeader)
  }

  /** The first line that is not blank once stripped, stripped. */
  function FirstNonBlank(lines: seq<string>): (r: Option<string>)
    ensures r.Some? ==> exists j :: 0 <= j < |lines| && r.value == Strip(lines[j]) && r.value != []
                          && forall i :: 0 <= i < j ==> Strip(lines[i]) == []
    ensures r.None? <==> forall i :: 0 <= i < |lines| ==> Strip(lines[i]) == []
  {
    match FirstWhere(lines, NonBlank)
    case None => None
    case Some(j) => Some(Strip(lines[j]))
  }

  /** The scheme an `xcodebuild -list` output names first: the first
      non-blank line after the `Schemes:` header. */
  function FirstScheme(output: string): Option<string> {
    var lines := SplitLines(output);
    match SchemesHeader(lines)
    case None => None
    case Some(i) => FirstNonBlank(lines[i + 1..])
  }

  /** `detect_scheme`: the workspace's first scheme, else the project's; a
      listing that raises (`Err`) or names none falls through. */
  function DetectScheme(workspace: Option<string>, workspaceList: Result<string>,
                        project: Option<string>, projectList: Result<string>): (r: Option<string>)
    ensures r.Some? ==>
      || (workspace.Some? && workspaceList.Ok? && r == FirstScheme(workspaceList.value))
      || (project.Some? && projectList.Ok? && r == FirstScheme(projectList.value))
  {
    if workspace.Some? && workspaceList.Ok? && FirstScheme(workspaceList.value).Some? then
      FirstScheme(workspaceList.value)
    else if project.Some? && projectList.Ok? then FirstScheme(projectList.value)
    else None
  }

  /** The workspace's scheme wins over the project's; without a workspace,
      or when its listing names none, the project's is used. */
  lemma WorkspaceSchemeFirst(workspace: Option<string>, workspaceList: Result<string>,
                             project: Option<string>, projectList: Result<string>)
    ensures workspace.Some? && workspaceList.Ok? && FirstScheme(workspaceList.value).Some? ==>
      DetectScheme(workspace, workspaceList, project, projectList) == FirstScheme(workspaceList.value)
    ensures (workspace.None? || workspaceList.Err? || FirstScheme(workspaceList.value).None?) ==>
      DetectScheme(workspace, workspaceList, project, projectList) ==
        if project.Some? && projectList.Ok? then FirstScheme(projectList.value) else None
  {
  }

  lemma Regroup<T>(a: seq<T>, x: T, b: seq<T>, y: T, c: seq<T>)
    ensures a + [x] + b + [y] + c == a + [x] + (b + [y] + c)
    ensures (a + [x] + b + [y] + c)[|a| + 1..] == b + [y] + c
  {
    assert a + [x] + b + [y] + c == a + [x] + (b + [y] + c);
  }

  lemma HeaderAt(before: seq<string>, header: string, rest: seq<string>)
    requires forall i :: 0 <= i < |before| ==> !IsSchemesHeader(before[i])
    requires IsSchemesHeader(header)
    ensures SchemesHeader(before + [header] + rest) == Some(|before|)
  {
    FirstWhereAt(before, header, rest, IsSchemesHeader);
  }

  lemma SchemeAt(blanks: seq<string>, scheme: string, after: seq<string>)
    requires forall i :: 0 <= i < |blanks| ==> Strip(blanks[i]) == []
    requires Strip(scheme) != []
    ensures FirstNonBlank(blanks + [scheme] + after) == Some(Strip(scheme))
  {
    FirstWhereAt(blanks, scheme, after, NonBlank);
  }

  /** The scheme is the first non-blank line after the header, whatever
      comes after it. */
  lemma SchemeAfterHeader(before: seq<string>, header: string, blanks: seq<string>, scheme: string, after: seq<string>)
    requires forall i :: 0 <= i < |before| ==> !IsSchemesHeader(before[i])
    requires IsSchemesHeader(header)
    requires forall i :: 0 <= i < |blanks| ==> Strip(blanks[i]) == []
    requires Strip(scheme) != []
    ensures var lines := before + [header] + blanks + [scheme] + after;
      SchemesHeader(lines) == Some(|before|)
      && FirstNonBlank(lines[|before| + 1..]) == Some(Strip(scheme))
  {
    Regroup(before, header, blanks, scheme, after);
    HeaderAt(before, header, blanks + [scheme] + after);
    SchemeAt(blanks, scheme, after);
  }

  /** A header followed only by blank lines names no scheme. */
  lemma NoSchemeAfterBlanks(before: seq<string>, header: string, blanks: seq<string>)
    requires forall i :: 0 <= i < |before| ==> !IsSchemesHeader(before[i])
    requires IsSchemesHeader(header)
    requires forall i :: 0 <= i < |blanks| ==> Strip(blanks[i]) == []
    ensures var lines := before + [header] + blanks;
      SchemesHeader(lines) == Some(|before|) && FirstNonBlank(lines[|before| + 1..]) == None
  {
    var lines := before + [header] + blanks;
    FirstWhereAt(before, header, blanks, IsSchemesHeader);
    assert lines[|before| + 1..] == blanks;
  }

  // The build

  /** How the build process ran: the lines it printed, with their line
      terminators, and its exit code; or the exception starting it raised. */
  datatype BuildRun = Finished(lines: seq<string>, code: int) | BuildFailed(error: string)

  /** The scheme the build uses: the configured one unless it is falsy. */
  function SchemeOrDefault(configured: Option<Json>): (s: Json)
    ensures Truthy(s)
  {
    if configured.Some? && Truthy(configured.value) then configured.value else JString("default")
  }

  /** The `xcodebuild` command: the workspace when there is one, else the
      project; `None` when there is neither. */
  function BuildCommand(workspace: Option<string>, project: Option<string>, scheme: string): Option<seq<string>> {
    if workspace.Some? then Some(["xcodebuild", "-workspace", workspace.value, "-scheme", scheme, "build"])
    else if project.Some? then Some(["xcodebuild", "-project", project.value, "-scheme", scheme, "build"])
    else None
  }

  /** A printed line kept, stripped, when it is not blank. */
  function KeptLine(line: string): seq<string> {
    if Strip(line) != [] then [Strip(line)] else []
  }

  /** The printed lines kept, stripped: the ones not blank. */
  function KeptLines(lines: seq<string>): seq<string> {
    ConcatMap(lines, KeptLine)
  }

  /** Every line kept is a printed line stripped, and not empty; every
      printed line that is not blank is kept. */
  lemma KeptLinesMeaning(lines: seq<string>)
    ensures |KeptLines(lines)| <= |lines|
    ensures forall l :: l in KeptLines(lines) ==> l != [] && exists k :: 0 <= k < |lines| && l == Strip(lines[k])
    ensures forall k :: 0 <= k < |lines| && Strip(lines[k]) != [] ==> Strip(lines[k]) in KeptLines(lines)
  {
    ConcatMapMembers(lines, KeptLine);
    ConcatMapAtMostOne(lines, KeptLine);
  }

  /** The loop of `run_build` keeping the non-blank lines, stripped. */
  method FilterLines(lines: seq<string>) returns (output: seq<string>)
    ensures output == KeptLines(lines)
  {
    output := [];
    var i := 0;
    while i < |lines|
      invariant 0 <= i <= |lines|
      invariant output == KeptLines(lines[..i])
    {
      ConcatMapStep(lines, i, KeptLine);
      var line := Strip(lines[i]);
      if line != [] {
        output := output + [line];
      }
      i := i + 1;
    }
    assert lines[..i] == lines;
  }

  /** The line reporting that the build was started with a scheme of
      another type than `str`. */
  function BuildTypeError(scheme: Json): string {
    "Build error: " + PathTypeError(scheme)
  }

  /** `run_build`: `Err` is the exception reading the configuration raises
      before the build starts. */
  function Build(workspaces: seq<string>, projects: seq<string>, configExists: bool, config: Option<Json>,
                 exec: seq<string> -> BuildRun): Result<(bool, seq<string>)>
  {
    var (workspace, project) := FindWorkspaceAndProject(workspaces, projects);
    var configured :- SchemeFromConfig(configExists, config);
    var scheme := SchemeOrDefault(configured);
    if workspace.None? && project.None? then Ok((false, ["No workspace or project found"]))
    else if !scheme.JString? then Ok((false, [BuildTypeError(scheme)]))
    else
      match exec(BuildCommand(workspace, project, scheme.s).value)
      case BuildFailed(e) => Ok((false, ["Build error: " + e]))
      case Finished(lines, code) => Ok((code == 0, KeptLines(lines)))
  }

  /** The build runs the workspace when there is one, else the project, with
      the configured scheme or `default`; without either target it reports
      that and runs nothing; it succeeds exactly when the build exits with
      0, reporting the build's non-blank lines stripped. */
  lemma BuildMeaning(workspaces: seq<string>, projects: seq<string>, configExists: bool, config: Option<Json>,
                     exec: seq<string> -> BuildRun)
    requires SchemeFromConfig(configExists, config).Ok?
    ensures var b := Build(workspaces, projects, configExists, config, exec).value;
      var scheme := SchemeOrDefault(SchemeFromConfig(configExists, config).value);
      && (workspaces == [] && projects == [] ==> b == (false, ["No workspace or project found"]))
      && (!scheme.JString? && (workspaces != [] || projects != []) ==>
            b == (false, ["Build error: " + PathTypeError(scheme)]))
      && (scheme.JString? && (workspaces != [] || projects != []) ==>
            var cmd := if workspaces != [] then ["xcodebuild", "-workspace", workspaces[0], "-scheme", scheme.s, "build"]
                       else ["xcodebuild", "-project", projects[0], "-scheme", scheme.s, "build"];
            match exec(cmd)
            case Finished(lines, code) => b.0 == (code == 0) && b.1 == KeptLines(lines)
            case BuildFailed(e) => b == (false, ["Build error: " + e]))
    ensures !configExists ==> SchemeOrDefault(SchemeFromConfig(configExists, config).value) == JString("default")
  {
  }

  /** With a target and a scheme that is not a string, the build raises
      the `TypeError` of starting a process with it. */
  lemma BuildWithSchemeOfOtherType(workspaces: seq<string>, projects: seq<string>, configExists: bool,
                                   config: Option<Json>, exec: seq<string> -> BuildRun)
    requires SchemeFromConfig(configExists, config).Ok? && (workspaces != [] || projects != [])
    requires !SchemeOrDefault(SchemeFromConfig(configExists, config).value).JString?
    ensures Build(workspaces, projects, configExists, config, exec) ==
      Ok((false, [BuildTypeError(SchemeOrDefault(SchemeFromConfig(configExists, config).value))]))
  {
  }

  /** With a target and a string scheme, the build is what the command's
      run gives. */
  lemma BuildWithStringScheme(workspaces: seq<string>, projects: seq<string>, configExists: bool,
                              config: Option<Json>, exec: seq<string> -> BuildRun)
    requires SchemeFromConfig(configExists, config).Ok? && (workspaces != [] || projects != [])
    requires SchemeOrDefault(SchemeFromConfig(configExists, config).value).JString?
    ensures var scheme := SchemeOrDefault(SchemeFromConfig(configExists, config).value).s;
      var cmd := if workspaces != [] then ["xcodebuild", "-workspace", workspaces[0], "-scheme", scheme, "build"]
                 else ["xcodebuild", "-project", projects[0], "-scheme", scheme, "build"];
      Build(workspaces, projects, configExists, config, exec) ==
        match exec(cmd)
        case BuildFailed(e) => Ok((false, ["Build error: " + e]))
        case Finished(lines, code) => Ok((code == 0, KeptLines(lines)))
  {
  }

  /** `run_build` as the source writes it, filtering the output line by line. */
  method RunBuild(workspaces: seq<string>, projects: seq<string>, configExists: bool, config: Option<Json>,
                  exec: seq<string> -> BuildRun) returns (r: Result<(bool, seq<string>)>)
    ensures r == Build(workspaces, projects, configExists, config, exec)
  {
    var workspace := First(workspaces);
    var project := First(projects);
    var configured := SchemeFromConfig(configExists, config);
    if configured.Err? {
      return Err(configured.error);
    }
    var scheme := SchemeOrDefault(configured.value);
    if workspace.None? && project.None? {
      return Ok((false, ["No workspace or project found"]));
    }
    // Starting a process with a non-string argument raises inside the try.
    if !scheme.JString? {
      BuildWithSchemeOfOtherType(workspaces, projects, configExists, config, exec);
      return Ok((false, [BuildTypeError(scheme)]));
    }
    var cmd := if workspace.Some? then ["xcodebuild", "-workspace", workspace.value, "-scheme", scheme.s, "build"]
               else ["xcodebuild", "-project", project.value, "-scheme", scheme.s, "build"];
    BuildWithStringScheme(workspaces, projects, configExists, config, exec);
    var run := exec(cmd);
    if run.BuildFailed? {
      return Ok((false, ["Build error: " + run.error]));
    }
    var output := FilterLines(run.lines);
    r := Ok((run.code == 0, output));
  }

  // The diagnostics collector

  /** Everything `get_diagnostics` reads from outside. */
  datatype CoreSources = CoreSources(
    which: ToolRun,                        // `which xclogparser`
    activityLogs: seq<Artifact>,           // DerivedData/**/*.xcactivitylog
    parser: Result<int>,                   // exit code of `xclogparser parse`, or the exception it raised
    plists: seq<Result<Json>>,             // each DerivedData/**/diagnostics.plist, parsed, or the exception
    swiftPmLogsExist: bool,                // ~/.build/logs exists
    swiftPmLogs: seq<Artifact>,            // its *.log files
    swiftPmMatches: Result<seq<SwiftPmMatch>>)  // the pattern's matches in the most recent, or the text of the exception reading it raises

  /** Activity logs older than a day, in seconds, are ignored. */
  const CoreActivityLogMaxAge: int := 86400

  /** An activity log modified within the last day. */
  predicate IsRecentLog(a: Artifact) {
    a.age < CoreActivityLogMaxAge
  }

  /** The record standing for an xclogparser run that raised; a run that
      finishes contributes nothing, its output is not read. */
  function CoreXclog(src: CoreSources): Result<seq<Json>> {
    match src.which
    case LaunchFailed(e) => Err(e)
    case Ran(code, _) =>
      if code != 0 || FirstWhere(src.activityLogs, IsRecentLog).None? then Ok([])
      else
        match src.parser
        case Err(e) => Ok([ErrorRecord("XCLogParser error: " + e)])
        case Ok(_) => Ok([])
  }

  /** One plist's contribution: its raw `diagnostics` entries, or one error
      record when reading them raises. */
  function PlistEntries(plist: Result<Json>): seq<Json> {
    match PlistDiagnostics(plist)
    case Ok(entries) => entries
    case Err(e) => [ErrorRecord("Error parsing diagnostics.plist: " + e)]
  }

  function PlistDiagnostics(plist: Result<Json>): Result<seq<Json>> {
    var p :- plist;
    var d :- GetOr(p, "diagnostics", JArray([]));
    Iterate(d)
  }

  function AllPlistEntries(plists: seq<Result<Json>>): seq<Json> {
    ConcatMap(plists, PlistEntries)
  }

  /** The records of the first 10 matches of the most recent SwiftPM log,
      when it is less than an hour old. */
  function CoreSwiftPm(src: CoreSources): Result<seq<Json>> {
    if !src.swiftPmLogsExist || src.swiftPmLogs == [] then Ok([])
    else if src.swiftPmLogs[MostRecent(src.swiftPmLogs)].age >= SwiftPmMaxAge then Ok([])
    else
      match src.swiftPmMatches
      case Err(e) => Err(e)
      case Ok(ms) => Ok(SwiftPmRecords(ms[..Min(SwiftPmCap, |ms|)]))
  }

  /** `get_diagnostics`: the xclogparser record, then every plist's
      entries, then the SwiftPM records; an exception none of them handles
      replaces everything with one error record. */
  function CoreDiagnostics(src: CoreSources): seq<Json> {
    match (CoreXclog(src), CoreSwiftPm(src))
    case (Ok(x), Ok(w)) => x + AllPlistEntries(src.plists) + w
    case (Err(e), _) => [ErrorRecord("Error getting diagnostics: " + e)]
    case (_, Err(e)) => [ErrorRecord("Error getting diagnostics: " + e)]
  }

  /** Each plist contributes independently: one that fails to parse adds
      its one error record, and the ones after it are still read. */
  lemma PlistFailureContinues(before: seq<Result<Json>>, e: string, after: seq<Result<Json>>)
    ensures AllPlistEntries(before + [Err(e)] + after) ==
      AllPlistEntries(before) + [ErrorRecord("Error parsing diagnostics.plist: " + e)] + AllPlistEntries(after)
  {
    ConcatMapAppend(before + [Err(e)], after, PlistEntries);
    ConcatMapAppend(before, [Err(e)], PlistEntries);
    assert ConcatMap([Err(e)], PlistEntries) == ConcatMap([], PlistEntries) + PlistEntries(Err(e));
  }

  /** A plist whose root is a dict contributes its `diagnostics` list as
      it is; one whose root is not a dict contributes a single error
      record. */
  lemma PlistEntriesOf(members: seq<(string, Json)>, entries: seq<Json>, root: Json)
    requires Lookup(members, "diagnostics") == Some(JArray(entries))
    requires !root.JObject?
    ensures PlistEntries(Ok(JObject(members))) == entries
    ensures |PlistEntries(Ok(root))| == 1 && SeverityIs(PlistEntries(Ok(root))[0], "error")
  {
    var ms := PlistEntries(Ok(root))[0].members;
    LookupAt(ms, 0);
  }

  /** A `diagnostics` value that is a dict contributes its keys, each
      once, however often a key is repeated. */
  lemma PlistDictDiagnostics(members: seq<(string, Json)>, entries: seq<(string, Json)>)
    requires Lookup(members, "diagnostics") == Some(JObject(entries))
    ensures PlistEntries(Ok(JObject(members))) == Keys(entries)
    ensures PlistEntries(Ok(JObject([("diagnostics", JObject([("a", JInt(1)), ("a", JInt(2))]))]))) == [JString("a")]
  {
    var two := [("a", JInt(1)), ("a", JInt(2))];
    LookupAt([("diagnostics", JObject(two))], 0);
    KeysOneName(two, "a");
  }

  /** An error record carries Python's own text of the exception: a plist
      whose root is not a dict names the root's type, and a `diagnostics`
      value that cannot be iterated names its type. */
  lemma PlistErrorTexts(root: Json, members: seq<(string, Json)>, d: Json)
    requires !root.JObject?
    requires Lookup(members, "diagnostics") == Some(d) && !(d.JArray? || d.JString? || d.JObject?)
    ensures PlistEntries(Ok(root)) == [ErrorRecord("Error parsing diagnostics.plist: " + NoAttribute(root, "get"))]
    ensures PlistEntries(Ok(JObject(members))) == [ErrorRecord("Error parsing diagnostics.plist: " + NotIterable(d))]
  {
  }

  /** A recent SwiftPM log whose reading raises replaces everything with
      one record carrying the exception's text. */
  lemma SwiftPmReadErrorShown(src: CoreSources, e: string)
    requires CoreXclog(src).Ok? && src.swiftPmLogsExist && src.swiftPmLogs != []
    requires src.swiftPmLogs[MostRecent(src.swiftPmLogs)].age < SwiftPmMaxAge
    requires src.swiftPmMatches == Err(e)
    ensures CoreDiagnostics(src) == [ErrorRecord("Error getting diagnostics: " + e)]
  {
  }

  /** Any exception escaping the sources gives exactly one error record. */
  lemma CoreErrorIsOneRecord(src: CoreSources)
    requires CoreXclog(src).Err? || CoreSwiftPm(src).Err?
    ensures |CoreDiagnostics(src)| == 1 && SeverityIs(CoreDiagnostics(src)[0], "error")
  {
    var ms := CoreDiagnostics(src)[0].members;
    LookupAt(ms, 0);
  }

  /** Otherwise the result is at most one xclogparser record, then the
      plist entries, then at most 10 SwiftPM records. */
  lemma CoreOrder(src: CoreSources)
    requires CoreXclog(src).Ok? && CoreSwiftPm(src).Ok?
    ensures var x := CoreXclog(src).value;
      var w := CoreSwiftPm(src).value;
      && |x| <= 1 && |w| <= SwiftPmCap
      && CoreDiagnostics(src) == x + AllPlistEntries(src.plists) + w
  {
  }

  /** One plist's entries appended one at a time, or its error record. */
  method AppendPlist(diagnostics: seq<Json>, plist: Result<Json>) returns (out: seq<Json>)
    ensures out == diagnostics + PlistEntries(plist)
  {
    var entries := PlistDiagnostics(plist);
    if entries.Err? {
      return diagnostics + [ErrorRecord("Error parsing diagnostics.plist: " + entries.error)];
    }
    out := diagnostics;
    var j := 0;
    while j < |entries.value|
      invariant 0 <= j <= |entries.value|
      invariant out == diagnostics + entries.value[..j]
    {
      assert entries.value[..j + 1] == entries.value[..j] + [entries.value[j]];
      out := out + [entries.value[j]];
      j := j + 1;
    }
    assert entries.value[..j] == entries.value;
  }

  /** The loop over every `diagnostics.plist` found. */
  method CollectPlists(diagnostics: seq<Json>, plists: seq<Result<Json>>) returns (out: seq<Json>)
    ensures out == diagnostics + AllPlistEntries(plists)
  {
    out := diagnostics;
    var i := 0;
    while i < |plists|
      invariant 0 <= i <= |plists|
      invariant out == diagnostics + AllPlistEntries(plists[..i])
    {
      ConcatMapStep(plists, i, PlistEntries);
      out := AppendPlist(out, plists[i]);
      i := i + 1;
    }
    assert plists[..i] == plists;
  }

  /** `get_diagnostics` as the source writes it. */
  method GetCoreDiagnostics(src: CoreSources) returns (diagnostics: seq<Json>)
    ensures diagnostics == CoreDiagnostics(src)
  {
    var xclog := CoreXclog(src);
    if xclog.Err? {
      return [ErrorRecord("Error getting diagnostics: " + xclog.error)];
    }
    diagnostics := CollectPlists(xclog.value, src.plists);
    var swiftPm := CoreSwiftPm(src);
    if swiftPm.Err? {
      return [ErrorRecord("Error getting diagnostics: " + swiftPm.error)];
    }
    diagnostics := diagnostics + swiftPm.value;
  }

  // The holder of the monitored path

  class XcodeMonitorCore {
    var root: Path
    var monitoring: bool

    ghost predicate Invariant()
      reads this
    {
      Valid(root)
    }

    /** The root is the absolute form of `rootArg`, or the working
        directory when it is absent or empty; monitoring starts off. */
    constructor (rootArg: Option<string>, cwd: Path)
      requires Valid(cwd)
      ensures Invariant()
      ensures root == if rootArg.Some? && rootArg.value != [] then AbsPath(cwd, rootArg.value) else cwd
      ensures !monitoring
    {
      root := if rootArg.Some? && rootArg.value != [] then AbsPath(cwd, rootArg.value) else cwd;
      monitoring := false;
    }

    method StartMonitoring()
      modifies this`monitoring
      ensures monitoring
    {
      monitoring := true;
    }

    method StopMonitoring()
      modifies this`monitoring
      ensures !monitoring
    {
      monitoring := false;
    }

    /** `set_project_path`: stop, move the root to the absolute form of
        `newPath`, restart, and return the new root. */
    method SetProjectPath(newPath: string, cwd: Path) returns (r: string)
      requires Valid(cwd)
      modifies this
      ensures Invariant()
      ensures root == AbsPath(cwd, newPath) && monitoring
      ensures r == ToString(root)
    {
      StopMonitoring();
      root := AbsPath(cwd, newPath);
      StartMonitoring();
      r := ToString(root);
    }

    function GetProjectPath(): string
      reads this
    {
      ToString(root)
    }
  }

  /** Setting the path and reading it back gives the absolute form of the
      path set, and setting the same path again changes nothing. */
  lemma SetPathIdempotent(cwd: Path, newPath: string)
    requires Valid(cwd)
    ensures AbsPath(cwd, ToString(AbsPath(cwd, newPath))) == AbsPath(cwd, newPath)
  {
    AbsPathOfToString(cwd, AbsPath(cwd, newPath));
  }
}
