/** The values the monitor passes around: diagnostic records (Python dicts,
    kept as JSON objects so that raw entries copied from an artifact and
    records the monitor builds have one type), queue updates (tuples whose
    first element is a tag), and file-system artifacts with their ages. */
module Records {
  import opened Common
  import opened Strings
  import opened JsonValues
  import opened Sequences

  /** A file found by a glob, with its age `now - st_mtime` in whole
      seconds. */
  datatype Artifact = Artifact(path: string, age: int)

  /** `max(files, key=mtime)`: the first file of least age. */
  function MostRecent(files: seq<Artifact>): (i: nat)
    requires |files| > 0
    ensures i < |files|
    ensures forall k :: 0 <= k < |files| ==> files[i].age <= files[k].age
    ensures forall k :: 0 <= k < i ==> files[k].age > files[i].age
  {
    if |files| == 1 then 0
    else
      var j := MostRecent(files[1..]) + 1;
      if files[0].age <= files[j].age then 0 else j
  }

  /** The outcome of `subprocess.run`: its return code and standard output,
      or the exception launching it raised. */
  datatype ToolRun = Ran(code: int, stdout: string) | LaunchFailed(error: string)

  // Diagnostic records

  function Str(s: string): Json { JString(s) }

  /** `{'severity': 'error', 'message': m}`. */
  function ErrorRecord(message: string): Json {
    JObject([("severity", Str("error")), ("message", Str(message))])
  }

  /** The record announcing that a monitored file changed. */
  function ChangeRecord(path: string): Json {
    JObject([("severity", Str("info")), ("file", Str(Basename(path))), ("line", JInt(1)),
             ("message", Str("File changed: " + Basename(path)))])
  }

  predicate SeverityIs(r: Json, severity: string) {
    HasKey(r, "severity") && Lookup(r.members, "severity").value == Str(severity)
  }

  predicate SourceIs(r: Json, source: string) {
    HasKey(r, "source") && Lookup(r.members, "source").value == Str(source)
  }

  predicate ErrorOrWarning(r: Json) {
    SeverityIs(r, "error") || SeverityIs(r, "warning")
  }

  /** The level a SwiftPM log line reports. */
  datatype Level = LevelError | LevelWarning

  function LevelName(l: Level): string {
    match l
    case LevelError => "error"
    case LevelWarning => "warning"
  }

  /** One match of the SwiftPM log pattern: file, line, column, level and
      message. The line is the integer its digits denote. */
  datatype SwiftPmMatch = SwiftPmMatch(file: string, line: nat, column: nat, level: Level, message: string)

  /** The most SwiftPM matches turned into records. */
  const SwiftPmCap: nat := 10

  /** SwiftPM logs older than this, in seconds, are ignored. */
  const SwiftPmMaxAge: int := 3600

  function SwiftPmRecord(m: SwiftPmMatch): Json {
    JObject([("severity", Str(LevelName(m.level))), ("file", Str(Basename(m.file))),
             ("line", JInt(m.line)), ("message", Str(m.message)), ("source", Str("swiftpm"))])
  }

  function SwiftPmRecords(ms: seq<SwiftPmMatch>): (rs: seq<Json>)
    ensures |rs| == |ms|
    ensures forall i :: 0 <= i < |ms| ==> rs[i] == SwiftPmRecord(ms[i])
  {
    Map(ms, SwiftPmRecord)
  }

  /** A SwiftPM record reports the matched level as its severity, the
      basename of the matched file, the matched line and `swiftpm` as its
      source. */
  lemma SwiftPmRecordShape(m: SwiftPmMatch)
    ensures var r := SwiftPmRecord(m);
      && SeverityIs(r, LevelName(m.level)) && SourceIs(r, "swiftpm") && ErrorOrWarning(r)
      && Lookup(r.members, "file") == Some(Str(Basename(m.file)))
      && Lookup(r.members, "line") == Some(JInt(m.line))
  {
    var ms := SwiftPmRecord(m).members;
    LookupAt(ms, 0);
    LookupAt(ms, 1);
    LookupAt(ms, 2);
    LookupAt(ms, 4);
  }

  // Queue updates

  /** A tuple put on the update queue: its tag and the elements after it. */
  datatype Update = Update(tag: string, data: seq<Json>)

  function StatusUpdate(key: string, value: string): Update {
    Update("status", [Str(key), Str(value)])
  }

  function DiagnosticsUpdate(records: seq<Json>): Update {
    Update("diagnostics", [JArray(records)])
  }

  function BuildInfoUpdate(details: string): Update {
    Update("build_info", [Str(details)])
  }

  function ErrorUpdate(message: string): Update {
    Update("error", [Str(message)])
  }
}
