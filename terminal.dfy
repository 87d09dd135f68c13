/** `terminal_mcp_server`: a terminal session (working directory and
    command history) behind a command gate, and the file tools that read
    and write relative to the session's directory. */
module Terminal {
  import opened Common
  import opened Strings
  import opened Paths
  import opened Sequences
  import Utf8

  // The command gate

  const Allowed: set<string> := {
    "ls", "cat", "head", "tail", "find", "grep", "wc", "file",
    "pwd", "cd", "mkdir", "rmdir",
    "git",
    "python", "python3", "pip", "pip3", "brew", "npm", "node",
    "xcodebuild", "xcrun", "xcode-select", "simctl",
    "ps", "top", "df", "du", "free", "uname", "which", "whereis",
    "curl", "wget", "ping", "nc",
    "docker", "kubectl", "gcloud",
    "nano", "vim", "emacs"
  }

  const Blocked: set<string> := {
    "rm", "sudo", "su", "chmod", "chown", "kill", "killall",
    "format", "fdisk", "dd", "mount", "umount",
    "ssh", "scp", "rsync", "ftp", "telnet",
    "systemctl", "service", "launchctl",
    "apt", "yum", "pacman"
  }

  // CommandSetsDisjoint is proved over four groups of blocked commands:
  // one lemma over the whole of `Blocked` is too costly for the solver.

  /** Blocked file-system and privilege commands are not in `Allowed`. */
  lemma SystemCommandsNotAllowed()
    ensures forall c :: c in {"rm", "sudo", "su", "chmod", "chown", "kill"} ==> c !in Allowed
  {
  }

  /** Blocked process and disk commands are not in `Allowed`. */
  lemma DeviceCommandsNotAllowed()
    ensures forall c :: c in {"killall", "format", "fdisk", "dd", "mount", "umount"} ==> c !in Allowed
  {
  }

  /** Blocked remote-access commands are not in `Allowed`. */
  lemma RemoteCommandsNotAllowed()
    ensures forall c :: c in {"ssh", "scp", "rsync", "ftp", "telnet"} ==> c !in Allowed
  {
  }

  /** Blocked service and package-manager commands are not in `Allowed`. */
  lemma ServiceCommandsNotAllowed()
    ensures forall c :: c in {"systemctl", "service", "launchctl", "apt", "yum", "pacman"} ==> c !in Allowed
  {
  }

  /** No command is both allowed and blocked. */
  lemma CommandSetsDisjoint()
    ensures forall c :: c in Blocked ==> c !in Allowed
  {
    SystemCommandsNotAllowed();
    DeviceCommandsNotAllowed();
    RemoteCommandsNotAllowed();
    ServiceCommandsNotAllowed();
  }

  /** `Path(c).is_absolute()` for a POSIX path. */
  predicate IsAbsolute(c: string) {
    StartsWith(c, "/")
  }

  /** The check `execute_command` makes on the tokens `shlex.split` gives
      (`Err` when it raises `ValueError`): the tokens when the command may
      run, else the message returned. */
  function Gate(tokens: Result<seq<string>>): Result<seq<string>> {
    match tokens
    case Err(e) => Err("Invalid command syntax: " + e)
    case Ok(parts) =>
      if parts == [] then Err("Empty command")
      else if parts[0] in Blocked then Err("Command '" + parts[0] + "' is blocked for security reasons")
      else if parts[0] !in Allowed && !IsAbsolute(parts[0]) then Err("Command '" + parts[0] + "' is not in allowed list")
      else Ok(parts)
  }

  /** A command passes exactly when it has tokens, its first is not blocked,
      and the first is allowed or an absolute path; a blocked command is
      refused as blocked whatever else holds, and an empty one as empty. */
  lemma GateMeaning(tokens: Result<seq<string>>)
    ensures Gate(tokens).Ok? <==>
      tokens.Ok? && tokens.value != [] && tokens.value[0] !in Blocked &&
      (tokens.value[0] in Allowed || IsAbsolute(tokens.value[0]))
    ensures Gate(tokens).Ok? ==> Gate(tokens).value == tokens.value
    ensures tokens == Ok([]) ==> Gate(tokens) == Err("Empty command")
    ensures tokens.Ok? && tokens.value != [] && tokens.value[0] in Blocked ==>
      Gate(tokens) == Err("Command '" + tokens.value[0] + "' is blocked for security reasons")
  {
  }

  /** Only the first token is checked: the arguments never decide. */
  lemma GateSeesOnlyBase(base: string, rest: seq<string>)
    ensures Gate(Ok([base] + rest)).Ok? == Gate(Ok([base])).Ok?
  {
  }

  /** The block list names commands, not programs: a blocked program named
      by its absolute path passes. */
  lemma BlockedProgramByPath()
    ensures Gate(Ok(["/bin/rm", "-rf", "x"])).Ok?
  {
    assert "/bin/rm" !in Blocked;
  }

  // The session

  /** One entry of `command_history`. */
  datatype HistoryEntry = HistoryEntry(command: string, workingDirectory: string, returnCode: int)

  const HistoryCap: nat := 50
  const HistoryShown: nat := 10

  /** The history after appending `entry`, cut to the last 50. */
  function Remember(history: seq<HistoryEntry>, entry: HistoryEntry): seq<HistoryEntry> {
    var h := history + [entry];
    if |h| > HistoryCap then h[|h| - HistoryCap..] else h
  }

  /** The history keeps the most recent 50 entries, in order, ending with
      the new one. */
  lemma RememberMeaning(history: seq<HistoryEntry>, entry: HistoryEntry)
    ensures var r := Remember(history, entry);
      && |r| == Min(HistoryCap, |history| + 1)
      && r[|r| - 1] == entry
      && r == (history + [entry])[|history| + 1 - |r|..]
  {
  }

  /** What the session's surroundings answer: the home directory, the
      process working directory, which resolved paths are existing
      directories, and the outcome of running a command line in a
      directory. */
  datatype Host = Host(home: Path, processCwd: Path, isDir: Path -> bool,
                       run: (string, string) -> RunOutcome)

  predicate HostValid(host: Host) {
    Valid(host.home) && Valid(host.processCwd)
  }

  /** `subprocess.run` of a shell command: it exits, times out after 30
      seconds, or raises. */
  datatype RunOutcome = Exited(stdout: string, stderr: string, code: int) | TimedOut | Raised(error: string)

  /** The dict `execute_command` returns: an error, or the command's
      output. */
  datatype Response =
    | Failure(error: string)
    | Completed(stdout: string, stderr: string, returnCode: int, workingDirectory: string)

  datatype Session = Session(workingDirectory: Path, history: seq<HistoryEntry>)

  /** `Path(s).resolve()`: against the process working directory. */
  function Resolved(processCwd: Path, s: string): (r: Path)
    requires Valid(processCwd)
    ensures Valid(r)
  {
    Normalise(processCwd, Pure(s))
  }

  /** `update_working_directory`: whether it changed, and the directory
      afterwards. */
  function ChangeDir(wd: Path, host: Host, s: string): (bool, Path)
    requires Valid(host.processCwd)
  {
    var p := Resolved(host.processCwd, s);
    if host.isDir(p) then (true, p) else (false, wd)
  }

  /** The directory changes exactly when the target resolves, against the
      process working directory and never against the session's, to an
      existing directory; it then becomes that directory. */
  lemma ChangeDirMeaning(wd: Path, host: Host, s: string)
    requires Valid(host.processCwd)
    ensures ChangeDir(wd, host, s).0 <==> host.isDir(AbsPath(host.processCwd, s))
    ensures ChangeDir(wd, host, s).1 == if ChangeDir(wd, host, s).0 then AbsPath(host.processCwd, s) else wd
    ensures forall other: Path :: ChangeDir(other, host, s).0 == ChangeDir(wd, host, s).0
  {
    NormalisePure(host.processCwd, s);
  }

  /** Changing to the directory a change reported is a change to the same
      directory. */
  lemma ChangeToReported(wd: Path, host: Host, s: string)
    requires Valid(host.processCwd) && ChangeDir(wd, host, s).0
    ensures var d := ChangeDir(wd, host, s).1;
      ChangeDir(d, host, ToString(d)) == (true, d)
  {
    var d := ChangeDir(wd, host, s).1;
    NormalisePure(host.processCwd, ToString(d));
    AbsPathOfToString(host.processCwd, d);
  }

  /** `execute_command`: the response, and the session afterwards. A
      directory argument that is not empty is applied first, and stays
      applied whatever follows. */
  function Execute(s: Session, command: string, tokens: Result<seq<string>>, directory: Option<string>,
                   host: Host): (Response, Session)
    requires HostValid(host)
  {
    match Gate(tokens)
    case Err(e) => (Failure(e), s)
    case Ok(parts) =>
      var given := directory.Some? && directory.value != [];
      if given && !ChangeDir(s.workingDirectory, host, directory.value).0 then
        (Failure("Invalid working directory: " + directory.value), s)
      else
        var wd := if given then ChangeDir(s.workingDirectory, host, directory.value).1 else s.workingDirectory;
        Dispatch(Session(wd, s.history), command, parts, host)
  }

  /** A command past the gate: `cd` is handled in the session, anything
      else runs in a shell. */
  function Dispatch(s: Session, command: string, parts: seq<string>, host: Host): (Response, Session)
    requires HostValid(host) && parts != []
  {
    if parts[0] == "cd" then Cd(s, parts, host) else Run(s, command, host)
  }

  /** `cd`: to the home directory without an argument, else to the first
      argument when it is a directory. */
  function Cd(s: Session, parts: seq<string>, host: Host): (Response, Session)
    requires HostValid(host)
  {
    if |parts| > 1 then
      var (ok, target) := ChangeDir(s.workingDirectory, host, parts[1]);
      if ok then (Completed("", "", 0, ToString(target)), Session(target, s.history))
      else (Completed("", "cd: " + parts[1] + ": No such file or directory", 1, ToString(s.workingDirectory)), s)
    else (Completed("", "", 0, ToString(host.home)), Session(host.home, s.history))
  }

  /** Running the command line in the session's directory; only a command
      that exits is recorded. */
  function Run(s: Session, command: string, host: Host): (Response, Session) {
    var wd := ToString(s.workingDirectory);
    match host.run(command, wd)
    case TimedOut => (Failure("Command timed out after 30 seconds"), s)
    case Raised(e) => (Failure("Execution error: " + e), s)
    case Exited(out, err, code) =>
      (Completed(out, err, code, wd), Session(s.workingDirectory, Remember(s.history, HistoryEntry(command, wd, code))))
  }

  /** A command the gate refuses runs nothing and changes nothing. */
  lemma RefusedChangesNothing(s: Session, command: string, tokens: Result<seq<string>>, directory: Option<string>,
                              host: Host)
    requires HostValid(host) && Gate(tokens).Err?
    ensures Execute(s, command, tokens, directory, host) == (Failure(Gate(tokens).error), s)
  {
  }

  /** Running never moves the session, and records exactly the commands
      that exit, with their line, directory and code. */
  lemma RunHistory(s: Session, command: string, host: Host)
    ensures var (r, t) := Run(s, command, host);
      && t.workingDirectory == s.workingDirectory
      && (r.Completed? <==> host.run(command, ToString(s.workingDirectory)).Exited?)
      && (r.Completed? ==>
            (r.workingDirectory == ToString(s.workingDirectory) &&
             t.history == Remember(s.history, HistoryEntry(command, r.workingDirectory, r.returnCode))))
    ensures Run(s, command, host).0.Failure? ==> Run(s, command, host).1 == s
  {
  }

  /** Past the gate, the history grows only by a command that exited and
      stays within 50 entries; `cd` is never recorded. */
  lemma DispatchHistory(s: Session, command: string, parts: seq<string>, host: Host)
    requires HostValid(host) && parts != [] && |s.history| <= HistoryCap
    ensures var (r, t) := Dispatch(s, command, parts, host);
      && |t.history| <= HistoryCap
      && (t.history == s.history ||
          (r.Completed? && t.history == Remember(s.history, HistoryEntry(command, r.workingDirectory, r.returnCode))))
      && (parts[0] == "cd" ==> t.history == s.history)
  {
    if parts[0] != "cd" {
      RunHistory(s, command, host);
      var r := Run(s, command, host).0;
      if r.Completed? {
        RememberMeaning(s.history, HistoryEntry(command, r.workingDirectory, r.returnCode));
      }
    }
  }

  /** The history only grows by a command that ran and exited, recording
      its line, directory and code; it never exceeds 50 entries; `cd` is
      never recorded. */
  lemma ExecuteHistory(s: Session, command: string, tokens: Result<seq<string>>, directory: Option<string>,
                       host: Host)
    requires HostValid(host) && |s.history| <= HistoryCap
    ensures var (r, t) := Execute(s, command, tokens, directory, host);
      && |t.history| <= HistoryCap
      && (t.history == s.history ||
          (r.Completed? && t.history == Remember(s.history, HistoryEntry(command, r.workingDirectory, r.returnCode))))
      && (tokens.Ok? && tokens.value != [] && tokens.value[0] == "cd" ==> t.history == s.history)
  {
    if Gate(tokens).Ok? {
      var given := directory.Some? && directory.value != [];
      var wd := if given then ChangeDir(s.workingDirectory, host, directory.value).1 else s.workingDirectory;
      DispatchHistory(Session(wd, s.history), command, Gate(tokens).value, host);
    }
  }

  /** `cd` alone goes home with code 0; `cd` to something that is not a
      directory answers code 1 and stays where it was. */
  lemma CdRules(s: Session, command: string, parts: seq<string>, host: Host)
    requires HostValid(host) && |parts| > 0 && parts[0] == "cd"
    ensures Execute(s, command, Ok(["cd"]), None, host) ==
      (Completed("", "", 0, ToString(host.home)), Session(host.home, s.history))
    ensures |parts| > 1 && !host.isDir(AbsPath(host.processCwd, parts[1])) ==>
      var (r, t) := Execute(s, command, Ok(parts), None, host);
      r.Completed? && r.returnCode == 1 && t == s
  {
    assert "cd" in Allowed;
    if |parts| > 1 {
      ChangeDirMeaning(s.workingDirectory, host, parts[1]);
    }
  }

  /** The dict `read_file` returns on success. */
  datatype FileRead = FileRead(filePath: string, content: string, size: nat)

  /** What opening a file gives: its lines, each with its terminator, as
      iterating the file yields them; or the exception. */
  datatype OpenOutcome = Opened(lines: seq<string>) | Denied | OpenFailed(error: string)

  /** The file system's answers about the path `read_file` reads. */
  datatype FileView = FileView(present: bool, isFile: bool, size: nat, contents: OpenOutcome)

  const MaxReadSize: nat := 1024 * 1024

  function TruncationMarker(maxLines: int): string {
    "... (truncated after " + IntToString(maxLines) + " lines)"
  }

  /** The lines, right-stripped. */
  function RStripAll(lines: seq<string>): (r: seq<string>)
    ensures |r| == |lines| && forall i :: 0 <= i < |lines| ==> r[i] == RStrip(lines[i])
  {
    seq(|lines|, i requires 0 <= i < |lines| => RStrip(lines[i]))
  }

  /** At most `maxLines` right-stripped lines (none when it is negative),
      then a marker when the file has more. */
  function Truncated(lines: seq<string>, maxLines: int): seq<string> {
    var k := if maxLines < 0 then 0 else maxLines;
    if |lines| > k then RStripAll(lines[..k]) + [TruncationMarker(maxLines)] else RStripAll(lines)
  }

  /** With more lines than the limit there are exactly that many lines
      shown, stripped, and then one marker; otherwise every line is shown,
      stripped. */
  lemma TruncatedShape(lines: seq<string>, maxLines: int)
    requires maxLines >= 0
    ensures var r := Truncated(lines, maxLines);
      && (|lines| > maxLines ==> |r| == maxLines + 1 && r[maxLines] == TruncationMarker(maxLines))
      && (|lines| <= maxLines ==> |r| == |lines|)
      && forall i :: 0 <= i < |r| && i < |lines| && i < maxLines ==> r[i] == RStrip(lines[i])
  {
  }

  /** The loop of `read_file` over the lines of the file, stopping at the
      limit. */
  method TruncateLines(lines: seq<string>, maxLines: int) returns (out: seq<string>)
    ensures out == Truncated(lines, maxLines)
  {
    ghost var k := if maxLines < 0 then 0 else maxLines;
    out := [];
    var i := 0;
    while i < |lines|
      invariant 0 <= i <= |lines| && i <= k
      invariant out == RStripAll(lines[..i])
    {
      if i >= maxLines {
        out := out + [TruncationMarker(maxLines)];
        return;
      }
      assert lines[..i + 1] == lines[..i] + [lines[i]];
      out := out + [RStrip(lines[i])];
      i := i + 1;
    }
    assert lines[..i] == lines;
  }

  /** The whole text of the file from its lines. */
  function Text(lines: seq<string>): string {
    ConcatMap(lines, (l: string) => l)
  }

  /** `read_file` relative to the session directory `wd`; `maxLines` is
      `None` or 0 to read the whole file. */
  function ReadOutcome(wd: Path, filePath: string, maxLines: Option<int>, file: FileView): Result<FileRead> {
    var path := PureString(PureJoin(AsPure(wd), filePath));
    if !file.present then Err("File does not exist: " + path)
    else if !file.isFile then Err("Path is not a file: " + path)
    else if file.size > MaxReadSize then Err("File too large (>1MB)")
    else
      match file.contents
      case Denied => Err("Permission denied: " + path)
      case OpenFailed(e) => Err("Error reading file: " + e)
      case Opened(lines) =>
        var content := if maxLines.Some? && maxLines.value != 0 then Join(Truncated(lines, maxLines.value), "\n")
                       else Text(lines);
        Ok(FileRead(path, content, file.size))
  }

  /** A file larger than 1 MiB is never read; one that is read reports its
      size and, with a positive limit and more lines than it, ends with the
      marker. */
  lemma ReadLimits(wd: Path, filePath: string, maxLines: Option<int>, file: FileView)
    ensures file.present && file.isFile && file.size > MaxReadSize ==>
      ReadOutcome(wd, filePath, maxLines, file) == Err("File too large (>1MB)")
    ensures ReadOutcome(wd, filePath, maxLines, file).Ok? ==>
      file.size <= MaxReadSize && file.contents.Opened? && ReadOutcome(wd, filePath, maxLines, file).value.size == file.size
    ensures ReadOutcome(wd, filePath, maxLines, file).Ok? && maxLines.Some? && maxLines.value > 0 &&
            |file.contents.lines| > maxLines.value ==>
      var t := Truncated(file.contents.lines, maxLines.value);
      t[|t| - 1] == TruncationMarker(maxLines.value)
  {
  }

  // Writing files

  /** What a file-system step does: succeed, raise `PermissionError`, or
      raise another exception. */
  datatype IoOutcome = Done | Refused | IoFailed(error: string)

  /** The answers to `mkdir(parents=True)` of the parent and to opening
      and writing the file. */
  datatype WriteView = WriteView(mkdir: IoOutcome, write: IoOutcome)

  /** The dict `write_file` returns, and what it did to the file system. */
  datatype WriteEffect = WriteEffect(result: Result<(string, nat)>, madeDirs: bool, wrote: bool)

  const SystemPrefixes: seq<string> := ["/bin", "/sbin", "/usr/bin", "/usr/sbin", "/System", "/Library/System"]

  /** The system directories as paths. */
  const SystemDirs: seq<Path> := [["bin"], ["sbin"], ["usr", "bin"], ["usr", "sbin"], ["System"], ["Library", "System"]]

  /** The guard as written: the un-normalised path string starts with one
      of the prefixes. */
  predicate GuardAsWritten(path: string) {
    exists i :: 0 <= i < |SystemPrefixes| && StartsWith(path, SystemPrefixes[i])
  }

  /** The guard as intended: the path, normalised, lies in one of the
      system directories. */
  predicate InSystemDirectory(wd: Path, path: PurePath)
    requires Valid(wd) && NoSlash(path.parts)
  {
    exists i :: 0 <= i < |SystemDirs| && SystemDirs[i] <= Normalise(wd, path)
  }

  /** `write_file` as written: the parent directories are made before the
      guard, and the guard compares strings. */
  function WriteAsWritten(wd: Path, filePath: string, content: string, createDirs: bool, view: WriteView): WriteEffect {
    var path := PureString(PureJoin(AsPure(wd), filePath));
    var mkdir := if createDirs then view.mkdir else Done;
    match mkdir
    case Refused => WriteEffect(Err("Permission denied: " + path), true, false)
    case IoFailed(e) => WriteEffect(Err("Error writing file: " + e), true, false)
    case Done =>
      if GuardAsWritten(path) then WriteEffect(Err("Cannot write to system directories"), createDirs, false)
      else
        match view.write
        case Refused => WriteEffect(Err("Permission denied: " + path), createDirs, false)
        case IoFailed(e) => WriteEffect(Err("Error writing file: " + e), createDirs, false)
        case Done => WriteEffect(Ok((path, |Utf8.Encode(content)|)), createDirs, true)
  }

  /** For every write as written: the directories are made whenever asked
      for, before anything is checked; once that step has not raised, the
      refusal is given exactly when the string guard matches; and the file
      is written exactly when directories, guard and write all let it
      through, answering the path and the length of its UTF-8 encoding. */
  lemma WriteAsWrittenMeaning(wd: Path, filePath: string, content: string, createDirs: bool, view: WriteView)
    ensures var path := PureString(PureJoin(AsPure(wd), filePath));
      var e := WriteAsWritten(wd, filePath, content, createDirs, view);
      && e.madeDirs == createDirs
      && ((!createDirs || view.mkdir == Done) ==>
            (e.result == Err("Cannot write to system directories") <==> GuardAsWritten(path)))
      && (e.wrote <==> (!createDirs || view.mkdir == Done) && !GuardAsWritten(path) && view.write == Done)
      && (e.wrote ==> e.result == Ok((path, |Utf8.Encode(content)|)))
  {
    var path := PureString(PureJoin(AsPure(wd), filePath));
    var e := WriteAsWritten(wd, filePath, content, createDirs, view);
    if (!createDirs || view.mkdir == Done) && !GuardAsWritten(path) && e.result.Err? {
      assert e.result.error[0] != 'C';
    }
  }

  /** `Path(s)` of an absolute literal, through `str` of its parts. */
  lemma LiteralPath(s: string, parts: seq<string>)
    requires parts != [] && forall i :: 0 <= i < |parts| ==> KeptPart(parts[i])
    requires s == PureString(PurePath("/", parts))
    ensures forall wd: Path :: PureJoin(AsPure(wd), s) == PurePath("/", parts)
  {
    PureOfPureString(PurePath("/", parts));
  }

  /** The string `"/usr/../bin/x"` starts with none of the prefixes. */
  lemma BypassString()
    ensures !GuardAsWritten("/usr/../bin/x")
  {
    var s := "/usr/../bin/x";
    assert s[1] == 'u' && s[5] == '.';
    assert !StartsWith(s, "/bin") by { assert s[..4][1] == s[1]; }
    assert !StartsWith(s, "/sbin") by { assert s[..5][1] == s[1]; }
    assert !StartsWith(s, "/usr/bin") by { assert s[..8][5] == s[5]; }
    assert !StartsWith(s, "/usr/sbin") by { assert s[..9][5] == s[5]; }
    assert !StartsWith(s, "/System") by { assert s[..7][1] == s[1]; }
    assert !StartsWith(s, "/Library/System");
  }

  /** A path through `..` reaches `/bin` past the guard as written. */
  lemma GuardBypass(wd: Path, content: string)
    requires Valid(wd)
    ensures WriteAsWritten(wd, "/usr/../bin/x", content, false, WriteView(Done, Done)).wrote
    ensures InSystemDirectory(wd, PureJoin(AsPure(wd), "/usr/../bin/x"))
  {
    var p := PurePath("/", ["usr", "..", "bin", "x"]);
    LiteralPath("/usr/../bin/x", p.parts);
    assert Normalise(wd, p) == ["bin", "x"];
    assert SystemDirs[0] <= Normalise(wd, p);
    BypassString();
  }

  /** The string `"//bin/x"` starts with none of the prefixes: each has a
      letter where it has its second slash. */
  lemma DoubleSlashString()
    ensures !GuardAsWritten("//bin/x")
  {
    var s := "//bin/x";
    forall i | 0 <= i < |SystemPrefixes| ensures !StartsWith(s, SystemPrefixes[i]) {
      assert SystemPrefixes[i][1] != '/';
    }
  }

  /** A path under the two-slash root keeps both slashes in `str(path)`,
      passes the guard as written, and is written: the system opens it as
      `/bin/x`. */
  lemma GuardBypassDoubleSlash(wd: Path, content: string)
    requires Valid(wd)
    ensures WriteAsWritten(wd, "//bin/x", content, false, WriteView(Done, Done)).result ==
      Ok(("//bin/x", |Utf8.Encode(content)|))
    ensures InSystemDirectory(wd, PureJoin(AsPure(wd), "//bin/x"))
  {
    var p := PurePath("//", ["bin", "x"]);
    assert PureString(p) == "//bin/x";
    PureOfDoubleRootString(p);
    assert PureJoin(AsPure(wd), "//bin/x") == p;
    assert Normalise(wd, p) == ["bin", "x"];
    assert SystemDirs[0] <= Normalise(wd, p);
    DoubleSlashString();
  }

  /** The guard as written also refuses directories that only share a
      string prefix with a system directory. */
  lemma GuardOverreach(wd: Path, content: string)
    requires Valid(wd)
    ensures WriteAsWritten(wd, "/binaries/x", content, false, WriteView(Done, Done)).result ==
      Err("Cannot write to system directories")
    ensures !InSystemDirectory(wd, PureJoin(AsPure(wd), "/binaries/x"))
  {
    var p := PurePath("/", ["binaries", "x"]);
    LiteralPath("/binaries/x", p.parts);
    assert StartsWith("/binaries/x", SystemPrefixes[0]);
    assert Normalise(wd, p) == ["binaries", "x"];
    BinariesOutside();
  }

  /** `/binaries/x` lies in none of the system directories. */
  lemma BinariesOutside()
    ensures forall i :: 0 <= i < |SystemDirs| ==> !(SystemDirs[i] <= ["binaries", "x"])
  {
    var t := ["binaries", "x"];
    forall i | 0 <= i < |SystemDirs| ensures !(SystemDirs[i] <= t) {
      assert |SystemDirs[i][0]| != |t[0]|;
    }
  }

  /** With `create_dirs`, the directories on the way to a refused path are
      made before the refusal. */
  lemma DirsMadeBeforeGuard(wd: Path, content: string)
    requires Valid(wd)
    ensures var e := WriteAsWritten(wd, "/bin/new/x", content, true, WriteView(Done, Done));
      e.madeDirs && e.result == Err("Cannot write to system directories")
  {
    var p := PurePath("/", ["bin", "new", "x"]);
    LiteralPath("/bin/new/x", p.parts);
    assert StartsWith("/bin/new/x", SystemPrefixes[0]);
  }

  /** `write_file` with the guard it intends: before anything is made, the
      normalised target is checked against the system directories. */
  function WriteOutcome(wd: Path, filePath: string, content: string, createDirs: bool, view: WriteView): WriteEffect
    requires Valid(wd)
  {
    var target := PureJoin(AsPure(wd), filePath);
    var path := PureString(target);
    if InSystemDirectory(wd, target) then WriteEffect(Err("Cannot write to system directories"), false, false)
    else
      var mkdir := if createDirs then view.mkdir else Done;
      match mkdir
      case Refused => WriteEffect(Err("Permission denied: " + path), true, false)
      case IoFailed(e) => WriteEffect(Err("Error writing file: " + e), true, false)
      case Done =>
        match view.write
        case Refused => WriteEffect(Err("Permission denied: " + path), createDirs, false)
        case IoFailed(e) => WriteEffect(Err("Error writing file: " + e), createDirs, false)
        case Done => WriteEffect(Ok((path, |Utf8.Encode(content)|)), createDirs, true)
  }

  /** Nothing is written or made for a target that resolves into a system
      directory; any other target is written exactly when making its
      directories and writing it succeed, and the size reported is that of
      its UTF-8 encoding. */
  lemma WriteGuarded(wd: Path, filePath: string, content: string, createDirs: bool, view: WriteView)
    requires Valid(wd)
    ensures var target := PureJoin(AsPure(wd), filePath);
      var e := WriteOutcome(wd, filePath, content, createDirs, view);
      && (InSystemDirectory(wd, target) ==> !e.wrote && !e.madeDirs && e.result == Err("Cannot write to system directories"))
      && (!InSystemDirectory(wd, target) ==>
            (e.wrote <==> (!createDirs || view.mkdir == Done) && view.write == Done) &&
            (e.madeDirs <==> createDirs))
      && (e.wrote ==> e.result == Ok((PureString(target), |Utf8.Encode(content)|)))
  {
  }

  /** The intended guard refuses the `..` path and the two-slash path the
      string guard lets through, and lets through what only shares a string
      prefix. */
  lemma GuardCorrected(wd: Path, content: string)
    requires Valid(wd)
    ensures !WriteOutcome(wd, "/usr/../bin/x", content, false, WriteView(Done, Done)).wrote
    ensures WriteOutcome(wd, "//bin/x", content, false, WriteView(Done, Done)).result ==
      Err("Cannot write to system directories")
    ensures WriteOutcome(wd, "/binaries/x", content, false, WriteView(Done, Done)).wrote
  {
    GuardBypass(wd, content);
    GuardBypassDoubleSlash(wd, content);
    GuardOverreach(wd, content);
  }

  /** The session: its working directory and its last commands. */
  class TerminalSession {
    var workingDirectory: Path
    var commandHistory: seq<HistoryEntry>

    ghost predicate Invariant()
      reads this
    {
      Valid(workingDirectory) && |commandHistory| <= HistoryCap
    }

    function State(): Session
      reads this
    {
      Session(workingDirectory, commandHistory)
    }

    /** A session starts at home with no history. */
    constructor(home: Path)
      requires Valid(home)
      ensures workingDirectory == home && commandHistory == []
      ensures Invariant()
    {
      workingDirectory := home;
      commandHistory := [];
    }

    /** `update_working_directory`. */
    method UpdateWorkingDirectory(newPath: string, host: Host) returns (ok: bool)
      requires Invariant() && HostValid(host)
      modifies this`workingDirectory
      ensures (ok, workingDirectory) == ChangeDir(old(workingDirectory), host, newPath)
      ensures Invariant()
    {
      var resolved := Resolved(host.processCwd, newPath);
      if host.isDir(resolved) {
        workingDirectory := resolved;
        return true;
      }
      return false;
    }

    /** `execute_command`. */
    method ExecuteCommand(command: string, tokens: Result<seq<string>>, directory: Option<string>, host: Host)
      returns (r: Response)
      requires Invariant() && HostValid(host)
      modifies this
      ensures (r, State()) == Execute(old(State()), command, tokens, directory, host)
      ensures Invariant()
    {
      var gate := Gate(tokens);
      if gate.Err? {
        return Failure(gate.error);
      }
      if directory.Some? && directory.value != [] {
        var ok := UpdateWorkingDirectory(directory.value, host);
        if !ok {
          return Failure("Invalid working directory: " + directory.value);
        }
      }
      r := DispatchCommand(command, gate.value, host);
    }

    /** The part of `execute_command` after the gate and the directory
        argument. */
    method DispatchCommand(command: string, parts: seq<string>, host: Host) returns (r: Response)
      requires Invariant() && HostValid(host) && parts != []
      modifies this
      ensures (r, State()) == Dispatch(old(State()), command, parts, host)
      ensures Invariant()
    {
      if parts[0] == "cd" {
        if |parts| > 1 {
          var ok := UpdateWorkingDirectory(parts[1], host);
          if ok {
            return Completed("", "", 0, ToString(workingDirectory));
          }
          return Completed("", "cd: " + parts[1] + ": No such file or directory", 1, ToString(workingDirectory));
        }
        workingDirectory := host.home;
        return Completed("", "", 0, ToString(workingDirectory));
      }
      var wd := ToString(workingDirectory);
      var run := host.run(command, wd);
      match run {
        case TimedOut =>
          return Failure("Command timed out after 30 seconds");
        case Raised(e) =>
          return Failure("Execution error: " + e);
        case Exited(out, err, code) =>
          commandHistory := commandHistory + [HistoryEntry(command, wd, code)];
          if |commandHistory| > HistoryCap {
            commandHistory := commandHistory[|commandHistory| - HistoryCap..];
          }
          return Completed(out, err, code, wd);
      }
    }

    /** `get_working_directory`: the path string, which names the directory
        again. */
    function GetWorkingDirectory(): (r: string)
      reads this
      requires Invariant()
      ensures forall cwd: Path :: Valid(cwd) ==> AbsPath(cwd, r) == workingDirectory
    {
      var r := ToString(workingDirectory);
      assert forall cwd: Path :: Valid(cwd) ==> AbsPath(cwd, r) == workingDirectory by {
        forall cwd: Path | Valid(cwd) ensures AbsPath(cwd, r) == workingDirectory {
          AbsPathOfToString(cwd, workingDirectory);
        }
      }
      r
    }

    /** `change_directory`: the new directory's string, or the error. */
    method ChangeDirectory(path: string, host: Host) returns (r: Result<string>)
      requires Invariant() && HostValid(host)
      modifies this`workingDirectory
      ensures (r.Ok?, workingDirectory) == ChangeDir(old(workingDirectory), host, path)
      ensures r.Ok? ==> r.value == ToString(workingDirectory)
      ensures r.Err? ==> r.error == "Cannot change to directory: " + path
      ensures Invariant()
    {
      var ok := UpdateWorkingDirectory(path, host);
      if ok {
        return Ok(ToString(workingDirectory));
      }
      return Err("Cannot change to directory: " + path);
    }

    /** `get_command_history`: the last 10 entries, oldest first. */
    function GetCommandHistory(): (r: seq<HistoryEntry>)
      reads this
      ensures |r| == Min(HistoryShown, |commandHistory|)
      ensures r == commandHistory[|commandHistory| - |r|..]
    {
      if |commandHistory| > HistoryShown then commandHistory[|commandHistory| - HistoryShown..] else commandHistory
    }

    /** `read_file`, relative to the session's directory. */
    method ReadFile(filePath: string, maxLines: Option<int>, file: FileView) returns (r: Result<FileRead>)
      ensures r == ReadOutcome(workingDirectory, filePath, maxLines, file)
    {
      var path := PureString(PureJoin(AsPure(workingDirectory), filePath));
      if !file.present {
        return Err("File does not exist: " + path);
      }
      if !file.isFile {
        return Err("Path is not a file: " + path);
      }
      if file.size > MaxReadSize {
        return Err("File too large (>1MB)");
      }
      match file.contents {
        case Denied =>
          return Err("Permission denied: " + path);
        case OpenFailed(e) =>
          return Err("Error reading file: " + e);
        case Opened(lines) =>
          var content;
          if maxLines.Some? && maxLines.value != 0 {
            var kept := TruncateLines(lines, maxLines.value);
            content := Join(kept, "\n");
          } else {
            content := Text(lines);
          }
          return Ok(FileRead(path, content, file.size));
      }
    }

    /** `write_file`, relative to the session's directory, with the guard
        on the normalised target checked before anything is made. */
    method WriteFile(filePath: string, content: string, createDirs: bool, view: WriteView) returns (e: WriteEffect)
      requires Invariant()
      ensures e == WriteOutcome(workingDirectory, filePath, content, createDirs, view)
    {
      var target := PureJoin(AsPure(workingDirectory), filePath);
      var path := PureString(target);
      if InSystemDirectory(workingDirectory, target) {
        return WriteEffect(Err("Cannot write to system directories"), false, false);
      }
      if createDirs && view.mkdir != Done {
        var error := if view.mkdir.Refused? then "Permission denied: " + path else "Error writing file: " + view.mkdir.error;
        return WriteEffect(Err(error), true, false);
      }
      match view.write {
        case Refused =>
          return WriteEffect(Err("Permission denied: " + path), createDirs, false);
        case IoFailed(error) =>
          return WriteEffect(Err("Error writing file: " + error), createDirs, false);
        case Done =>
          return WriteEffect(Ok((path, |Utf8.Encode(content)|)), createDirs, true);
      }
    }
  }
}
