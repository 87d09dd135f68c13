/** `SwiftMCPMonitorCore`: the monitored root, the update queue, the file
    fingerprints of the change detector, and one pass of each of its two
    background loops. */
module MonitorCore {
  import opened Common
  import opened Strings
  import opened Paths
  import opened JsonValues
  import opened Records
  import opened Channel
  import opened MonitorDiagnostics

  // The change detector

  /** The source extensions the detector watches, in the order it globs. */
  const MonitoredExtensions: seq<string> := [".swift", ".m", ".h", ".mm", ".c", ".cpp"]

  /** At most this many changed files are reported per cycle. */
  const ChangeReportCap: nat := 5

  /** Everything one detector cycle reads from outside. */
  datatype ScanSources = ScanSources(
    buildServerExists: bool,                 // buildServer.json in the working directory
    buildServer: Option<Json>,               // its parsed content; None when reading it raises
    cwd: Path,                               // os.getcwd()
    projects: seq<string>,                   // ./*.xcodeproj
    listing: (string, string) -> seq<string>,  // glob of directory/**/*ext
    fingerprint: string -> Option<string>)   // the MD5 digest of a file; None when reading raises

  /** Build products are never fingerprinted. */
  predicate Excluded(path: string) {
    Contains(path, "DerivedData") || Contains(path, "/build/")
  }

  /** The directory of the build server's `workspace`, when it names one. */
  function ConfiguredDirs(fs: ScanSources): Result<seq<string>> {
    if !fs.buildServerExists then Ok([])
    else
      match fs.buildServer
      case None => Err("JSONDecodeError")
      case Some(config) =>
        var named :- In("workspace", config);
        if !named then Ok([])
        else
          var workspace :- Index(config, "workspace");
          if !workspace.JString? then Err("TypeError: " + PathTypeError(workspace))
          else Ok([Dirname(workspace.s)])
  }

  /** The directories to scan: the configured workspace directory, or else
      the working directory followed by its `.xcodeproj` bundles. */
  function ProjectDirs(fs: ScanSources): (r: Result<seq<string>>)
    ensures r.Ok? ==> r.value != []
  {
    var configured :- ConfiguredDirs(fs);
    if configured != [] then Ok(configured) else Ok([ToString(fs.cwd)] + fs.projects)
  }

  /** The files globbed for `dir`, extension by extension. */
  function ForExtensions(dir: string, exts: seq<string>, listing: (string, string) -> seq<string>): seq<string>
    decreases |exts|
  {
    if exts == [] then []
    else ForExtensions(dir, exts[..|exts| - 1], listing) + listing(dir, exts[|exts| - 1])
  }

  /** The files globbed for each directory in turn. */
  function Candidates(dirs: seq<string>, listing: (string, string) -> seq<string>): seq<string>
    decreases |dirs|
  {
    if dirs == [] then []
    else Candidates(dirs[..|dirs| - 1], listing) + ForExtensions(dirs[|dirs| - 1], MonitoredExtensions, listing)
  }

  /** The fingerprint map and the files found changed so far. */
  datatype Scan = Scan(hashes: map<string, string>, changed: seq<string>)

  /** One file: skipped when excluded or unreadable; otherwise reported
      when it had a different fingerprint before, and fingerprinted. */
  function Observe(s: Scan, path: string, fingerprint: string -> Option<string>): Scan {
    if Excluded(path) then s
    else
      match fingerprint(path)
      case None => s
      case Some(h) =>
        Scan(s.hashes[path := h],
             if path in s.hashes && s.hashes[path] != h then s.changed + [path] else s.changed)
  }

  function ScanAll(s: Scan, paths: seq<string>, fingerprint: string -> Option<string>): Scan
    decreases |paths|
  {
    if paths == [] then s
    else Observe(ScanAll(s, paths[..|paths| - 1], fingerprint), paths[|paths| - 1], fingerprint)
  }

  /** A file the scan fingerprints: one it reaches, not a build product,
      and readable. */
  predicate Fingerprinted(path: string, paths: seq<string>, fingerprint: string -> Option<string>) {
    path in paths && !Excluded(path) && fingerprint(path).Some?
  }

  /** After a scan the map holds exactly the files it held before and the
      files fingerprinted, each of those with its current fingerprint; a
      file is reported changed exactly when it had been fingerprinted
      before with a different digest, so a file seen for the first time is
      never reported and a build product never enters the map. */
  lemma {:induction false} ScanMeaning(s: Scan, paths: seq<string>, fingerprint: string -> Option<string>)
    ensures var r := ScanAll(s, paths, fingerprint);
      && (forall q :: q in r.hashes <==> q in s.hashes || Fingerprinted(q, paths, fingerprint))
      && (forall q :: q in r.hashes ==>
            r.hashes[q] == if Fingerprinted(q, paths, fingerprint) then fingerprint(q).value else s.hashes[q])
      && (forall q :: q in r.changed <==>
            q in s.changed
            || (Fingerprinted(q, paths, fingerprint) && q in s.hashes && s.hashes[q] != fingerprint(q).value))
    decreases |paths|
  {
    if paths != [] {
      var init := paths[..|paths| - 1];
      var p := paths[|paths| - 1];
      ScanMeaning(s, init, fingerprint);
      assert forall q :: q in paths <==> q in init || q == p;
    }
  }

  /** Within one scan a file is reported at most once, even when the walk
      reaches it twice: every reported file already holds its current
      fingerprint, so a second visit finds no difference. */
  lemma {:induction false} ScanReportsOnce(s: Scan, paths: seq<string>, fingerprint: string -> Option<string>)
    requires s.changed == []
    ensures var r := ScanAll(s, paths, fingerprint);
      && (forall i, j :: 0 <= i < j < |r.changed| ==> r.changed[i] != r.changed[j])
      && (forall q :: q in r.changed ==> q in r.hashes && fingerprint(q) == Some(r.hashes[q]))
    decreases |paths|
  {
    if paths != [] {
      var init := paths[..|paths| - 1];
      var p := paths[|paths| - 1];
      ScanReportsOnce(s, init, fingerprint);
      var r0 := ScanAll(s, init, fingerprint);
      if !Excluded(p) && fingerprint(p).Some? {
        var h := fingerprint(p).value;
        if p in r0.hashes && r0.hashes[p] != h {
          assert p !in r0.changed;
        }
      }
    }
  }

  /** Scanning two lists of files in turn is scanning their concatenation. */
  lemma {:induction false} ScanConcat(s: Scan, a: seq<string>, b: seq<string>, fingerprint: string -> Option<string>)
    ensures ScanAll(s, a + b, fingerprint) == ScanAll(ScanAll(s, a, fingerprint), b, fingerprint)
    decreases |b|
  {
    if b != [] {
      var init := b[..|b| - 1];
      var last := b[|b| - 1];
      assert (a + b)[..|a + b| - 1] == a + init;
      assert (a + b)[|a + b| - 1] == last;
      ScanConcat(s, a, init, fingerprint);
      calc {
        ScanAll(s, a + b, fingerprint);
        Observe(ScanAll(s, a + init, fingerprint), last, fingerprint);
        Observe(ScanAll(ScanAll(s, a, fingerprint), init, fingerprint), last, fingerprint);
        ScanAll(ScanAll(s, a, fingerprint), b, fingerprint);
      }
    } else {
      assert a + b == a;
    }
  }

  /** One detector cycle from the fingerprint map `hashes`; a failure to
      read the build server configuration ends the cycle untouched. */
  function Cycle(hashes: map<string, string>, fs: ScanSources): Scan {
    match ProjectDirs(fs)
    case Err(_) => Scan(hashes, [])
    case Ok(dirs) => ScanAll(Scan(hashes, []), Candidates(dirs, fs.listing), fs.fingerprint)
  }

  /** The records of the first five changed files. */
  function ChangeRecords(changed: seq<string>): (rs: seq<Json>)
    ensures |rs| == Min(ChangeReportCap, |changed|)
  {
    var report := changed[..Min(ChangeReportCap, |changed|)];
    seq(|report|, k requires 0 <= k < |report| => ChangeRecord(report[k]))
  }

  /** What a cycle puts on the queue. */
  function ChangeReport(changed: seq<string>): seq<Update> {
    if changed == [] then [] else [DiagnosticsUpdate(ChangeRecords(changed))]
  }

  /** Nothing is queued when no file changed; otherwise one `diagnostics`
      update whose records describe the first (at most five) changed files
      in order, each at line 1 with severity `info`. */
  lemma ChangeReportShape(changed: seq<string>)
    ensures changed == [] ==> ChangeReport(changed) == []
    ensures changed != [] ==>
      var u := ChangeReport(changed);
      && |u| == 1 && u[0].tag == "diagnostics" && |u[0].data| == 1 && u[0].data[0].JArray?
      && var rs := u[0].data[0].items;
      && |rs| == Min(ChangeReportCap, |changed|) && 1 <= |rs|
      && forall k :: 0 <= k < |rs| ==>
           && SeverityIs(rs[k], "info")
           && Lookup(rs[k].members, "file") == Some(Str(Basename(changed[k])))
           && Lookup(rs[k].members, "line") == Some(JInt(1))
           && Lookup(rs[k].members, "message") == Some(Str("File changed: " + Basename(changed[k])))
  {
    if changed != [] {
      var rs := ChangeRecords(changed);
      forall k | 0 <= k < |rs|
        ensures && SeverityIs(rs[k], "info")
                && Lookup(rs[k].members, "file") == Some(Str(Basename(changed[k])))
                && Lookup(rs[k].members, "line") == Some(JInt(1))
                && Lookup(rs[k].members, "message") == Some(Str("File changed: " + Basename(changed[k])))
      {
        var ms := rs[k].members;
        LookupAt(ms, 0);
        LookupAt(ms, 1);
        LookupAt(ms, 2);
        LookupAt(ms, 3);
      }
    }
  }

  // The scheduler tick

  /** The outcomes of the tick's status probes; `Err` is an exception. */
  datatype Probes = Probes(
    project: Result<string>,
    buildServer: Result<string>,
    lsp: Result<string>,
    lastBuild: Result<string>,
    buildDetails: Result<string>)

  /** What one pass of the tick puts: each probe's update as soon as it
      is known, until one raises and its exception is put instead. */
  function TickUpdates(p: Probes, diagnostics: seq<Json>): seq<Update> {
    Then(Status("project", p.project),
      Then(Status("build_server", p.buildServer),
        Then(Status("lsp", p.lsp),
          Then(Status("last_build", p.lastBuild),
            [DiagnosticsUpdate(diagnostics)] + Then(BuildInfoStep(p.buildDetails), [])))))
  }

  /** A step's update followed by what comes after it, or its exception. */
  function Then(step: Result<Update>, after: seq<Update>): seq<Update> {
    match step
    case Err(e) => [ErrorUpdate(e)]
    case Ok(u) => [u] + after
  }

  /** The updates a tick would put, in order, if nothing raised. */
  function TickSteps(p: Probes, diagnostics: seq<Json>): seq<Result<Update>> {
    [Status("project", p.project), Status("build_server", p.buildServer), Status("lsp", p.lsp),
     Status("last_build", p.lastBuild), Ok(DiagnosticsUpdate(diagnostics)), BuildInfoStep(p.buildDetails)]
  }

  function BuildInfoStep(r: Result<string>): Result<Update> {
    match r
    case Ok(d) => Ok(BuildInfoUpdate(d))
    case Err(e) => Err(e)
  }

  function Status(key: string, r: Result<string>): Result<Update> {
    match r
    case Ok(v) => Ok(StatusUpdate(key, v))
    case Err(e) => Err(e)
  }

  /** The updates put until the first step raises, then that exception as
      an `error` update. */
  function Emitted(steps: seq<Result<Update>>): seq<Update>
    decreases |steps|
  {
    if steps == [] then []
    else
      match steps[0]
      case Err(e) => [ErrorUpdate(e)]
      case Ok(u) => [u] + Emitted(steps[1..])
  }

  lemma EmittedFirst(steps: seq<Result<Update>>)
    requires steps != []
    ensures Emitted(steps) ==
      if steps[0].Err? then [ErrorUpdate(steps[0].error)] else [steps[0].value] + Emitted(steps[1..])
  {
  }

  /** The index of the first step that raises, `|steps|` when none does. */
  function FirstFailure(steps: seq<Result<Update>>): (k: nat)
    ensures k <= |steps|
    ensures forall i :: 0 <= i < k ==> steps[i].Ok?
    ensures k < |steps| ==> steps[k].Err?
    decreases |steps|
  {
    if steps == [] || steps[0].Err? then 0 else 1 + FirstFailure(steps[1..])
  }

  /** The updates put are those of the steps before the first failure, in
      order, followed by one `error` update when a step raised. */
  lemma {:induction false} EmittedMeaning(steps: seq<Result<Update>>)
    ensures var k := FirstFailure(steps);
      && |Emitted(steps)| == (if k < |steps| then k + 1 else k)
      && (forall i :: 0 <= i < k ==> Emitted(steps)[i] == steps[i].value)
      && (k < |steps| ==> Emitted(steps)[k] == ErrorUpdate(steps[k].error))
    decreases |steps|
  {
    if steps != [] && steps[0].Ok? {
      EmittedMeaning(steps[1..]);
    }
  }

  /** The tick puts what the six steps put when each step's update is
      put until the first one raises, and then that exception. */
  lemma TickIsEmitted(p: Probes, diagnostics: seq<Json>)
    ensures TickUpdates(p, diagnostics) == Emitted(TickSteps(p, diagnostics))
  {
    var steps := TickSteps(p, diagnostics);
    EmittedFirst(steps);
    EmittedFirst(steps[1..]);
    EmittedFirst(steps[2..]);
    EmittedFirst(steps[3..]);
    EmittedFirst(steps[4..]);
    EmittedFirst(steps[5..]);
    assert steps[6..] == [];
  }

  /** A tick in which nothing raises puts the six updates, in order; one in
      which a probe raises keeps what was put before it and ends with that
      exception as an `error` update. */
  lemma TickOrder(p: Probes, diagnostics: seq<Json>)
    ensures p.project.Ok? && p.buildServer.Ok? && p.lsp.Ok? && p.lastBuild.Ok? && p.buildDetails.Ok? ==>
      TickUpdates(p, diagnostics) ==
        [StatusUpdate("project", p.project.value), StatusUpdate("build_server", p.buildServer.value),
         StatusUpdate("lsp", p.lsp.value), StatusUpdate("last_build", p.lastBuild.value),
         DiagnosticsUpdate(diagnostics), BuildInfoUpdate(p.buildDetails.value)]
    ensures var u := TickUpdates(p, diagnostics);
      var k := FirstFailure(TickSteps(p, diagnostics));
      && |u| == (if k < 6 then k + 1 else 6)
      && (forall i :: 0 <= i < k ==> u[i] == TickSteps(p, diagnostics)[i].value)
      && (k < 6 ==> u[k] == ErrorUpdate(TickSteps(p, diagnostics)[k].error))
  {
    TickIsEmitted(p, diagnostics);
    EmittedMeaning(TickSteps(p, diagnostics));
  }

  // The monitor

  class SwiftMonitor {
    var root: Path
    const updateQueue: UpdateQueue
    var lastFileHashes: map<string, string>
    var monitoring: bool

    ghost predicate Invariant()
      reads this
    {
      Valid(root)
    }

    /** `root_path` as the monitor prints it. */
    function RootPath(): string
      reads this
    {
      ToString(root)
    }

    /** The root is the absolute form of `rootArg`, or the working
        directory when it is absent or empty; the background loops are
        left out. */
    constructor (rootArg: Option<string>, cwd: Path)
      requires Valid(cwd)
      ensures Invariant()
      ensures root == if rootArg.Some? && rootArg.value != [] then AbsPath(cwd, rootArg.value) else cwd
      ensures fresh(updateQueue) && updateQueue.items == []
      ensures lastFileHashes == map[] && monitoring
    {
      root := if rootArg.Some? && rootArg.value != [] then AbsPath(cwd, rootArg.value) else cwd;
      updateQueue := new UpdateQueue();
      lastFileHashes := map[];
      monitoring := true;
    }

    /** `stop`: both loops end after their current pass. */
    method Stop()
      modifies this`monitoring
      ensures !monitoring
    {
      monitoring := false;
    }

    /** The innermost loop of `file_monitor_loop`: one glob's files. */
    method ScanFiles(files: seq<string>, fingerprint: string -> Option<string>, changed: seq<string>)
      returns (changedAfter: seq<string>)
      modifies this`lastFileHashes
      ensures Scan(lastFileHashes, changedAfter) == ScanAll(Scan(old(lastFileHashes), changed), files, fingerprint)
    {
      changedAfter := changed;
      var i := 0;
      while i < |files|
        invariant 0 <= i <= |files|
        invariant Scan(lastFileHashes, changedAfter) == ScanAll(Scan(old(lastFileHashes), changed), files[..i], fingerprint)
      {
        var path := files[i];
        assert files[..i + 1][..i] == files[..i];
        if !Excluded(path) {
          var h := fingerprint(path);
          if h.Some? {
            if path in lastFileHashes && lastFileHashes[path] != h.value {
              changedAfter := changedAfter + [path];
            }
            lastFileHashes := lastFileHashes[path := h.value];
          }
        }
        i := i + 1;
      }
      assert files[..i] == files;
    }

    /** The middle loop: every watched extension under one directory. */
    method ScanDirectory(dir: string, fs: ScanSources, changed: seq<string>) returns (changedAfter: seq<string>)
      modifies this`lastFileHashes
      ensures Scan(lastFileHashes, changedAfter) ==
        ScanAll(Scan(old(lastFileHashes), changed), ForExtensions(dir, MonitoredExtensions, fs.listing), fs.fingerprint)
    {
      changedAfter := changed;
      var j := 0;
      while j < |MonitoredExtensions|
        invariant 0 <= j <= |MonitoredExtensions|
        invariant Scan(lastFileHashes, changedAfter) ==
          ScanAll(Scan(old(lastFileHashes), changed), ForExtensions(dir, MonitoredExtensions[..j], fs.listing), fs.fingerprint)
      {
        ghost var before := ForExtensions(dir, MonitoredExtensions[..j], fs.listing);
        var files := fs.listing(dir, MonitoredExtensions[j]);
        assert MonitoredExtensions[..j + 1][..j] == MonitoredExtensions[..j];
        ScanConcat(Scan(old(lastFileHashes), changed), before, files, fs.fingerprint);
        changedAfter := ScanFiles(files, fs.fingerprint, changedAfter);
        j := j + 1;
      }
      assert MonitoredExtensions[..j] == MonitoredExtensions;
    }

    /** One pass of `file_monitor_loop`: fingerprint every watched file under
        the project directories, then report the changed ones. The
        re-collection of diagnostics it starts in the background discards
        its result, so it changes nothing here. */
    method FileMonitorCycle(fs: ScanSources)
      modifies this`lastFileHashes, updateQueue
      ensures var s := Cycle(old(lastFileHashes), fs);
        lastFileHashes == s.hashes && updateQueue.items == old(updateQueue.items) + ChangeReport(s.changed)
    {
      var dirs := ProjectDirs(fs);
      if dirs.Err? {
        return;
      }
      var changed := ScanDirectories(dirs.value, fs);
      if changed != [] {
        updateQueue.Put(DiagnosticsUpdate(ChangeRecords(changed)));
      }
    }

    /** The loop over the project directories, from an empty change list. */
    method ScanDirectories(dirs: seq<string>, fs: ScanSources) returns (changed: seq<string>)
      modifies this`lastFileHashes
      ensures Scan(lastFileHashes, changed) == ScanAll(Scan(old(lastFileHashes), []), Candidates(dirs, fs.listing), fs.fingerprint)
    {
      changed := [];
      var i := 0;
      while i < |dirs|
        invariant 0 <= i <= |dirs|
        invariant Scan(lastFileHashes, changed) ==
          ScanAll(Scan(old(lastFileHashes), []), Candidates(dirs[..i], fs.listing), fs.fingerprint)
      {
        ghost var before := Candidates(dirs[..i], fs.listing);
        assert dirs[..i + 1][..i] == dirs[..i];
        assert Candidates(dirs[..i + 1], fs.listing) == before + ForExtensions(dirs[i], MonitoredExtensions, fs.listing);
        ScanConcat(Scan(old(lastFileHashes), []), before, ForExtensions(dirs[i], MonitoredExtensions, fs.listing), fs.fingerprint);
        changed := ScanDirectory(dirs[i], fs, changed);
        i := i + 1;
      }
      assert dirs[..i] == dirs;
    }

    /** One pass of `monitor_loop`: the five status probes around the
        diagnostics, each put as soon as it is known; an exception ends the
        pass with an `error` update. */
    method MonitorTick(p: Probes, codec: Codec, src: Sources)
      requires Invariant() && Valid(src.live.cwd)
      modifies updateQueue
      ensures updateQueue.items == old(updateQueue.items) + TickUpdates(p, Diagnostics(codec, src, root, "True"))
    {
      // What is still to be put.
      ghost var rest := TickUpdates(p, Diagnostics(codec, src, root, "True"));
      if p.project.Err? {
        updateQueue.Put(ErrorUpdate(p.project.error));
        return;
      }
      rest := PutNext(StatusUpdate("project", p.project.value), rest);
      if p.buildServer.Err? {
        updateQueue.Put(ErrorUpdate(p.buildServer.error));
        return;
      }
      rest := PutNext(StatusUpdate("build_server", p.buildServer.value), rest);
      if p.lsp.Err? {
        updateQueue.Put(ErrorUpdate(p.lsp.error));
        return;
      }
      rest := PutNext(StatusUpdate("lsp", p.lsp.value), rest);
      if p.lastBuild.Err? {
        updateQueue.Put(ErrorUpdate(p.lastBuild.error));
        return;
      }
      rest := PutNext(StatusUpdate("last_build", p.lastBuild.value), rest);
      var diagnostics := GetDiagnostics(codec, src, root, "True");
      rest := PutNext(DiagnosticsUpdate(diagnostics), rest);
      if p.buildDetails.Err? {
        updateQueue.Put(ErrorUpdate(p.buildDetails.error));
        return;
      }
      rest := PutNext(BuildInfoUpdate(p.buildDetails.value), rest);
    }

    /** Puts `u`, the first of the updates `expected` still to be put. */
    method PutNext(u: Update, ghost expected: seq<Update>) returns (ghost rest: seq<Update>)
      requires expected != [] && expected[0] == u
      modifies updateQueue
      ensures updateQueue.items + rest == old(updateQueue.items) + expected
      ensures rest == expected[1..]
    {
      updateQueue.Put(u);
      rest := expected[1..];
      assert expected == [u] + rest;
    }
  }
}
