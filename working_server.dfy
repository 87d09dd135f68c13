/** `working_swift_mcp_server`: the tools a client calls on the Swift
    monitor — draining and clearing its update queue, moving its root, and
    collecting diagnostics. */
module WorkingServer {
  import opened Common
  import opened Paths
  import opened JsonValues
  import opened Records
  import opened Channel
  import opened MonitorDiagnostics
  import opened MonitorCore

  // get_recent_updates

  /** At most this many updates are taken per call. */
  const RecentCap: nat := 10

  /** One entry of the list `get_recent_updates` returns: the update's tag,
      the rest of the update, and the stamp of the serving thread. */
  datatype RecentUpdate = RecentUpdate(kind: string, data: seq<Json>, timestamp: string)

  function Entry(u: Update, timestamp: string): RecentUpdate {
    RecentUpdate(u.tag, u.data, timestamp)
  }

  /** The entries for a run of updates, in queue order. */
  function Entries(us: seq<Update>, timestamp: string): (r: seq<RecentUpdate>)
    ensures |r| == |us|
    ensures forall i :: 0 <= i < |us| ==> r[i].kind == us[i].tag && r[i].data == us[i].data && r[i].timestamp == timestamp
  {
    seq(|us|, i requires 0 <= i < |us| => Entry(us[i], timestamp))
  }

  /** The entries of consecutive runs are consecutive. */
  lemma EntriesAppend(a: seq<Update>, b: seq<Update>, timestamp: string)
    ensures Entries(a + b, timestamp) == Entries(a, timestamp) + Entries(b, timestamp)
  {
    var l := Entries(a + b, timestamp);
    var r := Entries(a, timestamp) + Entries(b, timestamp);
    assert |l| == |r|;
    forall i | 0 <= i < |l| ensures l[i] == r[i] {
      if i < |a| { assert (a + b)[i] == a[i]; } else { assert (a + b)[i] == b[i - |a|]; }
    }
  }

  /** `get_recent_updates`: the first (up to) 10 updates leave the queue,
      front first, and come back as entries; the rest stay in order. */
  method GetRecentUpdates(queue: UpdateQueue, timestamp: string) returns (updates: seq<RecentUpdate>)
    modifies queue
    ensures var n := Min(RecentCap, |old(queue.items)|);
      && updates == Entries(old(queue.items)[..n], timestamp)
      && queue.items == old(queue.items)[n..]
  {
    updates := [];
    var k := 0;
    while k < RecentCap
      invariant 0 <= k <= RecentCap && k <= |old(queue.items)|
      invariant queue.items == old(queue.items)[k..]
      invariant updates == Entries(old(queue.items)[..k], timestamp)
    {
      if queue.IsEmpty() {
        break;
      }
      var u := queue.GetNowait();
      EntriesAppend(old(queue.items)[..k], [u.value], timestamp);
      assert old(queue.items)[..k + 1] == old(queue.items)[..k] + [u.value];
      updates := updates + [Entry(u.value, timestamp)];
      k := k + 1;
    }
  }

  /** Two calls in a row return the first 20 updates, in queue order: no
      update is lost, repeated or reordered between calls. */
  lemma DrainTwice(items: seq<Update>, timestamp: string)
    ensures var n1 := Min(RecentCap, |items|);
      var n2 := Min(RecentCap, |items[n1..]|);
      && Entries(items[..n1], timestamp) + Entries(items[n1..][..n2], timestamp) ==
         Entries(items[..Min(2 * RecentCap, |items|)], timestamp)
      && items[n1..][n2..] == items[Min(2 * RecentCap, |items|)..]
  {
    var n1 := Min(RecentCap, |items|);
    var n2 := Min(RecentCap, |items[n1..]|);
    assert items[..n1] + items[n1..][..n2] == items[..Min(2 * RecentCap, |items|)];
    EntriesAppend(items[..n1], items[n1..][..n2], timestamp);
  }

  // clear_diagnostics_queue

  /** `clear_diagnostics_queue`: the queue ends empty, and the count is the
      number of updates it held. */
  method ClearDiagnosticsQueue(queue: UpdateQueue) returns (count: nat)
    modifies queue
    ensures count == |old(queue.items)|
    ensures queue.items == []
  {
    count := 0;
    while !queue.IsEmpty()
      invariant count <= |old(queue.items)|
      invariant queue.items == old(queue.items)[count..]
      decreases |queue.items|
    {
      var _ := queue.GetNowait();
      count := count + 1;
    }
  }

  // set_project_path

  /** The dict `set_project_path` returns. */
  datatype PathChange = PathChanged(oldPath: string, newPath: string) | PathRejected(error: string)

  /** `set_project_path`: a path that does not exist (`pathExists` is
      `os.path.exists(newPath)`) changes nothing; otherwise monitoring is
      stopped and restarted on the absolute path, with the file hashes
      kept, and both paths are reported. */
  method SetProjectPath(monitor: SwiftMonitor, newPath: string, pathExists: bool, cwd: Path) returns (r: PathChange)
    requires monitor.Invariant() && Valid(cwd)
    modifies monitor`root, monitor`monitoring
    ensures !pathExists ==>
      && r == PathRejected("Path does not exist: " + newPath)
      && monitor.root == old(monitor.root) && monitor.monitoring == old(monitor.monitoring)
    ensures pathExists ==>
      && monitor.root == AbsPath(cwd, newPath) && monitor.monitoring
      && r == PathChanged(ToString(old(monitor.root)), ToString(monitor.root))
      && AbsPath(cwd, r.newPath) == monitor.root
    ensures monitor.lastFileHashes == old(monitor.lastFileHashes)
    ensures monitor.Invariant()
  {
    if !pathExists {
      return PathRejected("Path does not exist: " + newPath);
    }
    var oldPath := monitor.RootPath();
    monitor.Stop();
    monitor.root := AbsPath(cwd, newPath);
    monitor.monitoring := true;
    AbsPathOfToString(cwd, monitor.root);
    r := PathChanged(oldPath, monitor.RootPath());
  }

  // get_diagnostics

  /** The tool's answer for what the monitor's collector returned or
      raised. */
  function DiagnosticsAnswer(outcome: Result<seq<Json>>): seq<Json> {
    match outcome
    case Ok(d) => d
    case Err(e) => [ErrorRecord("Error getting diagnostics: " + e)]
  }

  /** An exception becomes exactly one error record; a result passes
      through unchanged. */
  lemma DiagnosticsAnswerMeaning(outcome: Result<seq<Json>>)
    ensures outcome.Ok? ==> DiagnosticsAnswer(outcome) == outcome.value
    ensures outcome.Err? ==> |DiagnosticsAnswer(outcome)| == 1 && SeverityIs(DiagnosticsAnswer(outcome)[0], "error")
  {
    if outcome.Err? {
      LookupAt(DiagnosticsAnswer(outcome)[0].members, 0);
    }
  }

  /** `get_diagnostics`: the collector, with its default filter flag, on
      the monitor's root; it handles its own exceptions, so its records
      come back as they are. */
  method GetDiagnosticsTool(monitor: SwiftMonitor, codec: Codec, src: Sources) returns (diagnostics: seq<Json>)
    requires monitor.Invariant() && Valid(src.live.cwd)
    ensures diagnostics == Diagnostics(codec, src, monitor.root, "True")
  {
    var d := GetDiagnostics(codec, src, monitor.root, "True");
    diagnostics := DiagnosticsAnswer(Ok(d));
  }
}
