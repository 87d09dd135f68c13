/** `swift_mcp_server`: the tools and the diagnostics resource served over
    the Swift monitor, and the watcher that turns the monitor's updates
    into change notifications. */
module ResourceServer {
  import opened Common
  import opened Paths
  import opened JsonValues
  import opened Records
  import opened Channel
  import opened MonitorDiagnostics
  import opened MonitorCore

  // Tools

  /** `set_project_path`: the root becomes the absolute path, always with
      success; monitoring is neither stopped nor restarted. */
  method SetProjectPath(monitor: SwiftMonitor, newPath: string, cwd: Path) returns (reported: string)
    requires Valid(cwd)
    modifies monitor`root
    ensures monitor.root == AbsPath(cwd, newPath)
    ensures reported == monitor.RootPath() && AbsPath(cwd, reported) == monitor.root
    ensures monitor.Invariant()
  {
    monitor.root := AbsPath(cwd, newPath);
    reported := monitor.RootPath();
    AbsPathOfToString(cwd, monitor.root);
  }

  /** `get_diagnostics_tool`: the collector with the root's string in the
      place of its filter flag. */
  method GetDiagnosticsTool(monitor: SwiftMonitor, codec: Codec, src: Sources) returns (diagnostics: seq<Json>)
    requires monitor.Invariant() && Valid(src.live.cwd)
    ensures diagnostics == Diagnostics(codec, src, monitor.root, monitor.RootPath())
  {
    diagnostics := GetDiagnostics(codec, src, monitor.root, monitor.RootPath());
  }

  // The diagnostics resource

  /** The one entry `list` returns. */
  datatype Descriptor = Descriptor(id: string, kind: string, title: string, projectPath: string)

  /** What `get` and `read` return. */
  datatype Content = Content(id: string, diagnostics: seq<Json>)

  const CurrentId := "current"

  class DiagnosticsResource {
    const monitor: SwiftMonitor

    constructor (monitor: SwiftMonitor)
      ensures this.monitor == monitor
    {
      this.monitor := monitor;
    }

    /** `list`: exactly one descriptor, for the monitor's current root. */
    function List(): (r: seq<Descriptor>)
      reads monitor
      ensures |r| == 1 && r[0].id == CurrentId && r[0].projectPath == monitor.RootPath()
    {
      [Descriptor(CurrentId, "diagnostics", "Diagnostics for current project", monitor.RootPath())]
    }

    /** `get` (and `read`, which is the same): the current diagnostics
        under the id `current`; any other id raises `KeyError`. */
    method Get(resourceId: string, codec: Codec, src: Sources) returns (r: Result<Content>)
      requires monitor.Invariant() && Valid(src.live.cwd)
      ensures resourceId == CurrentId ==>
        r == Ok(Content(CurrentId, Diagnostics(codec, src, monitor.root, monitor.RootPath())))
      ensures resourceId != CurrentId ==> r == Err("KeyError: 'Resource not found'")
    {
      if resourceId == CurrentId {
        var d := GetDiagnostics(codec, src, monitor.root, monitor.RootPath());
        return Ok(Content(CurrentId, d));
      }
      return Err("KeyError: 'Resource not found'");
    }

    /** `watch` as written: starting the watcher names `threading`, which
        the module never imports. */
    function WatchAsWritten(): (r: Result<()>)
      ensures r.Err?
    {
      Err("NameError: name 'threading' is not defined")
    }

    /** `watch` as intended: a watcher over the monitor's queue, having
        sent nothing yet. */
    method Watch() returns (w: Watcher)
      ensures fresh(w) && w.queue == monitor.updateQueue && w.sent == [] && w.lastSent == JNull
    {
      w := new Watcher(monitor.updateQueue);
    }
  }

  // The watcher

  /** What the watcher has done: the diagnostics `notify` was called with,
      in order, and `last_sent`, whose initial `None` is `JNull`. */
  datatype Watched = Watched(sent: seq<Json>, last: Json)

  /** One update taken from the queue, with whether `notify` returns when
      it is called for this update. A `diagnostics` update whose list
      differs from `last_sent` is notified; the list becomes `last_sent`
      only when `notify` returns, since a raise skips that assignment and
      is swallowed. Everything else is dropped, including an update whose
      unpacking raises. */
  function Receive(last: Json, u: Update, delivered: bool): Watched {
    if u.tag == "diagnostics" && |u.data| > 0 && u.data[0] != last then
      Watched([u.data[0]], if delivered then u.data[0] else last)
    else Watched([], last)
  }

  /** The watcher over a run of updates, starting from `last`; `delivered[k]`
      says whether `notify` returns if it is called for `us[k]`. */
  function WatchAll(last: Json, us: seq<Update>, delivered: seq<bool>): Watched
    requires |delivered| == |us|
    decreases |us|
  {
    if us == [] then Watched([], last)
    else
      var w := WatchAll(last, us[..|us| - 1], delivered[..|us| - 1]);
      var o := Receive(w.last, us[|us| - 1], delivered[|us| - 1]);
      Watched(w.sent + o.sent, o.last)
  }

  lemma WatchAllStep(last: Json, us: seq<Update>, delivered: seq<bool>, k: nat)
    requires |delivered| == |us| && k < |us|
    ensures var w := WatchAll(last, us[..k], delivered[..k]);
      var o := Receive(w.last, us[k], delivered[k]);
      WatchAll(last, us[..k + 1], delivered[..k + 1]) == Watched(w.sent + o.sent, o.last)
  {
    assert us[..k + 1][..k] == us[..k];
    assert delivered[..k + 1][..k] == delivered[..k];
  }

  /** Updates of any other kind can be left out of the run without
      changing what is sent. */
  lemma OtherUpdatesDropped(last: Json, us: seq<Update>, delivered: seq<bool>, u: Update, d: bool)
    requires |delivered| == |us| && u.tag != "diagnostics"
    ensures WatchAll(last, us + [u], delivered + [d]) == WatchAll(last, us, delivered)
  {
    assert (us + [u])[..|us|] == us;
    assert (delivered + [d])[..|us|] == delivered;
  }

  /** `notify` returns for every update. */
  predicate AllDelivered(delivered: seq<bool>) {
    forall k :: 0 <= k < |delivered| ==> delivered[k]
  }

  /** The first list sent differs from the one sent before the run;
      `last_sent` is that list or one whose `notify` returned, and it
      changes only when something is sent. */
  lemma {:induction false} WatchAllLast(last: Json, us: seq<Update>, delivered: seq<bool>)
    requires |delivered| == |us|
    ensures var w := WatchAll(last, us, delivered);
      && (w.sent != [] ==> w.sent[0] != last)
      && (w.sent == [] ==> w.last == last)
      && (w.last == last || exists j :: 0 <= j < |us| && delivered[j] && |us[j].data| > 0 && w.last == us[j].data[0])
    decreases |us|
  {
    if us != [] {
      var n := |us| - 1;
      WatchAllLast(last, us[..n], delivered[..n]);
      assert forall j :: 0 <= j < n ==> us[..n][j] == us[j] && delivered[..n][j] == delivered[j];
    }
  }

  /** `x` is the list of some `diagnostics` update of `us`. */
  predicate CarriedBy(x: Json, us: seq<Update>) {
    exists j :: 0 <= j < |us| && us[j].tag == "diagnostics" && |us[j].data| > 0 && x == us[j].data[0]
  }

  /** Everything sent is the list of a `diagnostics` update of the run. */
  lemma {:induction false} WatchAllMeaning(last: Json, us: seq<Update>, delivered: seq<bool>)
    requires |delivered| == |us|
    ensures forall i :: 0 <= i < |WatchAll(last, us, delivered).sent| ==> CarriedBy(WatchAll(last, us, delivered).sent[i], us)
    decreases |us|
  {
    if us != [] {
      var n := |us| - 1;
      WatchAllMeaning(last, us[..n], delivered[..n]);
      var w := WatchAll(last, us[..n], delivered[..n]);
      var o := Receive(w.last, us[n], delivered[n]);
      var r := WatchAll(last, us, delivered);
      assert r == Watched(w.sent + o.sent, o.last);
      forall i | 0 <= i < |r.sent|
        ensures CarriedBy(r.sent[i], us)
      {
        if i < |w.sent| {
          assert CarriedBy(w.sent[i], us[..n]);
          var j :| 0 <= j < n && us[..n][j].tag == "diagnostics" && |us[..n][j].data| > 0 && w.sent[i] == us[..n][j].data[0];
          assert us[..n][j] == us[j] && r.sent[i] == w.sent[i];
        } else {
          assert r.sent[i] == us[n].data[0];
        }
      }
    }
  }

  /** When `notify` always returns, no list is sent twice in a row and the
      last one sent is remembered. */
  lemma {:induction false} WatchAllDistinct(last: Json, us: seq<Update>, delivered: seq<bool>)
    requires |delivered| == |us| && AllDelivered(delivered)
    ensures var w := WatchAll(last, us, delivered);
      && (forall i :: 0 <= i < |w.sent| - 1 ==> w.sent[i] != w.sent[i + 1])
      && (w.sent != [] ==> w.last == w.sent[|w.sent| - 1])
      && (w.sent == [] ==> w.last == last)
    decreases |us|
  {
    if us != [] {
      var n := |us| - 1;
      assert AllDelivered(delivered[..n]);
      WatchAllDistinct(last, us[..n], delivered[..n]);
      var w := WatchAll(last, us[..n], delivered[..n]);
      var o := Receive(w.last, us[n], delivered[n]);
      var r := WatchAll(last, us, delivered);
      assert r == Watched(w.sent + o.sent, o.last);
      if o.sent != [] {
        assert forall i :: 0 <= i < |w.sent| ==> r.sent[i] == w.sent[i];
      }
    }
  }

  /** The diagnostics lists a run of updates carries, in order, each with
      whether `notify` returns for it. */
  function DiagnosticLists(us: seq<Update>, delivered: seq<bool>): seq<(Json, bool)>
    requires |delivered| == |us|
    decreases |us|
  {
    if us == [] then []
    else
      var u := us[|us| - 1];
      DiagnosticLists(us[..|us| - 1], delivered[..|us| - 1]) +
        if u.tag == "diagnostics" && |u.data| > 0 then [(u.data[0], delivered[|us| - 1])] else []
  }

  /** The last list of `xs` whose `notify` returned, or `last` when there is
      none. */
  function LastDelivered(last: Json, xs: seq<(Json, bool)>): Json
    decreases |xs|
  {
    if xs == [] then last
    else if xs[|xs| - 1].1 then xs[|xs| - 1].0
    else LastDelivered(last, xs[..|xs| - 1])
  }

  /** The lists of `xs` that differ from the last list delivered before
      them. */
  function Sends(last: Json, xs: seq<(Json, bool)>): seq<Json>
    decreases |xs|
  {
    if xs == [] then []
    else
      var init := xs[..|xs| - 1];
      Sends(last, init) + if xs[|xs| - 1].0 == LastDelivered(last, init) then [] else [xs[|xs| - 1].0]
  }

  /** One more list extends `Sends` and `LastDelivered` by one step. */
  lemma SendsStep(last: Json, xs: seq<(Json, bool)>, x: (Json, bool))
    ensures Sends(last, xs + [x]) == Sends(last, xs) + if x.0 == LastDelivered(last, xs) then [] else [x.0]
    ensures LastDelivered(last, xs + [x]) == if x.1 then x.0 else LastDelivered(last, xs)
  {
    assert (xs + [x])[..|xs|] == xs;
  }

  /** The watcher sends every diagnostics list of the run that differs from
      the last list whose `notify` returned (the list sent before the run
      when there is none), and ends remembering that last delivered list. */
  lemma {:induction false} WatchAllSends(last: Json, us: seq<Update>, delivered: seq<bool>)
    requires |delivered| == |us|
    ensures var ls := DiagnosticLists(us, delivered);
      WatchAll(last, us, delivered) == Watched(Sends(last, ls), LastDelivered(last, ls))
    decreases |us|
  {
    if us != [] {
      var n := |us| - 1;
      var u := us[n];
      WatchAllSends(last, us[..n], delivered[..n]);
      var l0 := DiagnosticLists(us[..n], delivered[..n]);
      var w := WatchAll(last, us[..n], delivered[..n]);
      assert w == Watched(Sends(last, l0), LastDelivered(last, l0));
      var o := Receive(w.last, u, delivered[n]);
      assert WatchAll(last, us, delivered) == Watched(w.sent + o.sent, o.last);
      if u.tag == "diagnostics" && |u.data| > 0 {
        assert DiagnosticLists(us, delivered) == l0 + [(u.data[0], delivered[n])];
        SendsStep(last, l0, (u.data[0], delivered[n]));
      } else {
        assert DiagnosticLists(us, delivered) == l0 + [] == l0;
      }
    }
  }

  /** A list whose `notify` raised is sent again when it comes once more,
      where a delivered one is not; and a first payload of `None` is never
      sent, since it equals the initial `last_sent`. */
  lemma ResentAfterRaise(d: Json)
    requires d != JNull
    ensures var u := Update("diagnostics", [d]);
      && WatchAll(JNull, [u, u], [false, true]).sent == [d, d]
      && WatchAll(JNull, [u, u], [true, true]).sent == [d]
      && WatchAll(JNull, [Update("diagnostics", [JNull])], [true]).sent == []
  {
    var u := Update("diagnostics", [d]);
    assert [u, u][..1] == [u] && [u][..0] == [];
    assert [false, true][..1] == [false] && [false][..0] == [];
    assert [true, true][..1] == [true] && [true][..0] == [];
    assert WatchAll(JNull, [u], [false]) == Watched([d], JNull);
    assert WatchAll(JNull, [u], [true]) == Watched([d], d);
  }

  /** The thread `watch` starts, over the monitor's queue. */
  class Watcher {
    const queue: UpdateQueue
    var lastSent: Json
    var sent: seq<Json>

    constructor (queue: UpdateQueue)
      ensures this.queue == queue && lastSent == JNull && sent == []
    {
      this.queue := queue;
      lastSent := JNull;
      sent := [];
    }

    /** One turn of the loop body on a taken update; `delivered` says
        whether `notify` returns if it is called. */
    method Step(u: Update, delivered: bool)
      modifies this`lastSent, this`sent
      ensures var o := Receive(old(lastSent), u, delivered);
        sent == old(sent) + o.sent && lastSent == o.last
    {
      if u.tag == "diagnostics" && |u.data| > 0 {
        var diagnostics := u.data[0];
        if diagnostics != lastSent {
          sent := sent + [diagnostics];
          if delivered {
            lastSent := diagnostics;
          }
        }
      }
    }

    /** The loop, over the updates waiting in the queue: each is taken in
        turn and observed, `delivered[k]` saying whether `notify` returns
        for the `k`-th; a wait that times out ends nothing and is left out. */
    method Consume(delivered: seq<bool>)
      requires |delivered| == |queue.items|
      modifies this`lastSent, this`sent, queue
      ensures var w := WatchAll(old(lastSent), old(queue.items), delivered);
        sent == old(sent) + w.sent && lastSent == w.last && queue.items == []
    {
      ghost var us := queue.items;
      var k := 0;
      while !queue.IsEmpty()
        invariant k <= |us| && queue.items == us[k..]
        invariant var w := WatchAll(old(lastSent), us[..k], delivered[..k]);
          sent == old(sent) + w.sent && lastSent == w.last
        decreases |queue.items|
      {
        var u := queue.GetNowait();
        WatchAllStep(old(lastSent), us, delivered, k);
        Step(u.value, delivered[k]);
        k := k + 1;
      }
      assert us[..k] == us;
      assert delivered[..k] == delivered;
    }
  }
}
