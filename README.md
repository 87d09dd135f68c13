# XcodeMonitor, modelled in Dafny

XcodeMonitor watches an Xcode or Swift project and reports build
diagnostics to AI assistants over MCP (Model Context Protocol) servers.
Its core is a set of small, sequential rules, wrapped in file-system,
subprocess and thread glue. This project models that core and proves
what the code promises. Everything outside the core appears as explicit
inputs:

- artifact listings with integer ages;
- the outputs of `plutil`, `xclogparser` and `xcodebuild`;
- file digests;
- `shlex` tokens;
- directory and file predicates.

Modules follow the program's structure:

| module (file) | models |
|---|---|
| `Common` (common.dfy) | `Option`, `Result`, `Min`. |
| `Strings` (strings.dfy) | Python `strip`, `split`, `splitlines`, `find`, `str(int)`, `int(str)`, `basename`. |
| `Utf8` (utf8.dfy) | `str.encode('utf-8')` and strict `bytes.decode('utf-8')`. |
| `Sequences` (sequences.dfy) | First-match search and concatenating map. |
| `Paths` (paths.dfy) | `os.path.abspath`, `commonpath` and `pathlib` paths, as component sequences. |
| `JsonValues` (json_values.dfy) | Decoded JSON values and Python dict/list access on them. `json.dumps`/`json.loads` is an abstract codec with a round-trip law (`Sound`). |
| `Records` (records.dfy) | Diagnostic records, queue updates, artifacts, SwiftPM matches. |
| `Channel` (channel.dfy) | The update queue, as a class over a sequence. |
| `Lsp` (lsp.dfy) | `LSPClient`: base-protocol framing, `read_response`, request ids, handshake and shutdown. |
| `LiveDiagnostics` (live.dfy) | `get_xcode_live_diagnostics`. |
| `MonitorDiagnostics` (collectors.dfy) | `SwiftMCPMonitorCore.get_diagnostics`. |
| `MonitorCore` (monitor_core.dfy) | `SwiftMCPMonitorCore`: the change detector (one pass of `file_monitor_loop`) and one tick of `monitor_loop`. |
| `XcodeCore` (xcode_core.dfy) | The free functions of `xcode_monitor_core.py` and the effective `XcodeMonitorCore` class. |
| `Terminal` (terminal.dfy) | `terminal_mcp_server.py`: the command gate, the session class, `cd`, history, `read_file`, `write_file`. |
| `WorkingServer` (working_server.dfy) | The tools of `working_swift_mcp_server.py`. |
| `ResourceServer` (resource_server.dfy) | `swift_mcp_server.py`: its tools, the diagnostics resource and its watcher. |

Code that updates state in place is modelled as classes with `modifies`
clauses:

- the LSP client and its id counter;
- the monitor's fingerprint map and queue;
- the terminal session;
- the watcher's `last_sent`.

Each method is proved against a specification function. The source's
loops are `while` loops with invariants. The properties are proved about
those functions as lemmas.

Where the repository's prose and its code differ, the model follows the
code:

- `set_project_path` in the working server does not reset
  `last_file_hashes`.
- The change detector scans the process working directory and the build
  server's workspace, not the monitored root.
- The diagnostics thread that a detected change starts discards its
  result.
- `read(n)` returning fewer bytes at the end of the stream is not an
  error.
- `update_working_directory` and `cd` resolve against the process working
  directory, not the session's directory.
- The core `get_diagnostics` appends raw plist entries without
  normalising their severity.
- `swift_mcp_server` passes `root_path` as the `filter_xclogparser`
  argument, which only shows up in the text of the stand-in record.
- `monitor_loop` calls `get_diagnostics()` with its default `True`.

## Model

| member | source | states |
|---|---|---|
| Strings.LStrip | XcodeMonitor/swift_mcp_monitor.py:52 | The result is a suffix of the input. Exactly the leading whitespace is dropped, and the result does not start with whitespace. |
| Strings.RStrip | XcodeMonitor/terminal_mcp_server.py:252 | The result is a prefix of the input. Exactly the trailing whitespace is dropped. |
| Strings.StripPadded | XcodeMonitor/xcode_monitor_core.py:231-232 | Stripping a non-blank word followed by whitespace (a line and its terminator) gives the word. |
| Strings.FindFrom | XcodeMonitor/swift_mcp_monitor.py:170 | Finds the first occurrence at or after `k`; `None` means no occurrence. |
| Strings.SplitOnce | XcodeMonitor/swift_mcp_monitor.py:55 | `None` exactly when the separator does not occur; otherwise the parts rejoin to the input. |
| Strings.SplitOnceAt | XcodeMonitor/swift_mcp_monitor.py:55 | Splitting `k + sep + v` at the first separator gives `(k, v)` when `sep` does not occur earlier. |
| Strings.SplitJoin | XcodeMonitor/terminal_mcp_server.py:274 | Splitting the join of separator-free parts gives the parts back. |
| Strings.SplitLinesJoin | XcodeMonitor/xcode_monitor_core.py:181 | `splitlines` gives back the lines joined by `\n` whenever none of them holds a line break and the last one is not empty. |
| Strings.NatToString | XcodeMonitor/swift_mcp_monitor.py:44 | `str(n)` is a non-empty run of digits, without a sign. |
| Strings.ParseIntOfNatToString | XcodeMonitor/swift_mcp_monitor.py:57 | `int(str(n)) == n`. |
| Strings.ParseIntUnderscores | XcodeMonitor/swift_mcp_monitor.py:57 | `int` reads digits with one underscore between them as the digits alone, and raises on two underscores in a row. |
| Strings.ParseIntNegative | XcodeMonitor/swift_mcp_monitor.py:57 | `int` of a minus sign followed by digits is the negated decimal value. |
| Strings.BasenameAfterLastSlash | XcodeMonitor/swift_mcp_monitor.py:183 | `os.path.basename` is exactly the text after the last slash: a slash-free suffix that follows a slash, or the whole path when it has none. |
| Utf8.EncodeChar | XcodeMonitor/swift_mcp_monitor.py:43 | A scalar value encodes to 1 to 4 bytes, and to one byte (its code) exactly when it is ASCII. |
| Utf8.DecodeEncodeAppend | XcodeMonitor/swift_mcp_monitor.py:58 | Decoding an encoded string followed by more bytes splits off exactly that string. |
| Utf8.DecodeEncode | XcodeMonitor/swift_mcp_monitor.py:46 | `s.encode('utf-8').decode('utf-8') == s`. |
| Utf8.EncodeAscii | XcodeMonitor/swift_mcp_monitor.py:44-45 | An ASCII header encodes to one byte per character. |
| Sequences.FirstWhere | XcodeMonitor/xcode_monitor_core.py:182-183 | The index of the first element satisfying the predicate; `None` exactly when none does. |
| Sequences.FirstWhereAt | XcodeMonitor/xcode_monitor_core.py:182-187 | The first match is found at its own index, whatever follows it. |
| Sequences.ConcatMapMembers | XcodeMonitor/xcode_monitor_core.py:277-284 | An element of the concatenation comes from the image of some element, and every such image element is in it. |
| Sequences.ConcatMapAtMostOne | XcodeMonitor/xcode_monitor_core.py:230-232 | When every element maps to at most one element, the concatenation is no longer than the input. |
| Paths.AbsPath | XcodeMonitor/swift_mcp_monitor.py:98 | `os.path.abspath` yields a normalised absolute path (no empty, `.` or `..` components). |
| Paths.AbsPathOfToString | XcodeMonitor/working_swift_mcp_server.py:56 | `abspath(str(p)) == p` for a normalised path. |
| Paths.ToStringInjective | XcodeMonitor/working_swift_mcp_server.py:65-69 | Distinct normalised paths print differently. |
| Paths.CommonPrefixIsRoot | XcodeMonitor/swift_mcp_monitor.py:267 | The common path of `p` and `root` is `root` exactly when `root` is a component prefix of `p`. |
| Paths.WithinRootIsPrefix | XcodeMonitor/swift_mcp_monitor.py:263-270 | The `commonpath(...) == root_abs` test agrees with component containment of the absolute path. |
| Paths.ResolveClean | XcodeMonitor/terminal_mcp_server.py:65 | Dropping empty and `.` parts does not change where a path resolves. |
| Paths.NormalisePure | XcodeMonitor/terminal_mcp_server.py:65 | `Path(s).resolve()` and `os.path.abspath(s)` agree lexically. |
| Paths.PureRoot | XcodeMonitor/terminal_mcp_server.py:274 | `Path(s)` is relative exactly when `s` has no leading slash, and keeps a root of two slashes exactly when `s` starts with two slashes and not three. |
| Paths.PureOfPureString | XcodeMonitor/terminal_mcp_server.py:274 | `Path(str(p)) == p` for a path under the one-slash root with at least one part. |
| Paths.PureOfDoubleRootString | XcodeMonitor/terminal_mcp_server.py:274 | `Path(str(p)) == p` for a path under the two-slash root with at least one part: both slashes survive. |
| JsonValues.Lookup | XcodeMonitor/swift_mcp_monitor.py:276 | A key is found exactly when a member has it, and the value found belongs to such a member. |
| JsonValues.LookupAt | XcodeMonitor/swift_mcp_monitor.py:283-291 | The member at `k` is the one a lookup of its key finds when no later member repeats the key. |
| JsonValues.GetOr | XcodeMonitor/swift_mcp_monitor.py:276-279 | `d.get(key, default)` raises exactly on a non-dict, with the `AttributeError` text `'<type>' object has no attribute 'get'`; otherwise it gives the member, or the default when absent. |
| JsonValues.Index | XcodeMonitor/swift_mcp_monitor.py:274 | `j[key]` succeeds exactly when `j` is a dict with that key. |
| JsonValues.In | XcodeMonitor/swift_mcp_monitor.py:273 | `key in d` for a dict is key membership. |
| JsonValues.Slice | XcodeMonitor/swift_mcp_monitor.py:274 | `j[:n]` succeeds exactly on a list or a string, yields at most `n` elements, and a list's first `n` items. |
| JsonValues.Keys | XcodeMonitor/xcode_monitor_core.py:122 | Iterating a dict yields strings, no key twice, however often the decoded document repeats it. |
| JsonValues.KeysListed | XcodeMonitor/xcode_monitor_core.py:122 | Every member's key is among the keys iterated. |
| JsonValues.KeysOfMembers | XcodeMonitor/xcode_monitor_core.py:122 | Every key iterated is some member's key. |
| JsonValues.KeysAppend | XcodeMonitor/xcode_monitor_core.py:122 | Inserting a member whose key is already present leaves the keys as they were; a new key goes last. |
| JsonValues.KeysDistinct | XcodeMonitor/xcode_monitor_core.py:122 | A dict whose keys do not repeat yields them in member order. |
| JsonValues.KeysOneName | XcodeMonitor/xcode_monitor_core.py:122 | Members that all share one key give that key once. |
| JsonValues.Iterate | XcodeMonitor/xcode_monitor_core.py:122 | Iterating a list yields its items, and a dict its `Keys`. Iteration raises exactly on a value that is not a list, string or dict, with the `TypeError` text `'<type>' object is not iterable`. |
| JsonValues.FirstTruthy | XcodeMonitor/swift_mcp_monitor.py:262 | `a or b or c or None` is the first truthy operand, and the default when no operand is truthy. |
| Records.MostRecent | XcodeMonitor/swift_mcp_monitor.py:250 | `max(files, key=mtime)`: an index of least age, and the first such. |
| Records.SwiftPmRecords | XcodeMonitor/swift_mcp_monitor.py:412-420 | One record per match, in order: record `i` is the record of match `i`. |
| Records.SwiftPmRecordShape | XcodeMonitor/xcode_monitor_core.py:296-303 | A SwiftPM record has the matched level as severity, the file's basename, the integer line and source `swiftpm`. |
| Channel.UpdateQueue.constructor | XcodeMonitor/swift_mcp_monitor.py:99 | A new queue is empty. |
| Channel.UpdateQueue.Put | XcodeMonitor/swift_mcp_monitor.py:137 | `put` appends at the back. |
| Channel.UpdateQueue.GetNowait | XcodeMonitor/working_swift_mcp_server.py:120 | `get_nowait` removes and returns the front, or raises on an empty queue and leaves it empty. |
| Lsp.RequestMessage | XcodeMonitor/swift_mcp_monitor.py:36-41 | A request carries an `id`. |
| Lsp.NotificationHasNoId | XcodeMonitor/swift_mcp_monitor.py:78-82 | A notification has no `id` member. |
| Lsp.ReadLine | XcodeMonitor/swift_mcp_monitor.py:52 | `readline()` splits the stream. It returns a non-empty line unless the stream is empty. |
| Lsp.ReadNTakes | XcodeMonitor/swift_mcp_monitor.py:58 | `read(n)` takes exactly `n` bytes when the stream holds that many, and all of it when it holds fewer or `n` is `-1`. It raises `ValueError` exactly when `n` is below `-1`. |
| Lsp.ReadHeaders | XcodeMonitor/swift_mcp_monitor.py:50-56 | Header reading never grows the unread stream. |
| Lsp.ReadResponseFrom | XcodeMonitor/swift_mcp_monitor.py:49-59 | Reading a response never grows the unread stream. |
| Lsp.LengthBelowMinusOneRaises | XcodeMonitor/swift_mcp_monitor.py:57-58 | A `Content-Length` below `-1` makes the read raise the `read` `ValueError`, with nothing of the body consumed. |
| Lsp.ContentLengthMinusTwo | XcodeMonitor/swift_mcp_monitor.py:57 | `Content-Length: -2` is read as the count `-2`, so such a header reaches the raising read. |
| Lsp.ReadLineOfLine | XcodeMonitor/swift_mcp_monitor.py:52 | `readline()` on bytes ending in their only newline returns exactly those bytes. |
| Lsp.HeaderFieldParts | XcodeMonitor/swift_mcp_monitor.py:44-55 | The frame's header line splits at `": "` into `Content-Length` and the decimal count. |
| Lsp.FirstHeaderLine | XcodeMonitor/swift_mcp_monitor.py:44-52 | The first header line of a frame is read whole, decodes, and strips to the header field. |
| Lsp.BlankHeaderLine | XcodeMonitor/swift_mcp_monitor.py:53-54 | The blank line after the header ends the header loop with the headers read so far. |
| Lsp.HeaderStep | XcodeMonitor/swift_mcp_monitor.py:51-56 | One turn of the header loop records the key and value split at the first `": "`. |
| Lsp.HeadersOfFrame | XcodeMonitor/swift_mcp_monitor.py:44-56 | A frame's header reads back as exactly `{Content-Length: N}` and leaves the stream at the body. |
| Lsp.FrameRoundTrip | XcodeMonitor/swift_mcp_monitor.py:42-59 | Reading from a stream that starts with the frame of `dumps(m)` yields `m` and leaves the stream just after the frame. |
| Lsp.NoContentLengthReadsNothing | XcodeMonitor/swift_mcp_monitor.py:57-59 | Without `Content-Length`, zero bytes are read and the response is `None`. |
| Lsp.MalformedHeaderRaises | XcodeMonitor/swift_mcp_monitor.py:55 | A header line without `": "` makes the read raise, after that line is consumed. |
| Lsp.BlankLineEndsHeaders | XcodeMonitor/swift_mcp_monitor.py:52-54 | Header reading stops at the first line that is empty once stripped. |
| Lsp.EncodeLineBreaks | XcodeMonitor/swift_mcp_monitor.py:52 | A text line ending in its only `\n` encodes to bytes ending in their only newline byte. |
| Lsp.LspClient.constructor | XcodeMonitor/swift_mcp_monitor.py:17-19 | No process and id counter 0. |
| Lsp.LspClient.ReadResponse | XcodeMonitor/swift_mcp_monitor.py:49-59 | Consumes exactly what `ReadResponseFrom` reads and returns its result. |
| Lsp.LspClient.SendRequest | XcodeMonitor/swift_mcp_monitor.py:34-48 | The id grows by exactly 1, even without a process, which then raises. With a process, it writes the framed request carrying the new id and reads one response. |
| Lsp.LspClient.SendNotification | XcodeMonitor/swift_mcp_monitor.py:77-88 | Writes the framed notification and leaves the id alone; raises without a process. |
| Lsp.LspClient.Initialize | XcodeMonitor/swift_mcp_monitor.py:60-76 | Sends `initialize`; the `initialized` notification follows exactly when the response is truthy. |
| Lsp.LspClient.Start | XcodeMonitor/swift_mcp_monitor.py:20-33 | A failed launch changes nothing and answers false. Otherwise a fresh running process has exactly the `initialize` request written, followed by `initialized` when the reply is truthy; the reply is consumed, and the answer is true exactly when reading it did not raise, so false for a reply whose `Content-Length` is below `-1`. |
| Lsp.LspClient.Shutdown | XcodeMonitor/swift_mcp_monitor.py:89-93 | Without a process nothing happens. With one: the `shutdown` request, then the `exit` notification, then termination, stopping at an exception. |
| LiveDiagnostics.AtLeastThree | XcodeMonitor/swift_mcp_monitor.py:275 | `value >= 3` is true exactly for integers of at least 3, and raises for non-numbers. |
| LiveDiagnostics.AsciiLower | XcodeMonitor/swift_mcp_monitor.py:294 | Lower-cases character by character and keeps the length. |
| LiveDiagnostics.ExistingPath | XcodeMonitor/swift_mcp_monitor.py:266-269 | A path is reported only when it is the string value and it exists. |
| LiveDiagnostics.CollectEntries | XcodeMonitor/swift_mcp_monitor.py:274-310 | The entry loop returns the records `Collect` specifies: kept entries in order, up to the first that raises. |
| LiveDiagnostics.GetXcodeLiveDiagnostics | XcodeMonitor/swift_mcp_monitor.py:241-316 | The method computes `Live`. |
| LiveDiagnostics.LiveRecordShape | XcodeMonitor/swift_mcp_monitor.py:283-291 | A live record's severity is `error` exactly for an error entry; it is an error or a warning from `xcode_live`. |
| LiveDiagnostics.EntryRecordShape | XcodeMonitor/swift_mcp_monitor.py:273-310 | A kept entry's record is built from that entry's fields, with the entry as `raw_metadata`. |
| LiveDiagnostics.CollectLength | XcodeMonitor/swift_mcp_monitor.py:274-310 | No more records than entries. |
| LiveDiagnostics.CollectShape | XcodeMonitor/swift_mcp_monitor.py:274-310 | Every record is an error or warning from `xcode_live`, built from one of the entries. |
| LiveDiagnostics.LiveBounded | XcodeMonitor/swift_mcp_monitor.py:273-293 | At most 20 live records, each an error or a warning from `xcode_live`. |
| LiveDiagnostics.StaleGivesNothing | XcodeMonitor/swift_mcp_monitor.py:245-252 | A missing directory, no file, or a file older than an hour gives no records. |
| LiveDiagnostics.NumberedSeverity | XcodeMonitor/swift_mcp_monitor.py:275 | The numeric layout gives an error exactly when the severity is an integer of at least 3. |
| LiveDiagnostics.ItemisedSeverity | XcodeMonitor/swift_mcp_monitor.py:294 | The itemised layout gives an error exactly when the lower-cased kind contains "error". |
| LiveDiagnostics.RelevanceFailOpen | XcodeMonitor/swift_mcp_monitor.py:271 | When neither path exists, the record is kept. |
| LiveDiagnostics.RelevanceWorkspaceFirst | XcodeMonitor/swift_mcp_monitor.py:266-267 | An existing workspace path decides alone, by containment in the root. |
| LiveDiagnostics.RelevanceByFile | XcodeMonitor/swift_mcp_monitor.py:269-270 | Otherwise an existing file path decides, by containment in the root. |
| MonitorDiagnostics.RecentLogs | XcodeMonitor/swift_mcp_monitor.py:333 | Exactly the activity logs younger than a day. |
| MonitorDiagnostics.AppendEach | XcodeMonitor/swift_mcp_monitor.py:343-360 | An appending loop adds at most one record per entry. |
| MonitorDiagnostics.AppendRecords | XcodeMonitor/swift_mcp_monitor.py:343-360 | The loop appends what `AppendEach` specifies, and reports whether it finished. |
| MonitorDiagnostics.CollectSliced | XcodeMonitor/swift_mcp_monitor.py:343-349 | One of the report's lists is cut to its cap and its records appended, exactly when neither the cut nor an entry raises. |
| MonitorDiagnostics.CollectIssues | XcodeMonitor/swift_mcp_monitor.py:342-360 | Appends the report's records exactly when reading it does not raise. |
| MonitorDiagnostics.CollectXclog | XcodeMonitor/swift_mcp_monitor.py:323-370 | Appends xclogparser's part exactly when it does not raise. |
| MonitorDiagnostics.CollectPlistRecords | XcodeMonitor/swift_mcp_monitor.py:379-401 | Appends the plist records, keeping those appended before a caught exception. |
| MonitorDiagnostics.CollectPlist | XcodeMonitor/swift_mcp_monitor.py:371-401 | Appends the build server's plist part exactly when reading `buildServer.json` does not raise. |
| MonitorDiagnostics.CollectSwiftPm | XcodeMonitor/swift_mcp_monitor.py:402-420 | Appends the SwiftPM part exactly when reading the log does not raise. |
| MonitorDiagnostics.GetDiagnostics | XcodeMonitor/swift_mcp_monitor.py:317-424 | The method computes `Diagnostics`. |
| MonitorDiagnostics.XclogRecordShape | XcodeMonitor/swift_mcp_monitor.py:344-360 | An xclogparser record has the given severity and source `xclogparser`. |
| MonitorDiagnostics.PlistRecordShape | XcodeMonitor/swift_mcp_monitor.py:393-399 | A plist record is an error or a warning from `diagnostics.plist`, naming its file by basename. |
| MonitorDiagnostics.NoLogRecordShape | XcodeMonitor/swift_mcp_monitor.py:363-370 | The stand-in record is an error from `xclogparser`. |
| MonitorDiagnostics.AppendEachShape | XcodeMonitor/swift_mcp_monitor.py:343-399 | Each record has its loop's shape: xclogparser error or warning, or a plist error or warning with a bare file name. |
| MonitorDiagnostics.BuildShape | XcodeMonitor/swift_mcp_monitor.py:344-399 | One entry's record has its loop's shape. |
| MonitorDiagnostics.IssuesShape | XcodeMonitor/swift_mcp_monitor.py:343-360 | At most 10 error records, then at most 5 warning records, all from `xclogparser`. |
| MonitorDiagnostics.SlicedShape | XcodeMonitor/swift_mcp_monitor.py:343-360 | One list gives at most its cap of records, each of its kind. |
| MonitorDiagnostics.XclogShape | XcodeMonitor/swift_mcp_monitor.py:328-370 | The stand-in record when xclogparser is installed and no log is recent; in every case either that record or errors (at most 10), then warnings (at most 5). |
| MonitorDiagnostics.PlistRecordsShape | XcodeMonitor/swift_mcp_monitor.py:385-399 | At most 15 plist records, each an error or warning with a bare file name. |
| MonitorDiagnostics.PlistShape | XcodeMonitor/swift_mcp_monitor.py:371-401 | The build server's part obeys the same bound and shape. |
| MonitorDiagnostics.SwiftPmShape | XcodeMonitor/swift_mcp_monitor.py:402-420 | At most 10 SwiftPM records, each an error or a warning. |
| MonitorDiagnostics.DiagnosticsOrder | XcodeMonitor/swift_mcp_monitor.py:317-421 | Records come in the order live, xclogparser, plist, SwiftPM (sources never interleave), at most 20+10+5+15+10 of them. |
| MonitorDiagnostics.RanksOf | XcodeMonitor/swift_mcp_monitor.py:322-420 | Concatenating the four sources in order gives non-decreasing source ranks. |
| MonitorDiagnostics.EscapingErrorEmpties | XcodeMonitor/swift_mcp_monitor.py:422-424 | An exception escaping any source returns `[]`. |
| MonitorCore.ProjectDirs | XcodeMonitor/swift_mcp_monitor.py:154-164 | There is always at least one directory to scan. |
| MonitorCore.ScanReportsOnce | XcodeMonitor/swift_mcp_monitor.py:169-177 | A scan starting with no changes lists each changed file once, even when the walk reaches it twice. |
| MonitorCore.ScanMeaning | XcodeMonitor/swift_mcp_monitor.py:169-177 | The map gains exactly the fingerprinted files, each with its current digest. A file is changed exactly when it was known with a different digest, so a first sighting is never reported and build products never enter the map. |
| MonitorCore.ScanConcat | XcodeMonitor/swift_mcp_monitor.py:166-169 | Scanning two file lists in turn is scanning their concatenation. |
| MonitorCore.ChangeRecords | XcodeMonitor/swift_mcp_monitor.py:181-186 | At most 5 records. |
| MonitorCore.ChangeReportShape | XcodeMonitor/swift_mcp_monitor.py:180-186 | Nothing is queued when nothing changed. Otherwise one `diagnostics` update, whose records name the first 5 changed files in order: `info`, line 1, basename, "File changed: basename". |
| MonitorCore.EmittedFirst | XcodeMonitor/swift_mcp_monitor.py:135-149 | A failing first step puts only its error; a succeeding one puts its update and continues. |
| MonitorCore.FirstFailure | XcodeMonitor/swift_mcp_monitor.py:135-149 | The index of the first step that raises. |
| MonitorCore.EmittedMeaning | XcodeMonitor/swift_mcp_monitor.py:135-149 | The steps before the first failure are put in order, then one `error` update if a step raised. |
| MonitorCore.TickIsEmitted | XcodeMonitor/swift_mcp_monitor.py:135-149 | The tick is the six-step emission. |
| MonitorCore.TickOrder | XcodeMonitor/swift_mcp_monitor.py:133-150 | Without exceptions, exactly six updates: status project, build_server, lsp, last_build, then diagnostics, then build_info. With one, the updates before it are kept and one error update follows. |
| MonitorCore.SwiftMonitor.constructor | XcodeMonitor/swift_mcp_monitor.py:97-102 | The root is the absolute path, or the working directory; the queue and map are empty; monitoring is on. |
| MonitorCore.SwiftMonitor.Stop | XcodeMonitor/swift_mcp_monitor.py:440-441 | Monitoring is off. |
| MonitorCore.SwiftMonitor.ScanFiles | XcodeMonitor/swift_mcp_monitor.py:169-177 | The innermost loop leaves the map and change list that `ScanAll` specifies. |
| MonitorCore.SwiftMonitor.ScanDirectory | XcodeMonitor/swift_mcp_monitor.py:167-177 | The extension loop leaves the map and change list `ScanAll` specifies. |
| MonitorCore.SwiftMonitor.ScanDirectories | XcodeMonitor/swift_mcp_monitor.py:166-177 | The loop over the project directories leaves the map and change list that `ScanAll` specifies over all their files. |
| MonitorCore.SwiftMonitor.FileMonitorCycle | XcodeMonitor/swift_mcp_monitor.py:151-190 | One pass updates the map to the cycle's and queues exactly its change report. |
| MonitorCore.SwiftMonitor.MonitorTick | XcodeMonitor/swift_mcp_monitor.py:133-150 | One tick appends exactly `TickUpdates` (default filter `True`) to the queue. |
| XcodeCore.First | XcodeMonitor/xcode_monitor_core.py:111-112 | The first element, `None` exactly for an empty list. |
| XcodeCore.FindWorkspaceAndProject | XcodeMonitor/xcode_monitor_core.py:106-113 | The first workspace and the first project, each `None` when absent. |
| XcodeCore.SchemeFlag | XcodeMonitor/xcode_monitor_core.py:122-124 | The first `-scheme` that has a successor; `None` exactly when there is none. |
| XcodeCore.SchemeAfterFlag | XcodeMonitor/xcode_monitor_core.py:116-125 | With an argument list, the scheme is the element right after the first `-scheme`. |
| XcodeCore.NoSchemeWithoutFlag | XcodeMonitor/xcode_monitor_core.py:116-125 | No configuration file, or no `-scheme` with a successor, gives `None`. |
| XcodeCore.SchemesHeader | XcodeMonitor/xcode_monitor_core.py:182-183 | The index of the first line whose stripped form starts with `Schemes:`. |
| XcodeCore.FirstNonBlank | XcodeMonitor/xcode_monitor_core.py:184-187 | The first non-empty stripped line, stripped; `None` exactly when all are blank. |
| XcodeCore.RepeatedSchemeKey | XcodeMonitor/xcode_monitor_core.py:120-125 | `arguments` given as a dict whose only key is `-scheme`, repeated or not, has one element to iterate and names no scheme, so the build uses `default`; `{"-scheme": 1, "-scheme": 2}` is such a dict. |
| XcodeCore.DetectScheme | XcodeMonitor/xcode_monitor_core.py:173-207 | A scheme found comes from the workspace listing or the project listing. |
| XcodeCore.WorkspaceSchemeFirst | XcodeMonitor/xcode_monitor_core.py:173-207 | The workspace's scheme wins; otherwise the project's is used. |
| XcodeCore.SchemeAfterHeader | XcodeMonitor/xcode_monitor_core.py:181-188 | The scheme is the first non-blank line after the first header, whatever follows. |
| XcodeCore.NoSchemeAfterBlanks | XcodeMonitor/xcode_monitor_core.py:184-188 | A header followed only by blank lines names no scheme. |
| XcodeCore.SchemeOrDefault | XcodeMonitor/xcode_monitor_core.py:214 | The scheme used is always truthy. |
| XcodeCore.KeptLinesMeaning | XcodeMonitor/xcode_monitor_core.py:230-232 | The output has no more lines than the input. Every output line is non-empty and the strip of some input line, and every non-blank input line's strip appears. |
| XcodeCore.FilterLines | XcodeMonitor/xcode_monitor_core.py:230-232 | The loop keeps exactly `KeptLines`. |
| XcodeCore.BuildMeaning | XcodeMonitor/xcode_monitor_core.py:210-236 | Without a target: `(False, ["No workspace or project found"])`. Otherwise the workspace, else the project, with the scheme or `default`; success iff exit code 0, with the non-blank stripped lines. A launch error gives "Build error: ...", and a scheme that is not a string gives the `TypeError` text naming its type. |
| XcodeCore.RunBuild | XcodeMonitor/xcode_monitor_core.py:210-236 | The line-by-line method returns what `Build` specifies, so BuildMeaning holds of it: no target gives `(False, ["No workspace or project found"])`; a non-string scheme gives the `TypeError` line ending in ", not <type>"; otherwise success iff exit code 0 with the non-blank lines stripped. |
| XcodeCore.PlistFailureContinues | XcodeMonitor/xcode_monitor_core.py:277-284 | A plist that fails adds one error record, and the plists after it are still read. |
| XcodeCore.PlistEntriesOf | XcodeMonitor/xcode_monitor_core.py:279-284 | A dict plist contributes its raw `diagnostics` entries; a non-dict gives one error record. |
| XcodeCore.PlistDictDiagnostics | XcodeMonitor/xcode_monitor_core.py:281-282 | A `diagnostics` dict contributes its keys, each once: `{"a": 1, "a": 2}` contributes `"a"` alone. |
| XcodeCore.PlistErrorTexts | XcodeMonitor/xcode_monitor_core.py:277-284 | A plist that is not a dict, or whose `diagnostics` cannot be iterated, gives one error record carrying the exception's own text after `Error parsing diagnostics.plist: `. |
| XcodeCore.SwiftPmReadErrorShown | XcodeMonitor/xcode_monitor_core.py:290-306 | An exception reading a recent SwiftPM log replaces all diagnostics by one record carrying its text after `Error getting diagnostics: `. |
| XcodeCore.CoreErrorIsOneRecord | XcodeMonitor/xcode_monitor_core.py:305-306 | An escaping exception gives exactly one error record. |
| XcodeCore.CoreOrder | XcodeMonitor/xcode_monitor_core.py:243-304 | Otherwise at most one xclogparser record, then every plist's entries, then at most 10 SwiftPM records. |
| XcodeCore.AppendPlist | XcodeMonitor/xcode_monitor_core.py:281-284 | The inner loop appends one plist's entries or its error record. |
| XcodeCore.CollectPlists | XcodeMonitor/xcode_monitor_core.py:277-284 | The outer loop appends every plist's contribution in order. |
| XcodeCore.GetCoreDiagnostics | XcodeMonitor/xcode_monitor_core.py:239-306 | The method computes `CoreDiagnostics`, in which a `diagnostics` dict contributes each of its keys once (PlistDictDiagnostics). |
| XcodeCore.XcodeMonitorCore.constructor | XcodeMonitor/xcode_monitor_core.py:18-20 | The root is the absolute path, or the working directory; monitoring is off. |
| XcodeCore.XcodeMonitorCore.StartMonitoring | XcodeMonitor/xcode_monitor_core.py:83-87 | Monitoring is on. |
| XcodeCore.XcodeMonitorCore.StopMonitoring | XcodeMonitor/xcode_monitor_core.py:89-93 | Monitoring is off. |
| XcodeCore.XcodeMonitorCore.SetProjectPath | XcodeMonitor/xcode_monitor_core.py:95-100 | The root becomes the absolute path, monitoring ends on, and the new root's string is returned. |
| XcodeCore.SetPathIdempotent | XcodeMonitor/xcode_monitor_core.py:95-103 | Setting the path a get returned changes nothing. |
| Terminal.CommandSetsDisjoint | XcodeMonitor/terminal_mcp_server.py:21-52 | No command is both allowed and blocked: the 23 blocked commands all lie outside the allow list. |
| Terminal.GateMeaning | XcodeMonitor/terminal_mcp_server.py:89-105 | A command passes iff it tokenises, is non-empty, its base is not blocked, and its base is allowed or absolute. Passing keeps the tokens. Empty gives "Empty command"; a blocked base gives the blocked message, before the allow list. |
| Terminal.GateSeesOnlyBase | XcodeMonitor/terminal_mcp_server.py:95-102 | Only the first token decides. |
| Terminal.BlockedProgramByPath | XcodeMonitor/terminal_mcp_server.py:98-102 | `/bin/rm -rf x` passes: the block list names commands, not programs. |
| Terminal.RememberMeaning | XcodeMonitor/terminal_mcp_server.py:153-161 | The history keeps the last 50 entries in order, ending with the new one. |
| Terminal.Resolved | XcodeMonitor/terminal_mcp_server.py:65 | `Path(s).resolve()` is a normalised path. |
| Terminal.ChangeDirMeaning | XcodeMonitor/terminal_mcp_server.py:62-71 | The directory changes iff the target, resolved against the process directory, is a directory; else it stays. The answer does not depend on the session directory. |
| Terminal.ChangeToReported | XcodeMonitor/terminal_mcp_server.py:62-71 | Changing to the string of the directory reached reaches it again. |
| Terminal.RefusedChangesNothing | XcodeMonitor/terminal_mcp_server.py:89-105 | A refused command runs nothing and changes nothing. |
| Terminal.RunHistory | XcodeMonitor/terminal_mcp_server.py:140-173 | Running never moves the session. It completes exactly when the command exits, recording command, directory and code; a timeout or error changes nothing. |
| Terminal.DispatchHistory | XcodeMonitor/terminal_mcp_server.py:112-173 | After the gate, the history stays within 50 and grows only by an exited command; `cd` is never recorded. |
| Terminal.ExecuteHistory | XcodeMonitor/terminal_mcp_server.py:77-173 | The same for the whole `execute_command`. |
| Terminal.CdRules | XcodeMonitor/terminal_mcp_server.py:113-138 | `cd` alone goes home with code 0. `cd` to a non-directory answers code 1 and changes nothing. |
| Terminal.RStripAll | XcodeMonitor/terminal_mcp_server.py:252 | Each line right-stripped, in place. |
| Terminal.TruncatedShape | XcodeMonitor/terminal_mcp_server.py:246-253 | With more lines than the limit: exactly that many stripped lines, then one marker. Otherwise every line, stripped. |
| Terminal.TruncateLines | XcodeMonitor/terminal_mcp_server.py:247-252 | The loop with its early exit computes `Truncated`. |
| Terminal.ReadLimits | XcodeMonitor/terminal_mcp_server.py:241-261 | Files over 1 MiB are refused. A read reports the file's size, and a positive limit smaller than the line count ends with the marker. |
| Terminal.WriteAsWrittenMeaning | XcodeMonitor/terminal_mcp_server.py:271-299 | As written, for every target: parents are made whenever asked; once that did not raise, the refusal comes exactly when `str(path)`, which keeps a two-slash root, starts with a listed prefix; the file is written exactly when mkdir, guard and write all let it through, answering its path and UTF-8 size. |
| Terminal.GuardBypass | XcodeMonitor/terminal_mcp_server.py:283-285 | As written, `/usr/../bin/x` is written although it lies in `/bin`. |
| Terminal.DoubleSlashString | XcodeMonitor/terminal_mcp_server.py:283-284 | `"//bin/x"` starts with none of the system prefixes. |
| Terminal.GuardBypassDoubleSlash | XcodeMonitor/terminal_mcp_server.py:274-294 | As written, `//bin/x` keeps its two slashes in `str(path)`, passes the guard and is written, reported as `//bin/x`, although it lies in `/bin`. |
| Terminal.GuardOverreach | XcodeMonitor/terminal_mcp_server.py:283-285 | As written, `/binaries/x` is refused although it lies in no system directory. |
| Terminal.DirsMadeBeforeGuard | XcodeMonitor/terminal_mcp_server.py:279-285 | As written, with `create_dirs` the parents of a refused `/bin/new/x` are made first. |
| Terminal.WriteGuarded | XcodeMonitor/terminal_mcp_server.py:271-299 | Corrected: a target that normalises into a system directory makes and writes nothing. Any other target is written iff making its parents (when asked) and writing succeed, and reports its UTF-8 size. |
| Terminal.GuardCorrected | XcodeMonitor/terminal_mcp_server.py:283-285 | The corrected guard refuses `/usr/../bin/x` and `//bin/x`, and writes `/binaries/x`. |
| Terminal.TerminalSession.constructor | XcodeMonitor/terminal_mcp_server.py:57-60 | A session starts at home with empty history. |
| Terminal.TerminalSession.UpdateWorkingDirectory | XcodeMonitor/terminal_mcp_server.py:62-71 | The answer and the new directory are `ChangeDir`'s. |
| Terminal.TerminalSession.ExecuteCommand | XcodeMonitor/terminal_mcp_server.py:77-173 | The response and the new session are `Execute`'s, and the history bound is kept. |
| Terminal.TerminalSession.DispatchCommand | XcodeMonitor/terminal_mcp_server.py:112-173 | The response and the new session are `Dispatch`'s. |
| Terminal.TerminalSession.GetWorkingDirectory | XcodeMonitor/terminal_mcp_server.py:176-178 | The string returned names the session directory. |
| Terminal.TerminalSession.ChangeDirectory | XcodeMonitor/terminal_mcp_server.py:181-192 | On success, the new directory's string; otherwise "Cannot change to directory: ..." and no change. |
| Terminal.TerminalSession.GetCommandHistory | XcodeMonitor/terminal_mcp_server.py:302-304 | The last `min(10, n)` entries, oldest first. |
| Terminal.TerminalSession.ReadFile | XcodeMonitor/terminal_mcp_server.py:228-268 | The method computes `ReadOutcome` relative to the session directory. |
| Terminal.TerminalSession.WriteFile | XcodeMonitor/terminal_mcp_server.py:271-299 | The method computes the corrected `WriteOutcome` relative to the session directory. |
| WorkingServer.Entries | XcodeMonitor/working_swift_mcp_server.py:121-125 | One entry per update, in order: its tag as `type`, the rest as `data`, and the thread stamp. |
| WorkingServer.EntriesAppend | XcodeMonitor/working_swift_mcp_server.py:118-125 | The entries of consecutive runs are consecutive. |
| WorkingServer.GetRecentUpdates | XcodeMonitor/working_swift_mcp_server.py:112-130 | The first `min(10, n)` updates leave the queue front first and come back as entries; the rest stay in order. |
| WorkingServer.DrainTwice | XcodeMonitor/working_swift_mcp_server.py:112-130 | Two calls return the first 20 updates in order; none is lost, repeated or reordered. |
| WorkingServer.ClearDiagnosticsQueue | XcodeMonitor/working_swift_mcp_server.py:132-142 | The queue ends empty; the count is the number of items it held. |
| WorkingServer.SetProjectPath | XcodeMonitor/working_swift_mcp_server.py:43-71 | A missing path: rejected with "Path does not exist: ..." and nothing changes. Otherwise the root is the absolute path, monitoring is on, and both paths are reported. The hashes are kept. |
| WorkingServer.DiagnosticsAnswerMeaning | XcodeMonitor/working_swift_mcp_server.py:73-79 | A result passes through; an exception becomes exactly one error record. |
| WorkingServer.GetDiagnosticsTool | XcodeMonitor/working_swift_mcp_server.py:73-79 | The collector's result with its default flag. |
| ResourceServer.SetProjectPath | XcodeMonitor/swift_mcp_server.py:43-47 | Only the root changes, to the absolute path; the reported path names it. |
| ResourceServer.GetDiagnosticsTool | XcodeMonitor/swift_mcp_server.py:27-30 | The collector with the root's string as the flag. |
| ResourceServer.DiagnosticsResource.constructor | XcodeMonitor/swift_mcp_server.py:52-54 | The resource holds the monitor. |
| ResourceServer.DiagnosticsResource.List | XcodeMonitor/swift_mcp_server.py:56-62 | Exactly one descriptor, `current`, whose project path is the monitor's root. |
| ResourceServer.DiagnosticsResource.Get | XcodeMonitor/swift_mcp_server.py:64-79 | `current` gives its id and the diagnostics; any other id raises `KeyError`. |
| ResourceServer.DiagnosticsResource.WatchAsWritten | XcodeMonitor/swift_mcp_server.py:97 | As written, `watch` always raises `NameError`. |
| ResourceServer.DiagnosticsResource.Watch | XcodeMonitor/swift_mcp_server.py:81-97 | Corrected: a fresh watcher over the monitor's queue, nothing sent yet, `last_sent` still `None`. |
| ResourceServer.WatchAllStep | XcodeMonitor/swift_mcp_server.py:84-96 | One more update, with its `notify` outcome, extends the run by one turn of the loop. |
| ResourceServer.OtherUpdatesDropped | XcodeMonitor/swift_mcp_server.py:86-88 | Non-diagnostics updates change nothing sent and leave `last_sent` alone. |
| ResourceServer.WatchAllMeaning | XcodeMonitor/swift_mcp_server.py:86-92 | Everything `notify` is called with is the list of some diagnostics update of the run. |
| ResourceServer.WatchAllLast | XcodeMonitor/swift_mcp_server.py:83-96 | The first list sent differs from the initial `last_sent`; `last_sent` stays as it was until something is sent, and is always the initial value or a list whose `notify` returned. |
| ResourceServer.WatchAllDistinct | XcodeMonitor/swift_mcp_server.py:89-94 | When `notify` never raises, no two consecutive sends are equal and the last one sent is `last_sent`. |
| ResourceServer.Watcher.constructor | XcodeMonitor/swift_mcp_server.py:83 | `last_sent` starts as `None`, nothing sent. |
| ResourceServer.Watcher.Step | XcodeMonitor/swift_mcp_server.py:86-96 | One loop body: a diagnostics list unequal to `last_sent` is passed to `notify`, and becomes `last_sent` only when `notify` returns; anything else changes nothing. |
| ResourceServer.SendsStep | XcodeMonitor/swift_mcp_server.py:89-94 | The reference definition grows by one list at a time. |
| ResourceServer.WatchAllSends | XcodeMonitor/swift_mcp_server.py:84-96 | Against an independent definition: the watcher sends exactly the diagnostics lists of the run that differ from the last list whose `notify` returned (the initial `last_sent` when none has), and ends remembering that list. |
| ResourceServer.ResentAfterRaise | XcodeMonitor/swift_mcp_server.py:89-96 | A list whose `notify` raised is sent again when it comes once more, while a delivered one is not; a first payload of `None` is never sent. |
| ResourceServer.Watcher.Consume | XcodeMonitor/swift_mcp_server.py:84-96 | Draining the queue, with one `notify` outcome per update, sends exactly `WatchAll` of its items, leaves `last_sent` as `WatchAll` says, and empties the queue. |

## Left out

- Threads, `time.sleep`, `join_threads` and the `while self.monitoring` loops. One pass of each loop is a method. The watcher's endless loop is modelled as draining the updates already queued.
- Concurrent consumers of the queue. The error branch of `get_recent_updates` is reachable only when another consumer empties the queue between `empty()` and `get_nowait()`, so it is not modelled.
- Subprocesses (`xcrun`, `plutil`, `xclogparser`, `xcodebuild`, `which`, the shell of `execute_command`). Their exit codes and output, or the exception they raise, are inputs.
- The file system: glob/rglob, `stat`, `exists`, `is_dir`, `Path.home()`, `os.getcwd()`, opening and reading files. These are given listings with integer ages, predicates and outcome values. Symbolic links are not resolved, and `resolve()` is lexical.
- The `notify` callback the caller gives `watch`. What it does is outside the model; whether each call returns or raises is an input, one per update.
- Timeout of a wait (`queue.get(timeout=10)`) and the 30-second `subprocess.run` timeout, which appear only as an outcome.
- MD5, `json.dumps`/`json.loads`, `plistlib` and `shlex.split`. These are abstract functions or inputs. The JSON codec's round-trip law is an assumption about Python's `json`, stated as the predicate `Sound`.
- The SwiftPM regular expression. Its matches are inputs, since `[^:]+` can span lines.
- Floating-point times. Ages are whole seconds, and the "minutes/hours ago" text of `check_recent_builds` is not modelled.
- The status probes `check_project_status`, `check_build_server`, `check_lsp_status`, `check_recent_builds` and `get_build_details`. Each is a string result or an exception given to the tick. Their emoji strings are not modelled.
- `ensure_build_server_config`, `get_build_server_status`, `get_project_status`, `get_lsp_status`, `list_directory`, `get_system_info`, `find_xcode_projects`, `get_xcode_live_diagnostics` as a tool, and `get_project_path` as a tool. These are wrappers or system queries outside the core.
- The shadowed first definitions in `xcode_monitor_core.py` (lines 25-62), which lines 83-100 override.
- The Tk viewer and inspector, the lock-file singleton, FastMCP registration and `mcp.run`.
- The environment copy the session keeps for subprocesses.
- `str.lower()` beyond ASCII letters.
- Dict key order, repeated keys and mixed numbers. A decoded dict is a list of members that may repeat a key; lookups take the last value and iteration lists each key once, as Python's dict does. Python compares dicts without regard to order or to members a later one overrode, and counts `True == 1`, while the model compares values structurally. The watcher's duplicate test is therefore the stricter one where two equal lists differ only in key order, in repeated keys, or in a boolean against an integer. For the same reason `Sound` asks `json.loads(json.dumps(j)) == j` also of values with repeated keys, which Python cannot hold; the monitor only sends messages it builds itself, whose keys do not repeat.
- The `UnicodeDecodeError` branch of `read_file`. It is unreachable with `errors='ignore'`, and the decoding itself is part of the given lines.
- LiveDiagnostics.AsciiLower: only ASCII letters are lowered, because Unicode case mapping is not modelled.
- LiveDiagnostics.AtLeastThree: JSON and property-list floats are not modelled, so a severity such as `3.0` (an error) or `2.5` (a warning) cannot be given; the decoded values are null, booleans, integers, strings, lists and dicts.
- LiveDiagnostics.NumberedSeverity: for the same reason, stated for integer and boolean severities only.
- LiveDiagnostics.PathArgument: an integer or boolean `file` or workspace value is treated as a path that does not exist. Python would `stat` it as a file descriptor, which is not modelled.
- Paths.AbsPath: `os.path.abspath` keeps a root of exactly two slashes, which the model collapses to one. A root set from such a string (`MonitorCore.SwiftMonitor.constructor`, `XcodeCore.XcodeMonitorCore.constructor`, `XcodeCore.XcodeMonitorCore.SetProjectPath`, `WorkingServer.SetProjectPath`, `ResourceServer.SetProjectPath`) prints with one slash here and two in Python. Python's `commonpath` relevance test then never matches, because `commonpath` answers with one slash; the model tests component containment and keeps those diagnostics. `Path.resolve()` collapses the root in Python too, so the terminal's `cd` is exact.
- Strings.ParseInt: only ASCII digits are accepted. Python's `int` also reads other Unicode decimal digits.
- Exception texts that only choose a branch or reach a `print` (the collectors and live diagnostics of `swift_mcp_monitor.py`, the LSP client) are fixed labels such as `TypeError: ...` or `OSError`, not Python's full message. Where a text lands in a returned record, as in `get_diagnostics` of `xcode_monitor_core.py`, it is Python's `str(e)` for the exceptions the model raises itself; the text of an exception from reading a file or running `plistlib` is an input.
- The `TypeError` texts for a path of another type are those of `os.fspath` (`expected str, bytes or os.PathLike object, not int`). `Path(...)` words it differently from Python 3.12 on.

## Findings

| source | as written | input that shows it | evidently intended | confidence | as-written member | corrected member |
|---|---|---|---|---|---|---|
| XcodeMonitor/terminal_mcp_server.py:283-285 | The guard tests the un-normalised path string for a prefix, so `..` walks past it. | `write_file("/usr/../bin/x", ...)` writes into `/bin`. | Refuse any target that normalises into a system directory. | not executed | Terminal.GuardBypass | Terminal.WriteGuarded |
| XcodeMonitor/terminal_mcp_server.py:274-285 | `str(path)` keeps a root of exactly two slashes, which no prefix matches. | `write_file("//bin/x", ...)` writes `/bin/x`. | Refuse any target that normalises into a system directory. | not executed | Terminal.GuardBypassDoubleSlash | Terminal.GuardCorrected |
| XcodeMonitor/terminal_mcp_server.py:283-285 | A string prefix also matches directories that only share leading letters. | `write_file("/binaries/x", ...)` is refused. | Compare whole path components. | not executed | Terminal.GuardOverreach | Terminal.GuardCorrected |
| XcodeMonitor/terminal_mcp_server.py:279-285 | `mkdir(parents=True)` runs before the guard. | `write_file("/bin/new/x", ..., create_dirs=True)` creates `/bin/new` and is then refused. | Check the guard before changing the file system. | not executed | Terminal.DirsMadeBeforeGuard | Terminal.TerminalSession.WriteFile |
| XcodeMonitor/swift_mcp_server.py:97 | `threading` is used but never imported. | Any call of `watch` raises `NameError`, and no notification is ever sent. | Start the watcher thread. | not executed | ResourceServer.DiagnosticsResource.WatchAsWritten | ResourceServer.DiagnosticsResource.Watch |
