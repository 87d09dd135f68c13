/** The client for the language server (`sourcekit-lsp`): base-protocol
    framing (`Content-Length: N\r\n\r\n` followed by a UTF-8 body of N
    bytes), the reading of one response, and the `LspClient` object with its
    increasing request id, its handshake and its shutdown sequence.

    The subordinate process is represented by two byte streams: `written`,
    everything the client has written to its stdin, and `pending`, what it has
    written to its stdout that the client has not read yet. */
module Lsp {
  import opened Common
  import opened Strings
  import opened Utf8
  import opened JsonValues

  const ContentLengthKey: string := "Content-Length"

  /** The header block announcing a body of `n` bytes. */
  function Header(n: nat): string {
    ContentLengthKey + ": " + NatToString(n) + "\r\n\r\n"
  }

  /** The bytes written for one JSON text `body`: the header, whose count is
      the UTF-8 length of the body, then the body. */
  function Frame(body: string): seq<Byte> {
    Encode(Header(|Encode(body)|)) + Encode(body)
  }

  /** `params or {}`. */
  function ParamsOrEmpty(params: Json): Json {
    if Truthy(params) then params else JObject([])
  }

  function RequestMessage(id: nat, name: string, params: Json): (m: Json)
    ensures HasKey(m, "id")
  {
    var ms := [("jsonrpc", JString("2.0")), ("id", JInt(id)), ("method", JString(name)),
               ("params", ParamsOrEmpty(params))];
    assert ms[1].0 == "id";
    JObject(ms)
  }

  function NotificationMessage(name: string, params: Json): Json {
    JObject([("jsonrpc", JString("2.0")), ("method", JString(name)), ("params", ParamsOrEmpty(params))])
  }

  /** A notification carries no `id` member. */
  lemma NotificationHasNoId(name: string, params: Json)
    ensures !HasKey(NotificationMessage(name, params), "id")
  {
  }

  /** The `initialize` parameters: process id, root URI and capabilities. */
  function InitializeParams(pid: int, cwd: string): Json {
    JObject([
      ("processId", JInt(pid)),
      ("rootUri", JString("file://" + cwd)),
      ("capabilities", JObject([("textDocument", JObject([("diagnostic",
        JObject([("dynamicRegistration", JBool(true))]))]))]))])
  }

  // Reading

  /** `readline()`: the bytes up to and including the first newline, or all
      that remain; the empty line at the end of the stream. */
  function ReadLine(s: seq<Byte>): (r: (seq<Byte>, seq<Byte>))
    ensures r.0 + r.1 == s
    ensures s != [] ==> r.0 != []
  {
    if s == [] then ([], [])
    else if s[0] == 10 then ([s[0]], s[1..])
    else
      var (line, rest) := ReadLine(s[1..]);
      ([s[0]] + line, rest)
  }

  const ReadLengthError := "ValueError: read length must be non-negative or -1"

  /** `read(n)` on the buffered pipe: at most `n` bytes, fewer at the end of
      the stream; `-1` reads everything that remains, and a count below
      `-1` raises `ValueError` before anything is read. */
  function ReadN(s: seq<Byte>, n: int): (r: Result<(seq<Byte>, seq<Byte>)>)
    ensures r.Ok? ==> r.value.0 + r.value.1 == s
  {
    if n < -1 then Err(ReadLengthError)
    else if n == -1 || n >= |s| then Ok((s, []))
    else Ok((s[..n], s[n..]))
  }

  /** `read(n)` takes exactly `n` bytes when that many remain, everything
      that remains when fewer do or `n` is `-1`, and raises for any count
      below `-1`. */
  lemma ReadNTakes(s: seq<Byte>, n: int)
    ensures 0 <= n <= |s| ==> ReadN(s, n) == Ok((s[..n], s[n..]))
    ensures n == -1 || n >= |s| ==> ReadN(s, n) == Ok((s, []))
    ensures n < -1 <==> ReadN(s, n) == Err(ReadLengthError)
  {
  }

  /** Reading as many bytes as a stream's first part holds takes exactly
      that part. */
  lemma ReadNPrefix(a: seq<Byte>, b: seq<Byte>)
    ensures ReadN(a + b, |a|) == Ok((a, b))
  {
    if b != [] {
      assert (a + b)[..|a|] == a && (a + b)[|a|..] == b;
    } else {
      assert a + b == a;
    }
  }

  /** What reading the header block leaves: the headers or the exception,
      and the unread stream. */
  datatype HeaderRead = HeaderRead(headers: Result<map<string, string>>, rest: seq<Byte>)

  /** The header loop of `read_response`: read a line, decode and strip it,
      stop at the first empty one; otherwise split it at the first `": "`
      (a `ValueError` when there is none) and record the pair, the later of
      two equal keys winning. */
  function ReadHeaders(s: seq<Byte>, headers: map<string, string>): (r: HeaderRead)
    ensures |r.rest| <= |s|
    decreases |s|
  {
    if s == [] then HeaderRead(Ok(headers), [])
    else
      var (raw, rest) := ReadLine(s);
      match Decode(raw)
      case None => HeaderRead(Err("UnicodeDecodeError"), rest)
      case Some(text) =>
        var line := Strip(text);
        if line == [] then HeaderRead(Ok(headers), rest)
        else match SplitOnce(line, ": ")
          case None => HeaderRead(Err("ValueError: not enough values to unpack"), rest)
          case Some((k, v)) => ReadHeaders(rest, headers[k := v])
  }

  /** `int(headers.get('Content-Length', 0))`. */
  function ContentLength(headers: map<string, string>): Result<int> {
    if ContentLengthKey in headers then
      match ParseInt(headers[ContentLengthKey])
      case None => Err("ValueError: invalid literal for int()")
      case Some(n) => Ok(n)
    else Ok(0)
  }

  datatype ResponseRead = ResponseRead(response: Result<Option<Json>>, rest: seq<Byte>)

  /** `read_response`: the headers, then exactly the announced number of
      bytes as the body; an empty body is `None`, any other the decoded
      JSON value. */
  function ReadResponseFrom(codec: Codec, s: seq<Byte>): (r: ResponseRead)
    ensures |r.rest| <= |s|
  {
    var h := ReadHeaders(s, map[]);
    match h.headers
    case Err(e) => ResponseRead(Err(e), h.rest)
    case Ok(headers) =>
      match ContentLength(headers)
      case Err(e) => ResponseRead(Err(e), h.rest)
      case Ok(n) =>
        match ReadN(h.rest, n)
        case Err(e) => ResponseRead(Err(e), h.rest)
        case Ok((body, rest)) =>
        match Decode(body)
        case None => ResponseRead(Err("UnicodeDecodeError"), rest)
        case Some(text) =>
          if text == [] then ResponseRead(Ok(None), rest)
          else match codec.loads(text)
            case None => ResponseRead(Err("JSONDecodeError"), rest)
            case Some(j) => ResponseRead(Ok(Some(j)), rest)
  }

  // Properties of the framing

  lemma {:induction false} ReadLineOfLine(a: seq<Byte>, b: seq<Byte>)
    requires a != [] && a[|a| - 1] == 10
    requires forall i :: 0 <= i < |a| - 1 ==> a[i] != 10
    ensures ReadLine(a + b) == (a, b)
  {
    if |a| > 1 {
      assert (a + b)[1..] == a[1..] + b;
      ReadLineOfLine(a[1..], b);
      assert [a[0]] + a[1..] == a;
    } else {
      assert (a + b)[1..] == b;
    }
  }

  /** The one header line of a frame, without its line terminator. */
  function HeaderField(n: nat): string {
    ContentLengthKey + ": " + NatToString(n)
  }

  lemma HeaderFieldParts(n: nat)
    ensures SplitOnce(HeaderField(n), ": ") == Some((ContentLengthKey, NatToString(n)))
  {
    var t := HeaderField(n);
    assert forall j :: 0 <= j < 14 ==> ContentLengthKey[j] != ':';
    forall j | 0 <= j < 14 ensures !OccursAt(t, ": ", j) {
      assert t[j] == ContentLengthKey[j];
      assert j + 2 <= |t| ==> t[j..j + 2][0] == t[j];
    }
    SplitOnceAt(ContentLengthKey, ": ", NatToString(n));
  }

  lemma AsciiLine(t: string, rest: seq<Byte>)
    requires IsAscii(t) && t != [] && t[|t| - 1] == '\n'
    requires forall i :: 0 <= i < |t| - 1 ==> t[i] != '\n'
    ensures ReadLine(Encode(t) + rest) == (Encode(t), rest)
  {
    EncodeAscii(t);
    ReadLineOfLine(Encode(t), rest);
  }

  /** The first line of a frame's header: read whole, decoded, stripped to
      the header field, and split at its `": "`. */
  lemma FirstHeaderLine(n: nat, after: seq<Byte>)
    ensures var line := HeaderField(n) + "\r\n";
      && ReadLine(Encode(line) + after) == (Encode(line), after)
      && Decode(Encode(line)) == Some(line)
      && Strip(line) == HeaderField(n)
  {
    var d := NatToString(n);
    var t := HeaderField(n);
    var line := t + "\r\n";
    assert IsAscii(line) && forall i :: 0 <= i < |line| - 1 ==> line[i] != '\n' by {
      forall i | 0 <= i < |line| ensures line[i] as int < 0x80 && (i < |line| - 1 ==> line[i] != '\n') {
        if 16 <= i < 16 + |d| { assert line[i] == d[i - 16]; }
      }
    }
    AsciiLine(line, after);
    DecodeEncode(line);
    assert t[0] == 'C' && t[|t| - 1] == d[|d| - 1];
    StripPadded(t, "\r\n");
  }

  /** The blank line closing a frame's header block. */
  lemma BlankHeaderLine(after: seq<Byte>, headers: map<string, string>)
    ensures ReadHeaders(Encode("\r\n") + after, headers) == HeaderRead(Ok(headers), after)
  {
    var line := "\r\n";
    assert IsAscii(line);
    AsciiLine(line, after);
    DecodeEncode(line);
    StripAllSpace(line);
  }

  /** One turn of the header loop on a line that holds a header. */
  lemma HeaderStep(s: seq<Byte>, headers: map<string, string>, raw: seq<Byte>, rest: seq<Byte>, text: string)
    requires ReadLine(s) == (raw, rest) && Decode(raw) == Some(text)
    requires Strip(text) != [] && SplitOnce(Strip(text), ": ").Some?
    ensures var kv := SplitOnce(Strip(text), ": ").value;
      ReadHeaders(s, headers) == ReadHeaders(rest, headers[kv.0 := kv.1])
  {
  }

  lemma Reassociate(a: seq<Byte>, b: seq<Byte>, c: seq<Byte>, d: seq<Byte>)
    ensures (a + b) + c + d == a + (b + (c + d))
  {
  }

  /** The header block of a frame reads back as exactly one header,
      `Content-Length`, whose value is the decimal byte count, and it leaves
      the stream at the first byte of the body. */
  lemma HeadersOfFrame(body: string, rest: seq<Byte>)
    ensures var n := |Encode(body)|;
      ReadHeaders(Frame(body) + rest, map[]) == HeaderRead(Ok(map[ContentLengthKey := NatToString(n)]), Encode(body) + rest)
  {
    var n := |Encode(body)|;
    var line1 := HeaderField(n) + "\r\n";
    var line2 := "\r\n";
    assert Header(n) == line1 + line2;
    EncodeConcat(line1, line2);
    var e1, e2, eb := Encode(line1), Encode(line2), Encode(body);
    assert Encode(Header(n)) == e1 + e2;
    var after1 := e2 + (eb + rest);
    assert Frame(body) + rest == (e1 + e2) + eb + rest;
    Reassociate(e1, e2, eb, rest);
    var hs := map[ContentLengthKey := NatToString(n)];
    FirstHeaderLine(n, after1);
    HeaderFieldParts(n);
    HeaderStep(Encode(line1) + after1, map[], Encode(line1), after1, line1);
    BlankHeaderLine(Encode(body) + rest, hs);
  }

  /** The framing round trip: reading from a stream that starts with the
      frame of `dumps(m)` yields `m` and leaves the stream just after it. */
  lemma FrameRoundTrip(codec: Codec, m: Json, rest: seq<Byte>)
    requires Sound(codec)
    ensures ReadResponseFrom(codec, Frame(codec.dumps(m)) + rest) == ResponseRead(Ok(Some(m)), rest)
  {
    var body := codec.dumps(m);
    HeadersOfFrame(body, rest);
    ParseIntOfNatToString(|Encode(body)|);
    ReadNPrefix(Encode(body), rest);
    DecodeEncode(body);
  }

  /** A `Content-Length` below `-1` makes the read of the body raise, with
      nothing of the body consumed. */
  lemma LengthBelowMinusOneRaises(codec: Codec, s: seq<Byte>, n: int)
    requires ReadHeaders(s, map[]).headers.Ok?
    requires ContentLength(ReadHeaders(s, map[]).headers.value) == Ok(n) && n < -1
    ensures ReadResponseFrom(codec, s) == ResponseRead(Err(ReadLengthError), ReadHeaders(s, map[]).rest)
  {
    assert ReadN(ReadHeaders(s, map[]).rest, n) == Err(ReadLengthError);
  }

  /** `Content-Length: -2` is read as the count `-2`. */
  lemma ContentLengthMinusTwo()
    ensures ContentLength(map[ContentLengthKey := "-2"]) == Ok(-2)
  {
    ParseIntNegative("-2");
    assert DigitsValue("-2"[1..]) == 2 by {
      assert "-2"[1..] == "2";
      assert DigitsValue("2") == DigitsValue([]) * 10 + 2;
    }
  }

  /** Without a `Content-Length` header nothing more is read and the
      response is `None`. */
  lemma NoContentLengthReadsNothing(codec: Codec, s: seq<Byte>)
    requires ReadHeaders(s, map[]).headers.Ok?
    requires ContentLengthKey !in ReadHeaders(s, map[]).headers.value
    ensures ReadResponseFrom(codec, s) == ResponseRead(Ok(None), ReadHeaders(s, map[]).rest)
  {
    var h := ReadHeaders(s, map[]);
    assert ReadN(h.rest, 0) == Ok(([], h.rest));
  }

  /** A header line whose stripped text has no `": "` makes the read raise,
      with the stream left after that line. */
  lemma MalformedHeaderRaises(codec: Codec, line: string, rest: seq<Byte>, headers: map<string, string>)
    requires line != [] && line[|line| - 1] == '\n'
    requires forall i :: 0 <= i < |line| - 1 ==> line[i] != '\n'
    requires Strip(line) != [] && SplitOnce(Strip(line), ": ").None?
    ensures ReadHeaders(Encode(line) + rest, headers).headers.Err?
    ensures ReadHeaders(Encode(line) + rest, headers).rest == rest
  {
    EncodeLineBreaks(line);
    ReadLineOfLine(Encode(line), rest);
    DecodeEncode(line);
  }

  /** Header reading stops at the first line that is empty once stripped. */
  lemma BlankLineEndsHeaders(line: string, rest: seq<Byte>, headers: map<string, string>)
    requires line != [] && line[|line| - 1] == '\n'
    requires forall i :: 0 <= i < |line| - 1 ==> line[i] != '\n'
    requires Strip(line) == []
    ensures ReadHeaders(Encode(line) + rest, headers) == HeaderRead(Ok(headers), rest)
  {
    EncodeLineBreaks(line);
    ReadLineOfLine(Encode(line), rest);
    DecodeEncode(line);
  }

  /** A text line ending in its only `\n` encodes to bytes ending in their
      only newline byte (continuation and lead bytes are all >= 0x80). */
  lemma {:induction false} EncodeLineBreaks(line: string)
    requires line != [] && line[|line| - 1] == '\n'
    requires forall i :: 0 <= i < |line| - 1 ==> line[i] != '\n'
    ensures Encode(line) != [] && Encode(line)[|Encode(line)| - 1] == 10
    ensures forall i :: 0 <= i < |Encode(line)| - 1 ==> Encode(line)[i] != 10
  {
    var init := line[..|line| - 1];
    assert line == init + "\n";
    EncodeConcat(init, "\n");
    NoNewlineByte(init);
  }

  lemma {:induction false} NoNewlineByte(s: string)
    requires forall i :: 0 <= i < |s| ==> s[i] != '\n'
    ensures forall i :: 0 <= i < |Encode(s)| ==> Encode(s)[i] != 10
  {
    if s != [] {
      var e := EncodeChar(s[0]);
      assert forall i :: 0 <= i < |e| ==> e[i] != 10;
      NoNewlineByte(s[1..]);
      assert Encode(s) == e + Encode(s[1..]);
    }
  }

  /** Whether `initialize` received a truthy response. */
  predicate Acknowledged(got: ResponseRead) {
    got.response.Ok? && got.response.value.Some? && Truthy(got.response.value.value)
  }

  /** The framed `initialize` request with id `id`. */
  function InitializeRequest(codec: Codec, id: nat, pid: int, cwd: string): seq<Byte> {
    Frame(codec.dumps(RequestMessage(id, "initialize", InitializeParams(pid, cwd))))
  }

  /** The framed `initialized` notification when the handshake was
      acknowledged, nothing otherwise. */
  function InitializedNotice(codec: Codec, acknowledged: bool): seq<Byte> {
    if acknowledged then Frame(codec.dumps(NotificationMessage("initialized", JObject([])))) else []
  }

  // The client object

  class LspClient {
    const codec: Codec
    var hasProcess: bool
    var terminated: bool
    var messageId: nat
    var written: seq<Byte>
    var pending: seq<Byte>

    /** `LSPClient()`: no process, id counter 0. */
    constructor (codec: Codec)
      ensures this.codec == codec
      ensures !hasProcess && !terminated && messageId == 0 && written == [] && pending == []
    {
      this.codec := codec;
      hasProcess, terminated, messageId := false, false, 0;
      written, pending := [], [];
    }

    /** `read_response`. */
    method ReadResponse() returns (r: Result<Option<Json>>)
      modifies this`pending
      ensures ResponseRead(r, pending) == ReadResponseFrom(codec, old(pending))
    {
      var headers: map<string, string> := map[];
      while true
        invariant ReadHeaders(old(pending), map[]) == ReadHeaders(pending, headers)
        decreases |pending|
      {
        if pending == [] { break; }
        var (raw, rest) := ReadLine(pending);
        pending := rest;
        var text := Decode(raw);
        if text.None? {
          r := Err("UnicodeDecodeError");
          return;
        }
        var line := Strip(text.value);
        if line == [] { break; }
        var kv := SplitOnce(line, ": ");
        if kv.None? {
          r := Err("ValueError: not enough values to unpack");
          return;
        }
        headers := headers[kv.value.0 := kv.value.1];
      }
      var n := ContentLength(headers);
      if n.Err? {
        r := Err(n.error);
        return;
      }
      var read := ReadN(pending, n.value);
      if read.Err? {
        r := Err(read.error);
        return;
      }
      var (body, rest) := read.value;
      pending := rest;
      var content := Decode(body);
      if content.None? {
        r := Err("UnicodeDecodeError");
      } else if content.value == [] {
        r := Ok(None);
      } else {
        var j := codec.loads(content.value);
        r := if j.None? then Err("JSONDecodeError") else Ok(Some(j.value));
      }
    }

    /** `send_request`: the id is incremented first (even when there is no
        process to write to), then the framed request is written and one
        response read. */
    method SendRequest(name: string, params: Json) returns (r: Result<Option<Json>>)
      modifies this
      ensures messageId == old(messageId) + 1
      ensures hasProcess == old(hasProcess) && terminated == old(terminated)
      ensures !hasProcess ==> r.Err? && written == old(written) && pending == old(pending)
      ensures hasProcess ==>
        && written == old(written) + Frame(codec.dumps(RequestMessage(messageId, name, params)))
        && ResponseRead(r, pending) == ReadResponseFrom(codec, old(pending))
    {
      messageId := messageId + 1;
      ghost var before := pending;
      if !hasProcess {
        r := Err("AttributeError: 'NoneType' object has no attribute 'stdin'");
        return;
      }
      var message := codec.dumps(RequestMessage(messageId, name, params));
      written := written + Frame(message);
      r := ReadResponse();
    }

    /** `send_notification`: no id, the counter is left alone. */
    method SendNotification(name: string, params: Json) returns (r: Result<()>)
      modifies this`written
      ensures !hasProcess ==> r.Err? && written == old(written)
      ensures hasProcess ==> r.Ok? && written == old(written) + Frame(codec.dumps(NotificationMessage(name, params)))
    {
      if !hasProcess {
        return Err("AttributeError: 'NoneType' object has no attribute 'stdin'");
      }
      var message := codec.dumps(NotificationMessage(name, params));
      written := written + Frame(message);
      r := Ok(());
    }

    /** `initialize`: the `initialized` notification follows only a truthy
        response to the `initialize` request. */
    method Initialize(pid: int, cwd: string) returns (r: Result<bool>)
      modifies this
      ensures messageId == old(messageId) + 1
      ensures hasProcess == old(hasProcess) && terminated == old(terminated)
      ensures !hasProcess ==> r.Err? && written == old(written) && pending == old(pending)
      ensures hasProcess ==>
        var got := ReadResponseFrom(codec, old(pending));
        && pending == got.rest
        && r == (if got.response.Err? then Err(got.response.error) else Ok(Acknowledged(got)))
        && written == old(written) + InitializeRequest(codec, messageId, pid, cwd) + InitializedNotice(codec, Acknowledged(got))
    {
      var params := InitializeParams(pid, cwd);
      var response := SendRequest("initialize", params);
      var acknowledged := response.Ok? && response.value.Some? && Truthy(response.value.value);
      if acknowledged {
        var sent := SendNotification("initialized", JObject([]));
      }
      r := if response.Err? then Err(response.error) else Ok(acknowledged);
    }

    /** `start`: launch the process (`launched` is whether `Popen`
        succeeded, `output` what the process will write) and run the
        handshake. It answers `true` whenever the handshake did not raise,
        whether or not a response came back. */
    method Start(launched: bool, output: seq<Byte>, pid: int, cwd: string) returns (ok: bool)
      modifies this
      ensures !launched ==>
        !ok && hasProcess == old(hasProcess) && terminated == old(terminated) && written == old(written)
        && pending == old(pending) && messageId == old(messageId)
      ensures launched ==>
        var got := ReadResponseFrom(codec, output);
        && hasProcess && !terminated && messageId == old(messageId) + 1 && pending == got.rest
        && (ok <==> got.response.Ok?)
        && written == InitializeRequest(codec, messageId, pid, cwd) + InitializedNotice(codec, Acknowledged(got))
    {
      if !launched {
        return false;
      }
      hasProcess, terminated := true, false;
      written, pending := [], output;
      var init := Initialize(pid, cwd);
      ok := init.Ok?;
      assert [] + InitializeRequest(codec, messageId, pid, cwd) == InitializeRequest(codec, messageId, pid, cwd);
    }

    /** `shutdown`: with a process, the `shutdown` request, then the `exit`
        notification, then termination; nothing at all without one. An
        exception while reading the reply stops the sequence there. */
    method Shutdown() returns (r: Result<()>)
      modifies this
      ensures !old(hasProcess) ==>
        r.Ok? && messageId == old(messageId) && written == old(written)
        && pending == old(pending) && terminated == old(terminated) && !hasProcess
      ensures old(hasProcess) ==>
        var request := Frame(codec.dumps(RequestMessage(messageId, "shutdown", JNull)));
        var got := ReadResponseFrom(codec, old(pending));
        && hasProcess && messageId == old(messageId) + 1 && pending == got.rest
        && (got.response.Err? ==> r.Err? && written == old(written) + request && terminated == old(terminated))
        && (got.response.Ok? ==>
              r.Ok? && terminated
              && written == old(written) + request + Frame(codec.dumps(NotificationMessage("exit", JNull))))
    {
      if !hasProcess {
        return Ok(());
      }
      var response := SendRequest("shutdown", JNull);
      if response.Err? {
        return Err(response.error);
      }
      var sent := SendNotification("exit", JNull);
      terminated := true;
      r := Ok(());
    }
  }
}
