/**
 * The TCP worker of the ESP32 panel thread (`TaskTcpClient::run` and
 * `processJsonData`): it connects to the companion, turns each received
 * chunk into at most one command for the panel thread, and reports how the
 * connection ended.
 *
 * The socket calls are a script: the outcome of DNS lookup, of `connect`,
 * and the successive results of `recv`. The messages the worker posts to
 * the panel thread's queue are returned in the order posted.
 */
module TcpClient {
  import opened Wrappers
  import opened Msg
  import opened EspAppEvent
  import opened LampWire

  /** `RX_BUF_SIZE`, and the most `recv` is asked for: `sizeof(_rxBuf) - 1 - 1`. */
  const RxBufSize: nat := 128
  const RecvLimit: nat := RxBufSize - 1 - 1

  /** One answer of `recv`: bytes (a positive length), a closed connection (0), or an error (-1). */
  datatype RecvResult = Received(data: seq<char>) | PeerClosed | RecvFailed

  /** `recv` never answers more than it was asked for, and `Received` carries at least one byte. */
  predicate RecvContract(recvs: seq<RecvResult>)
  {
    forall i :: 0 <= i < |recvs| && recvs[i].Received? ==> 0 < |recvs[i].data| <= RecvLimit
  }

  /** The length `recv` returns at step `i`; the script ending means the peer closed. */
  function RecvLength(recvs: seq<RecvResult>, i: nat): int
  {
    if i >= |recvs| then 0
    else match recvs[i]
      case Received(d) => |d|
      case PeerClosed => 0
      case RecvFailed => -1
  }

  /** The characters a C string function sees: those before the first NUL. */
  function CString(s: seq<char>): (r: seq<char>)
    ensures |r| <= |s| && r == s[..|r|]
    ensures '\0' !in r
  {
    if |s| == 0 || s[0] == '\0' then [] else [s[0]] + CString(s[1..])
  }

  /** A buffer holding `data` followed by a terminator reads, as a C string, as `data` does. */
  lemma {:induction false} TerminatedReadsAsData(buf: seq<char>, data: seq<char>)
    requires |data| < |buf| && buf[..|data|] == data && buf[|data|] == '\0'
    ensures CString(buf) == CString(data)
  {
    if |data| > 0 && data[0] != '\0' {
      assert buf[1..][..|data| - 1] == data[1..];
      TerminatedReadsAsData(buf[1..], data[1..]);
    }
  }

  /** A chunk without NUL bytes reads as itself. */
  lemma {:induction false} NulFreeReadsAsItself(s: seq<char>)
    requires '\0' !in s
    ensures CString(s) == s
  {
    if |s| > 0 {
      assert s[1..] + [] == s[1..];
      NulFreeReadsAsItself(s[1..]);
    }
  }

  /** What `processJsonData` does with one parsed message: its posts, and whether it warned about the device. */
  datatype Processed = Processed(posts: seq<Message>, unsupportedDevice: bool)

  /**
   * `processJsonData`: `req-update` and `user-click` become commands for the
   * panel thread, the latter carrying `arg0` as the button; any other event
   * is dropped. A device other than `lamp-esp` is only logged: it does not
   * stop the event from being acted on. `strcmp` compares only up to the
   * first NUL, so a string with an embedded NUL matches by its prefix.
   */
  function ProcessJsonData(f: Fields): (r: Processed)
    ensures r.unsupportedDevice <==> CString(f.device) != Name
    ensures |r.posts| <= 1
    ensures CString(f.event) == ReqUpdate ==> r.posts == [Post(EventApp, AppUserCommand, UsrReqUpdate)]
    ensures CString(f.event) == UserClick ==> r.posts == [Post(EventApp, AppUserCommand, UsrClick, ToUint32(f.arg0))]
    ensures CString(f.event) != ReqUpdate && CString(f.event) != UserClick ==> r.posts == []
  {
    var warned := CString(f.device) != Name;
    var event := CString(f.event);
    if event == ReqUpdate then
      Processed([Post(EventApp, AppUserCommand, UsrReqUpdate)], warned)
    else if event == UserClick then
      Processed([Post(EventApp, AppUserCommand, UsrClick, ToUint32(f.arg0))], warned)
    else
      Processed([], warned)
  }

  /** An event string that carries more after a NUL still selects the command its prefix names. */
  lemma EmbeddedNulSelectsPrefix(device: string, event: string, rest: string, arg0: int32, arg1: int32)
    requires event == ReqUpdate || event == UserClick
    ensures ProcessJsonData(Fields(device, event + ['\0'] + rest, arg0, arg1)).posts
            == ProcessJsonData(Fields(device, event, arg0, arg1)).posts
  {
    var buf := event + ['\0'] + rest;
    assert buf[..|event|] == event && buf[|event|] == '\0';
    assert '\0' !in ReqUpdate && '\0' !in UserClick;
    TerminatedReadsAsData(buf, event);
    NulFreeReadsAsItself(event);
    assert CString(buf) == CString(event);
  }

  /** The posts one received chunk causes: none if it does not parse as a lamp message. */
  function ChunkPosts(c: CJson, data: seq<char>): (r: seq<Message>)
    ensures |r| <= 1
    ensures r != [] ==> ParseText(c, CString(data)).Some?
  {
    match ParseText(c, CString(data))
    case None => []
    case Some(f) => ProcessJsonData(f).posts
  }

  /** The posts of the receive loop, up to the first `recv` that answers 0 or less. */
  function StreamPosts(c: CJson, recvs: seq<RecvResult>): (r: seq<Message>)
    ensures |r| <= |recvs|
    decreases |recvs|
  {
    if |recvs| == 0 || !recvs[0].Received? || |recvs[0].data| == 0 then []
    else ChunkPosts(c, recvs[0].data) + StreamPosts(c, recvs[1..])
  }

  /** Everything `run` posts, in order. */
  function RunPosts(sock: int, dnsOk: bool, connectOk: bool, recvs: seq<RecvResult>, c: CJson): (r: seq<Message>)
    ensures 1 <= |r| <= |recvs| + 2
    ensures |r| == 1 <==> !(sock >= 0 && dnsOk && connectOk)
  {
    if sock < 0 then [TcpFailed(ErrInvalidSocket)]
    else if !dnsOk then [TcpFailed(ErrDnsLookup)]
    else if !connectOk then [TcpFailed(ErrConnect)]
    else [TcpConnected()] + StreamPosts(c, recvs) + [TcpFailed(ErrDisconnect)]
  }

  /** The reason a run ends with. */
  function EndReason(sock: int, dnsOk: bool, connectOk: bool): (r: uint32)
    ensures r == ErrDisconnect <==> sock >= 0 && dnsOk && connectOk
    ensures r != ErrCreateSocket && r != ErrTaskCreate
  {
    if sock < 0 then ErrInvalidSocket
    else if !dnsOk then ErrDnsLookup
    else if !connectOk then ErrConnect
    else ErrDisconnect
  }

  /** Every message in `ms` is a user command for the panel. */
  predicate AllCommands(ms: seq<Message>)
  {
    forall m | m in ms :: m.event == EventApp && m.iParam == AppUserCommand
  }

  /** Every message the receive loop posts is a user command, never a connection report. */
  lemma {:induction false} StreamPostsAreCommands(c: CJson, recvs: seq<RecvResult>)
    ensures AllCommands(StreamPosts(c, recvs))
    decreases |recvs|
  {
    if |recvs| > 0 && recvs[0].Received? && |recvs[0].data| > 0 {
      StreamPostsAreCommands(c, recvs[1..]);
      var here := ChunkPosts(c, recvs[0].data);
      var rest := StreamPosts(c, recvs[1..]);
      assert AllCommands(here);
      assert forall m | m in here + rest :: m in here || m in rest;
    }
  }

  /**
   * A run reports the end of its connection exactly once, as its last post,
   * with the reason it stopped; it reports success first exactly when the
   * socket is valid, the name resolves and `connect` succeeds.
   */
  lemma OneEndReportLast(sock: int, dnsOk: bool, connectOk: bool, recvs: seq<RecvResult>, c: CJson)
    ensures var p := RunPosts(sock, dnsOk, connectOk, recvs, c);
      |p| >= 1 && p[|p| - 1] == TcpFailed(EndReason(sock, dnsOk, connectOk))
      && (forall k :: 0 <= k < |p| - 1 ==> !IsTcpFailure(p[k]))
      && (p[0] == TcpConnected() <==> sock >= 0 && dnsOk && connectOk)
  {
    StreamPostsAreCommands(c, recvs);
    var s := StreamPosts(c, recvs);
    assert forall k :: 0 <= k < |s| ==> s[k] in s;
  }

  /**
   * A chunk holding exactly a printed `user-click` message from the
   * companion becomes one `UsrClick` command carrying the button.
   */
  lemma ClickChunkBecomesCommand(c: CJson, button: int32, arg1: int32)
    requires Inverse(c)
    requires '\0' !in c.printUnformatted(BuildTree(Name, UserClick, button, arg1))
    ensures ChunkPosts(c, c.printUnformatted(BuildTree(Name, UserClick, button, arg1)))
            == [Post(EventApp, AppUserCommand, UsrClick, ToUint32(button))]
  {
    var text := c.printUnformatted(BuildTree(Name, UserClick, button, arg1));
    NulFreeReadsAsItself(text);
    assert '\0' !in Name && '\0' !in UserClick;
    WireRoundTrip(c, Name, UserClick, button, arg1);
    NulFreeReadsAsItself(UserClick);
    assert ParseText(c, CString(text)) == Some(Fields(Name, UserClick, button, arg1));
  }

  /** What one chunk does to the worker as written: it goes on after some posts, or it crashes. */
  datatype ChunkOutcome = Continue(posts: seq<Message>) | Crash

  /**
   * One chunk through `parse` and `processJsonData` as written. A parsed
   * tree missing `arg0` or `arg1` is dereferenced at LampModel.cpp:94-95,
   * and a missing or non-string `device` or `event` reaches `strcmp` as
   * NULL: either way the worker faults on a load near address 0. Every
   * chunk the corrected reading accepts or that does not parse behaves as
   * in the corrected worker.
   */
  function ChunkOutcomeAsWritten(c: CJson, data: seq<char>): (r: ChunkOutcome)
    ensures r == Crash <==> c.parse(CString(data)).Some? && ReadMembers(c.parse(CString(data)).value).None?
    ensures r.Continue? ==> r.posts == ChunkPosts(c, data)
  {
    match c.parse(CString(data))
    case None => Continue([])
    case Some(t) =>
      CorrectedReadAgrees(t);
      match ReadMembersAsWritten(t)
      case NullDereference => Crash
      case Read(d, e, a0, a1) =>
        if d.None? || e.None? then Crash
        else Continue(ProcessJsonData(Fields(d.value, e.value, a0, a1)).posts)
  }

  /** The posts of a run as written, and whether it ended in a crash. */
  datatype RunResult = RunResult(posts: seq<Message>, crashed: bool)

  /** The receive loop as written: a crash ends it with nothing more posted. */
  function StreamAsWritten(c: CJson, recvs: seq<RecvResult>): (r: RunResult)
    ensures |r.posts| <= |recvs|
    decreases |recvs|
  {
    if |recvs| == 0 || !recvs[0].Received? || |recvs[0].data| == 0 then RunResult([], false)
    else match ChunkOutcomeAsWritten(c, recvs[0].data)
      case Crash => RunResult([], true)
      case Continue(p) =>
        var rest := StreamAsWritten(c, recvs[1..]);
        RunResult(p + rest.posts, rest.crashed)
  }

  /** `run` as written: the disconnect report is posted only when the loop ends without a crash. */
  function RunAsWritten(sock: int, dnsOk: bool, connectOk: bool, recvs: seq<RecvResult>, c: CJson): (r: RunResult)
    ensures r.crashed ==> sock >= 0 && dnsOk && connectOk
    ensures |r.posts| >= 1 && (r.posts[0] == TcpConnected() <==> sock >= 0 && dnsOk && connectOk)
  {
    if sock < 0 then RunResult([TcpFailed(ErrInvalidSocket)], false)
    else if !dnsOk then RunResult([TcpFailed(ErrDnsLookup)], false)
    else if !connectOk then RunResult([TcpFailed(ErrConnect)], false)
    else
      var s := StreamAsWritten(c, recvs);
      RunResult([TcpConnected()] + s.posts + (if s.crashed then [] else [TcpFailed(ErrDisconnect)]), s.crashed)
  }

  /**
   * Until it crashes the written loop posts only commands, and a loop that
   * does not crash posts exactly what the corrected loop posts.
   */
  lemma {:induction false} StreamAsWrittenAgrees(c: CJson, recvs: seq<RecvResult>)
    ensures AllCommands(StreamAsWritten(c, recvs).posts)
    ensures !StreamAsWritten(c, recvs).crashed ==> StreamAsWritten(c, recvs).posts == StreamPosts(c, recvs)
    decreases |recvs|
  {
    if |recvs| > 0 && recvs[0].Received? && |recvs[0].data| > 0 {
      var o := ChunkOutcomeAsWritten(c, recvs[0].data);
      if o.Continue? {
        StreamAsWrittenAgrees(c, recvs[1..]);
        StreamPostsAreCommands(c, [recvs[0]]);
        assert [recvs[0]][1..] == [];
        var here := o.posts;
        var rest := StreamAsWritten(c, recvs[1..]).posts;
        assert here == StreamPosts(c, [recvs[0]]);
        assert forall m | m in here + rest :: m in here || m in rest;
      }
    }
  }

  /**
   * A run as written that does not crash posts what the corrected run
   * posts; one that crashes faults before the end of its connection is
   * reported, and the platform's panic handler then halts or resets the
   * device.
   */
  lemma RunAsWrittenAgrees(sock: int, dnsOk: bool, connectOk: bool, recvs: seq<RecvResult>, c: CJson)
    ensures var r := RunAsWritten(sock, dnsOk, connectOk, recvs, c);
      (!r.crashed ==> r.posts == RunPosts(sock, dnsOk, connectOk, recvs, c))
      && (r.crashed ==> forall k :: 0 <= k < |r.posts| ==> !IsTcpFailure(r.posts[k]))
  {
    StreamAsWrittenAgrees(c, recvs);
    var s := StreamAsWritten(c, recvs).posts;
    assert forall k :: 0 <= k < |s| ==> s[k] in s;
  }

  /**
   * The companion's request without arguments, received as the only chunk,
   * crashes the written worker after the connection report: the disconnect
   * report the corrected worker posts never comes.
   */
  lemma RequestWithoutArgsCrashesWorker(c: CJson, text: string)
    requires '\0' !in text && 0 < |text| <= RecvLimit
    requires c.parse(text) == Some(JObject([Member(DeviceKey, JString(Name)), Member(EventKey, JString(ReqUpdate))]))
    ensures RunAsWritten(0, true, true, [Received(text)], c) == RunResult([TcpConnected()], true)
    ensures RunPosts(0, true, true, [Received(text)], c) == [TcpConnected(), TcpFailed(ErrDisconnect)]
  {
    NulFreeReadsAsItself(text);
    RequestWithoutArgsFaults();
    assert [Received(text)][1..] == [];
    assert ChunkPosts(c, text) == [];
    assert StreamPosts(c, [Received(text)]) == ChunkPosts(c, text) + StreamPosts(c, []);
  }

  /**
   * One turn of the receive loop: the chunk is terminated in `_rxBuf`,
   * parsed by a fresh `LampModel`, and processed if it parsed.
   */
  method ReceiveChunk(data: seq<char>, c: CJson, rxBuf: array<char>) returns (out: seq<Message>)
    requires rxBuf.Length == RxBufSize && |data| <= RecvLimit
    modifies rxBuf
    ensures out == ChunkPosts(c, data)
  {
    var len := |data|;
    forall k | 0 <= k < len {
      rxBuf[k] := data[k];
    }
    rxBuf[len] := '\0';
    assert rxBuf[..][..len] == data;
    TerminatedReadsAsData(rxBuf[..], data);
    var model := new LampModel();
    var ok := model.Parse(Some(CString(rxBuf[..])), c);
    out := [];
    if ok {
      var f := Fields(OrEmpty(model.Device()), OrEmpty(model.Event()), model.arg0, model.arg1);
      out := ProcessJsonData(f).posts;
    }
    model.Dispose();
  }

  /** `run`, over the shared receive buffer `_rxBuf`. */
  method Run(sock: int, dnsOk: bool, connectOk: bool, recvs: seq<RecvResult>, c: CJson, rxBuf: array<char>)
    returns (posts: seq<Message>)
    requires rxBuf.Length == RxBufSize
    requires RecvContract(recvs)
    modifies rxBuf
    ensures posts == RunPosts(sock, dnsOk, connectOk, recvs, c)
  {
    if sock < 0 {
      return [TcpFailed(ErrInvalidSocket)];
    }
    if !dnsOk {
      return [TcpFailed(ErrDnsLookup)];
    }
    if !connectOk {
      return [TcpFailed(ErrConnect)];
    }
    posts := [TcpConnected()];
    var i := 0;
    var len := RecvLength(recvs, i);
    while len > 0
      invariant 0 <= i <= |recvs|
      invariant len == RecvLength(recvs, i)
      invariant posts + StreamPosts(c, recvs[i..]) == [TcpConnected()] + StreamPosts(c, recvs)
      decreases |recvs| - i
    {
      var out := ReceiveChunk(recvs[i].data, c, rxBuf);
      assert recvs[i..][1..] == recvs[i + 1..];
      assert StreamPosts(c, recvs[i..]) == out + StreamPosts(c, recvs[i + 1..]);
      posts := posts + out;
      i := i + 1;
      len := RecvLength(recvs, i);
    }
    assert StreamPosts(c, recvs[i..]) == [];
    posts := posts + [TcpFailed(ErrDisconnect)];
  }
}
