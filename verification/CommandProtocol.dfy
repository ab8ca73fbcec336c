/**
 One command from the server's output copiers to the client's sinks: every interleaving of the
 copiers, the process's exit, the serving loop and the client's receive loop is a run.
 */
module CommandProtocol {
  import opened Types
  import opened Protobuf
  import Chunking

  // ----- results

  datatype ExitResult = ExitResult(status: int, signal: string, failure: string)

  datatype ClientError =
    | Protocol
    | Lost
    | StartRejected(code: string, message: string)
    | Runtime(message: string)
    | ExitSignal(signal: string)
    | ExitStatus(status: int)
    | SinkFailed

  /** terminalResult: None is success. */
  function TerminalResult(r: ExitResult): Option<ClientError> {
    if r.failure != "" then Some(Runtime(r.failure))
    else if r.signal != "" then Some(ExitSignal(r.signal))
    else if r.status != 0 then Some(ExitStatus(r.status))
    else None
  }

  datatype ExitBody = Status(status: int) | Signal(signal: string) | Failure(message: string) | Missing

  datatype Frame =
    | StartResult(accepted: bool, code: string, message: string)
    | Out(data: Bytes)
    | ErrOut(data: Bytes)
    | Exit(body: ExitBody)

  /** Go's conversion to a signed 32-bit number. */
  function ToInt32(n: int): int {
    (n + 0x8000_0000) % 0x1_0000_0000 - 0x8000_0000
  }

  /** The message sendExit builds. */
  function ExitBodyOf(r: ExitResult): ExitBody {
    if r.failure != "" then Failure(r.failure)
    else if r.signal != "" then Signal(r.signal)
    else Status(ToInt32(r.status))
  }

  /** The validation rules of the message. */
  predicate BodyValid(b: ExitBody) {
    match b
    case Status(_) => true
    case Signal(s) => 1 <= |s| <= 64
    case Failure(m) => |m| <= 1024
    case Missing => false
  }

  /** Encoded size of the exit frame; a negative status takes the ten bytes of a 64-bit number. */
  function ExitSize(b: ExitBody): nat {
    MessageSize(match b
                case Status(n) => 1 + (if n < 0 then 10 else VarintSize(n))
                case Signal(s) => TextSize(ByteLength(s))
                case Failure(m) => MessageSize(TextSize(ByteLength(m)))
                case Missing => 0)
  }

  predicate FrameFits(size: nat, maximum: int) {
    maximum <= 0 || size <= maximum
  }

  /** sendExit, up to the connection: None if marshalMessage refuses the frame. */
  function EncodeExit(r: ExitResult, maximum: int): Option<ExitBody> {
    var b := ExitBodyOf(r);
    if BodyValid(b) && FrameFits(ExitSize(b), maximum) then Some(b) else None
  }

  /** The exit part of DecodeServerEvent. */
  function DecodeExit(b: ExitBody): Option<ExitResult> {
    match b
    case Status(n) => Some(ExitResult(n, "", ""))
    case Signal(s) => Some(ExitResult(0, s, ""))
    case Failure(m) => Some(ExitResult(0, "", m))
    case Missing => None
  }

  predicate Fits32(n: int) {
    -0x8000_0000 <= n < 0x8000_0000
  }

  /** What the process left behind survives the way: texts of legal length in a frame that fits, or a 32-bit status that does. */
  predicate Survives(r: ExitResult, maximum: int) {
    if r.failure != "" then |r.failure| <= 1024 && FrameFits(ExitSize(Failure(r.failure)), maximum)
    else if r.signal != "" then |r.signal| <= 64 && FrameFits(ExitSize(Signal(r.signal)), maximum)
    else Fits32(r.status) && FrameFits(ExitSize(Status(r.status)), maximum)
  }

  /** The client's reading of an exit frame. */
  function Learned(b: ExitBody): Option<ClientError>
    requires DecodeExit(b).Some?
  {
    TerminalResult(DecodeExit(b).value)
  }

  /** The client learns how the process ended exactly if that survives the way. */
  lemma ExitRoundTrip(r: ExitResult, maximum: int)
    ensures EncodeExit(r, maximum).Some? ==> DecodeExit(EncodeExit(r, maximum).value).Some?
    ensures EncodeExit(r, maximum).Some? && Learned(EncodeExit(r, maximum).value) == TerminalResult(r) <==> Survives(r, maximum)
  {
    assert Fits32(ToInt32(r.status));
    assert Fits32(r.status) ==> ToInt32(r.status) == r.status;
  }

  // ----- the client

  datatype ClientState = Idle | Starting | Running | Exited | Closed

  datatype Client = Client(
    state: ClientState,
    hasPty: bool,
    stdout: Option<Bytes>,
    stderr: Option<Bytes>,
    waitErr: Option<ClientError>,
    finished: bool)

  /** client.finish: only the first call counts. */
  function Finished(c: Client, err: Option<ClientError>): Client {
    if c.finished then c
    else c.(waitErr := if c.waitErr.None? then err else c.waitErr,
            state := if c.state.Exited? then Exited else Closed,
            finished := true)
  }

  /** What a sink that takes at most `took` bytes gets of the data. */
  function Swallowed(data: Bytes, took: nat): Bytes {
    if took < |data| then data[..took] else data
  }

  /** One round of receiveLoop: decode, handleServerEvent, and finish on an error; `took` is what the sink accepts. */
  function Handled(c: Client, f: Frame, took: nat): Client {
    match f
    case StartResult(accepted, code, message) =>
      if accepted && (code != "" || message != "") then Finished(c, Some(Protocol))
      else if !c.state.Starting? then Finished(c, Some(Protocol))
      else if accepted then c.(state := Running)
      else Finished(c, Some(StartRejected(code, message)))
    case Out(data) =>
      if !c.state.Running? || c.stdout.None? then Finished(c, Some(Protocol))
      else
        var c := c.(stdout := Some(c.stdout.value + Swallowed(data, took)));
        if took < |data| then Finished(c, Some(SinkFailed)) else c
    case ErrOut(data) =>
      if !c.state.Running? || c.hasPty || c.stderr.None? then Finished(c, Some(Protocol))
      else
        var c := c.(stderr := Some(c.stderr.value + Swallowed(data, took)));
        if took < |data| then Finished(c, Some(SinkFailed)) else c
    case Exit(body) =>
      if DecodeExit(body).None? || !c.state.Running? then Finished(c, Some(Protocol))
      else
        var err := TerminalResult(DecodeExit(body).value);
        Finished(c.(state := Exited, waitErr := err), err)
  }

  class ClientObject {
    var state: ClientState
    var hasPty: bool
    var stdout: Option<Bytes>
    var stderr: Option<Bytes>
    var waitErr: Option<ClientError>
    var finished: bool

    function Value(): Client
      reads this
    {
      Client(state, hasPty, stdout, stderr, waitErr, finished)
    }

    /** A client that has finished has exited or is closed. */
    predicate Valid()
      reads this
    {
      finished ==> state.Exited? || state.Closed?
    }

    constructor ()
      ensures Valid() && Value() == Client(Idle, false, None, None, None, false)
    {
      state, hasPty, stdout, stderr, waitErr, finished := Idle, false, None, None, None, false;
    }

    /** The critical section of start. */
    method Start(pty: bool, out: Option<Bytes>, err: Option<Bytes>) returns (ok: bool)
      modifies this
      ensures ok <==> old(state).Idle?
      ensures Value() == if ok then old(Value()).(state := Starting, hasPty := pty, stdout := out, stderr := err) else old(Value())
    {
      if !state.Idle? {
        return false;
      }
      state, hasPty, stdout, stderr := Starting, pty, out, err;
      return true;
    }

    method Finish(err: Option<ClientError>)
      modifies this
      ensures Value() == Finished(old(Value()), err)
    {
      if finished {
        return;
      }
      if waitErr.None? {
        waitErr := err;
      }
      if !state.Exited? {
        state := Closed;
      }
      finished := true;
    }

    /** handleServerEvent: the error it returns, if any, finishes the client. */
    method HandleServerEvent(f: Frame, took: nat) returns (err: Option<ClientError>)
      requires f.Exit? ==> DecodeExit(f.body).Some?
      modifies this
      ensures Handled(old(Value()), f, took) == if err.Some? then Finished(Value(), err) else Value()
    {
      err := None;
      match f
      case StartResult(accepted, code, message) =>
        if !state.Starting? || (accepted && (code != "" || message != "")) {
          return Some(Protocol);
        }
        if !accepted {
          return Some(StartRejected(code, message));
        }
        state := Running;
      case Out(data) =>
        if !state.Running? || stdout.None? {
          return Some(Protocol);
        }
        stdout := Some(stdout.value + Swallowed(data, took));
        if took < |data| {
          return Some(SinkFailed);
        }
      case ErrOut(data) =>
        if !state.Running? || hasPty || stderr.None? {
          return Some(Protocol);
        }
        stderr := Some(stderr.value + Swallowed(data, took));
        if took < |data| {
          return Some(SinkFailed);
        }
      case Exit(body) =>
        if !state.Running? {
          return Some(Protocol);
        }
        waitErr := TerminalResult(DecodeExit(body).value);
        state := Exited;
        Finish(waitErr);
    }

    /** The receive loop on the frames of one connection, up to the end of the stream; `took` is what the sinks accept. */
    method ReceiveLoop(frames: seq<Frame>, took: seq<nat>)
      requires Valid() && |took| == |frames|
      modifies this
      ensures Valid() && finished
      ensures Value() == Finished(Received(old(Value()), frames, took), Some(Lost))
    {
      for i := 0 to |frames|
        invariant Valid() && Received(old(Value()), frames, took) == Received(Value(), frames[i..], took[i..])
      {
        assert frames[i..][1..] == frames[i + 1..] && took[i..][1..] == took[i + 1..];
        var err: Option<ClientError>;
        if frames[i].Exit? && DecodeExit(frames[i].body).None? {
          err := Some(Protocol);
        } else {
          err := HandleServerEvent(frames[i], took[i]);
        }
        if err.Some? {
          Finish(err);
          OverIsOver(Value(), frames[i + 1..], took[i + 1..]);
          return;
        }
      }
      Finish(Some(Lost));
    }
  }

  function Received(c: Client, frames: seq<Frame>, took: seq<nat>): Client
    requires |took| == |frames|
    decreases |frames|
  {
    if frames == [] then c else Received(Handled(c, frames[0], took[0]), frames[1..], took[1..])
  }

  /** A client that has finished takes no further notice. */
  lemma {:induction false} OverIsOver(c: Client, frames: seq<Frame>, took: seq<nat>)
    requires c.finished && (c.state.Exited? || c.state.Closed?) && |took| == |frames|
    ensures Received(c, frames, took) == c
    decreases |frames|
  {
    if frames != [] {
      OverIsOver(c, frames[1..], took[1..]);
    }
  }

  // ----- the server

  /** copyOutput on one stream of the process: bytes read, frames cut and not yet sent, result reported. */
  datatype Copier = Copier(source: Bytes, read: nat, queue: seq<Bytes>, done: bool, collected: bool)

  /**
   The serving loop after the start was accepted; `outcome` is what the process's Wait returns and
   `maximum` the largest frame the connection takes. It hangs up once it has tried to send the exit.
   */
  datatype Server = Server(
    out: Copier,
    err: Option<Copier>,
    pending: nat,
    outcome: ExitResult,
    maximum: int,
    exited: bool,
    over: bool)

  datatype System = System(server: Server, wire: seq<Frame>, client: Client)

  datatype Turn =
    | Read(err: bool, chunks: seq<Bytes>)
    | Send(err: bool)
    | ReportEof(err: bool)
    | Collect(err: bool)
    | ProcessExits
    | SendExit
    | Receive
    | NoticeEnd

  function CopierOf(s: Server, err: bool): Copier
    requires err ==> s.err.Some?
  {
    if err then s.err.value else s.out
  }

  function WithCopier(s: Server, err: bool, c: Copier): Server {
    if err then s.(err := Some(c)) else s.(out := c)
  }

  function FrameOf(err: bool, data: Bytes): Frame {
    if err then ErrOut(data) else Out(data)
  }

  const BUFFER := 32768

  /** What one Read may return: a non-empty piece of what is left, cut into non-empty chunks. */
  predicate Readable(c: Copier, chunks: seq<Bytes>) {
    && !c.done && c.queue == [] && c.read <= |c.source|
    && (forall i :: 0 <= i < |chunks| ==> chunks[i] != [])
    && 0 < |Chunking.Concat(chunks)| <= BUFFER
    && Chunking.Concat(chunks) <= c.source[c.read..]
  }

  predicate Possible(y: System, t: Turn) {
    match t
    case Read(err, chunks) => (err ==> y.server.err.Some?) && Readable(CopierOf(y.server, err), chunks)
    case Send(err) => (err ==> y.server.err.Some?) && CopierOf(y.server, err).queue != []
    case ReportEof(err) =>
      && (err ==> y.server.err.Some?)
      && var c := CopierOf(y.server, err); !c.done && c.queue == [] && c.read == |c.source|
    case Collect(err) =>
      && (err ==> y.server.err.Some?) && y.server.pending > 0
      && CopierOf(y.server, err).done && !CopierOf(y.server, err).collected
    case ProcessExits => !y.server.exited
    case SendExit => y.server.exited && y.server.pending == 0 && !y.server.over
    case Receive => y.wire != []
    case NoticeEnd => y.wire == [] && y.server.over && !y.client.finished
  }

  /** The exit frame, or nothing if it cannot be sent. */
  function LastWord(s: Server): seq<Frame> {
    var b := EncodeExit(s.outcome, s.maximum);
    if b.Some? then [Exit(b.value)] else []
  }

  /** The sinks take all they are given. */
  function Payload(f: Frame): Bytes {
    if f.Out? || f.ErrOut? then f.data else []
  }

  function Next(y: System, t: Turn): System
    requires Possible(y, t)
  {
    var s := y.server;
    match t
    case Read(err, chunks) =>
      var c := CopierOf(s, err);
      y.(server := WithCopier(s, err, c.(read := c.read + |Chunking.Concat(chunks)|, queue := chunks)))
    case Send(err) =>
      var c := CopierOf(s, err);
      y.(server := WithCopier(s, err, c.(queue := c.queue[1..])), wire := y.wire + [FrameOf(err, c.queue[0])])
    case ReportEof(err) => y.(server := WithCopier(s, err, CopierOf(s, err).(done := true)))
    case Collect(err) => y.(server := WithCopier(s, err, CopierOf(s, err).(collected := true)).(pending := s.pending - 1))
    case ProcessExits => y.(server := s.(exited := true))
    case SendExit => y.(server := s.(over := true), wire := y.wire + LastWord(s))
    case Receive => y.(wire := y.wire[1..], client := Handled(y.client, y.wire[0], |Payload(y.wire[0])|))
    case NoticeEnd => y.(client := Finished(y.client, Some(Lost)))
  }

  /** Right after the start was accepted; a PTY has no separate error stream, and data fits into frames. */
  predicate Begins(y: System) {
    && FrameFits(Chunking.FrameSize(1), y.server.maximum)
    && y.server.out == Copier(y.server.out.source, 0, [], false, false)
    && (y.server.err.Some? ==> y.server.err.value == Copier(y.server.err.value.source, 0, [], false, false))
    && y.server.pending == (if y.server.err.Some? then 2 else 1)
    && !y.server.exited && !y.server.over
    && y.wire == [StartResult(true, "", "")]
    && y.client.state.Starting? && !y.client.finished && y.client.waitErr.None? && y.client.stdout == Some([])
    && (y.client.hasPty <==> y.server.err.None?) && y.client.stderr == (if y.server.err.Some? then Some([]) else None)
  }

  predicate Run(trace: seq<System>, turns: seq<Turn>) {
    && |trace| == |turns| + 1 && Begins(trace[0])
    && forall i :: 0 <= i < |turns| ==> Step(trace[i], turns[i], trace[i + 1])
  }

  predicate Step(y: System, t: Turn, y': System) {
    Possible(y, t) && y' == Next(y, t)
  }

  // ----- the invariant

  /** What one frame carries of one stream. */
  function Piece(f: Frame, err: bool): Bytes {
    if err then (if f.ErrOut? then f.data else []) else (if f.Out? then f.data else [])
  }

  /** The bytes of one stream among the frames on the wire. */
  function Carried(wire: seq<Frame>, err: bool): Bytes {
    if wire == [] then [] else Piece(wire[0], err) + Carried(wire[1..], err)
  }

  lemma {:induction false} CarriedAppend(wire: seq<Frame>, f: Frame, err: bool)
    ensures Carried(wire + [f], err) == Carried(wire, err) + Piece(f, err)
  {
    if wire == [] {
      assert wire + [f] == [f];
    } else {
      assert (wire + [f])[1..] == wire[1..] + [f];
      CarriedAppend(wire[1..], f, err);
    }
  }

  /** What reached the sink, is on the wire or waits to be sent is what was read. */
  predicate StreamOk(c: Copier, sink: Bytes, wire: seq<Frame>, err: bool) {
    && c.read <= |c.source|
    && sink + Carried(wire, err) + Chunking.Concat(c.queue) == c.source[..c.read]
    && (c.done ==> c.read == |c.source| && c.queue == [])
    && (c.collected ==> c.done)
  }

  function Open(c: Copier): nat {
    if c.collected then 0 else 1
  }

  predicate ServerOk(s: Server) {
    && s.pending == Open(s.out) + (if s.err.Some? then Open(s.err.value) else 0)
    && (s.over ==> s.pending == 0 && s.exited)
  }

  predicate ExitsLast(s: Server, wire: seq<Frame>) {
    && (forall i :: 0 <= i < |wire| && wire[i].Exit? ==> i == |wire| - 1 && s.over && [wire[i]] == LastWord(s))
    && (s.err.None? ==> forall i :: 0 <= i < |wire| ==> !wire[i].ErrOut?)
  }

  predicate StartsFirst(c: Client, wire: seq<Frame>) {
    && (c.state.Starting? ==> wire != [] && wire[0] == StartResult(true, "", ""))
    && forall i :: 0 <= i < |wire| && wire[i].StartResult? ==> i == 0 && c.state.Starting?
  }

  /** How the client stands: it has the server's last word, or the server has none, or both are still at it. */
  predicate ClientOk(s: Server, wire: seq<Frame>, c: Client) {
    && (c.finished <==> c.state.Exited? || c.state.Closed?)
    && !c.state.Idle? && c.stdout.Some? && (c.hasPty <==> s.err.None?) && (c.stderr.Some? <==> s.err.Some?)
    && (c.finished ==> s.over && wire == [])
    && (c.state.Exited? ==> LastWord(s) != [] && c.waitErr == Learned(LastWord(s)[0].body))
    && (c.state.Closed? ==> LastWord(s) == [] && c.waitErr == Some(Lost))
    && (!c.finished ==> c.waitErr.None? && (s.over && LastWord(s) != [] ==> wire != [] && wire[|wire| - 1].Exit?))
  }

  predicate Inv(y: System) {
    && ServerOk(y.server) && ExitsLast(y.server, y.wire) && StartsFirst(y.client, y.wire) && ClientOk(y.server, y.wire, y.client)
    && StreamOk(y.server.out, y.client.stdout.value, y.wire, false)
    && (y.server.err.Some? ==> StreamOk(y.server.err.value, y.client.stderr.value, y.wire, true))
  }

  lemma BeginsOk(y: System)
    requires Begins(y)
    ensures Inv(y)
  {
    CarriedAppend([], y.wire[0], false);
    CarriedAppend([], y.wire[0], true);
    assert [] + [y.wire[0]] == y.wire;
  }

  lemma ReadStream(c: Copier, sink: Bytes, wire: seq<Frame>, err: bool, chunks: seq<Bytes>)
    requires StreamOk(c, sink, wire, err) && Readable(c, chunks)
    ensures StreamOk(c.(read := c.read + |Chunking.Concat(chunks)|, queue := chunks), sink, wire, err)
  {
    var piece := Chunking.Concat(chunks);
    assert c.source[..c.read] + piece == c.source[..c.read + |piece|];
    assert sink + Carried(wire, err) + [] == sink + Carried(wire, err);
  }

  lemma SendStream(c: Copier, sink: Bytes, wire: seq<Frame>, err: bool)
    requires StreamOk(c, sink, wire, err) && c.queue != []
    ensures StreamOk(c.(queue := c.queue[1..]), sink, wire + [FrameOf(err, c.queue[0])], err)
  {
    CarriedAppend(wire, FrameOf(err, c.queue[0]), err);
    assert sink + (Carried(wire, err) + c.queue[0]) + Chunking.Concat(c.queue[1..])
        == sink + Carried(wire, err) + (c.queue[0] + Chunking.Concat(c.queue[1..]));
  }

  lemma OtherStream(c: Copier, sink: Bytes, wire: seq<Frame>, err: bool, f: Frame)
    requires StreamOk(c, sink, wire, err) && Piece(f, err) == []
    ensures StreamOk(c, sink, wire + [f], err)
  {
    CarriedAppend(wire, f, err);
    assert Carried(wire, err) + [] == Carried(wire, err);
  }

  lemma ReceiveStream(c: Copier, sink: Bytes, wire: seq<Frame>, err: bool)
    requires StreamOk(c, sink, wire, err) && wire != []
    ensures StreamOk(c, sink + Piece(wire[0], err), wire[1..], err)
  {
    assert sink + (Piece(wire[0], err) + Carried(wire[1..], err)) == sink + Piece(wire[0], err) + Carried(wire[1..], err);
  }

  lemma SendKeeps(y: System, err: bool)
    requires Inv(y) && Possible(y, Send(err))
    ensures Inv(Next(y, Send(err)))
  {
    var c, f := CopierOf(y.server, err), FrameOf(err, CopierOf(y.server, err).queue[0]);
    assert !y.server.over;
    if err {
      SendStream(c, y.client.stderr.value, y.wire, true);
      OtherStream(y.server.out, y.client.stdout.value, y.wire, false, f);
    } else {
      SendStream(c, y.client.stdout.value, y.wire, false);
      if y.server.err.Some? {
        OtherStream(y.server.err.value, y.client.stderr.value, y.wire, true, f);
      }
    }
  }

  lemma ReceiveKeeps(y: System)
    requires Inv(y) && Possible(y, Receive)
    ensures Inv(Next(y, Receive))
  {
    ReceiveStream(y.server.out, y.client.stdout.value, y.wire, false);
    if y.server.err.Some? {
      ReceiveStream(y.server.err.value, y.client.stderr.value, y.wire, true);
    }
    ReceiveClient(y);
    assert y.client.stdout.value + [] == y.client.stdout.value;
    if y.client.stderr.Some? {
      assert y.client.stderr.value + [] == y.client.stderr.value;
    }
  }

  /** The client accepts the next frame, whichever it is. */
  lemma ReceiveClient(y: System)
    requires Inv(y) && Possible(y, Receive)
    ensures var c' := Handled(y.client, y.wire[0], |Payload(y.wire[0])|);
            && ExitsLast(y.server, y.wire[1..]) && StartsFirst(c', y.wire[1..]) && ClientOk(y.server, y.wire[1..], c')
            && c'.stdout == Some(y.client.stdout.value + Piece(y.wire[0], false))
            && (y.client.stderr.Some? ==> c'.stderr == Some(y.client.stderr.value + Piece(y.wire[0], true)))
  {
    var f := y.wire[0];
    ExitRoundTrip(y.server.outcome, y.server.maximum);
    if !f.Out? {
      assert y.client.stdout.value + Piece(f, false) == y.client.stdout.value;
    }
    if !f.ErrOut? && y.client.stderr.Some? {
      assert y.client.stderr.value + Piece(f, true) == y.client.stderr.value;
    }
  }

  lemma ExitKeeps(y: System)
    requires Inv(y) && Possible(y, SendExit)
    ensures Inv(Next(y, SendExit))
  {
    if LastWord(y.server) == [] {
      assert y.wire + [] == y.wire;
    } else {
      var f := LastWord(y.server)[0];
      OtherStream(y.server.out, y.client.stdout.value, y.wire, false, f);
      if y.server.err.Some? {
        OtherStream(y.server.err.value, y.client.stderr.value, y.wire, true, f);
      }
    }
  }

  lemma StepKeeps(y: System, t: Turn)
    requires Inv(y) && Possible(y, t)
    ensures Inv(Next(y, t))
  {
    match t
    case Read(err, chunks) =>
      var sink := if err then y.client.stderr.value else y.client.stdout.value;
      ReadStream(CopierOf(y.server, err), sink, y.wire, err, chunks);
    case Send(err) => SendKeeps(y, err);
    case SendExit => ExitKeeps(y);
    case Receive => ReceiveKeeps(y);
    case _ =>
  }

  /** Sources and outcome are the process's, whatever happens. */
  predicate SameProcess(y: System, y': System) {
    && y'.server.out.source == y.server.out.source && y'.server.outcome == y.server.outcome && y'.server.maximum == y.server.maximum
    && (y'.server.err.Some? <==> y.server.err.Some?)
    && (y.server.err.Some? ==> y'.server.err.value.source == y.server.err.value.source)
  }

  lemma GoesOn(first: System, y: System, t: Turn, y': System)
    requires Inv(y) && SameProcess(first, y) && Step(y, t, y')
    ensures Inv(y') && SameProcess(first, y')
  {
    StepKeeps(y, t);
  }

  lemma {:induction false} RunKeeps(trace: seq<System>, turns: seq<Turn>, i: nat)
    requires Run(trace, turns) && i < |trace|
    ensures Inv(trace[i]) && SameProcess(trace[0], trace[i])
  {
    if i == 0 {
      BeginsOk(trace[0]);
    } else {
      RunKeeps(trace, turns, i - 1);
      GoesOn(trace[0], trace[i - 1], turns[i - 1], trace[i]);
    }
  }

  /**
   For every interleaving: the sinks never hold anything but a prefix of the process's streams; once
   the client has finished they hold all of them, and the client has the process's result exactly if
   that survives the way. If its frame cannot be sent at all, the client reports a lost connection.
   */
  lemma EndToEnd(trace: seq<System>, turns: seq<Turn>, i: nat)
    requires Run(trace, turns) && i < |trace|
    ensures var first, y := trace[0].server, trace[i];
            && y.client.stdout.Some? && y.client.stdout.value <= first.out.source
            && (first.err.Some? ==> y.client.stderr.Some? && y.client.stderr.value <= first.err.value.source)
            && (y.client.finished ==>
                  && y.client.stdout.value == first.out.source
                  && (first.err.Some? ==> y.client.stderr.value == first.err.value.source)
                  && (y.client.state.Exited? <==> EncodeExit(first.outcome, first.maximum).Some?)
                  && (y.client.state.Exited? && y.client.waitErr == TerminalResult(first.outcome) <==> Survives(first.outcome, first.maximum))
                  && (!y.client.state.Exited? ==> y.client.waitErr == Some(Lost)))
  {
    RunKeeps(trace, turns, i);
    var y := trace[i];
    SinkPrefix(y.server.out, y.client.stdout.value, y.wire, false);
    if y.server.err.Some? {
      SinkPrefix(y.server.err.value, y.client.stderr.value, y.wire, true);
    }
    ExitRoundTrip(y.server.outcome, y.server.maximum);
  }

  lemma SinkPrefix(c: Copier, sink: Bytes, wire: seq<Frame>, err: bool)
    requires StreamOk(c, sink, wire, err)
    ensures sink <= c.source && (wire == [] && c.done ==> sink == c.source)
  {
    var all := sink + Carried(wire, err) + Chunking.Concat(c.queue);
    assert sink <= all;
    assert all == c.source[..c.read] && c.source[..c.read] <= c.source;
    assert c.source[..|c.source|] == c.source;
  }

  // ----- every run comes to its end

  function CopierWork(c: Copier): nat {
    3 * (if c.read <= |c.source| then |c.source| - c.read else 0) + 2 * |c.queue|
      + (if c.done then 0 else 1) + (if c.collected then 0 else 1)
  }

  /** What is left to do. */
  function Work(y: System): nat {
    CopierWork(y.server.out) + (if y.server.err.Some? then CopierWork(y.server.err.value) else 0)
      + (if y.server.exited then 0 else 1) + (if y.server.over then 0 else 2) + |y.wire| + (if y.client.finished then 0 else 1)
  }

  lemma {:induction false} ChunksCount(chunks: seq<Bytes>)
    requires forall i :: 0 <= i < |chunks| ==> chunks[i] != []
    ensures |chunks| <= |Chunking.Concat(chunks)|
  {
    if chunks != [] {
      ChunksCount(chunks[1..]);
    }
  }

  /** Every turn brings the end nearer, so no run goes on for ever. */
  lemma WorkShrinks(y: System, t: Turn)
    requires Inv(y) && Possible(y, t)
    ensures Work(Next(y, t)) < Work(y)
  {
    if t.Read? {
      ChunksCount(t.chunks);
    }
  }

  /** A run in which the client has not finished can go on. */
  lemma NeverStuck(y: System)
    requires Inv(y) && !y.client.finished
    ensures exists t :: Possible(y, t)
  {
    if y.wire != [] {
      assert Possible(y, Receive);
    } else if y.server.over {
      assert Possible(y, NoticeEnd);
    } else if y.server.out.collected && (y.server.err.Some? ==> y.server.err.value.collected) {
      assert Possible(y, if y.server.exited then SendExit else ProcessExits);
    } else {
      var err := y.server.out.collected;
      var c := CopierOf(y.server, err);
      CopierMoves(y, err, c);
    }
  }

  lemma CopierMoves(y: System, err: bool, c: Copier)
    requires Inv(y) && (err ==> y.server.err.Some?) && c == CopierOf(y.server, err) && !c.collected
    ensures exists t :: Possible(y, t)
  {
    if c.done {
      assert Possible(y, Collect(err));
    } else if c.queue != [] {
      assert Possible(y, Send(err));
    } else if c.read == |c.source| {
      assert Possible(y, ReportEof(err));
    } else {
      var one := [c.source[c.read]];
      assert Chunking.Concat([one]) == one + [];
      assert Possible(y, Read(err, [one]));
    }
  }
}
