/**
 One session endpoint as a transition system. Each action is one critical section (or a group that
 holds no other goroutine up) of lib/session. Whether a limit has room is a parameter of the action:
 every claim made of runs holds for every answer. SessionObjects.dfy keeps the limits exactly.
 */
module Endpoint {
  import opened Types
  import opened SessionConfig
  import opened Envelope
  import opened Channel

  /** An entry of the outbound queue; `from` is the local channel whose call queued it. */
  datatype Write = Write(msg: Msg, from: Option<nat>, cancelled: bool)

  /** `forsaken` is history: global requests whose callers gave up after they were sent. */
  datatype Endpoint = Endpoint(
    chans: seq<Chan>,
    peers: map<nat, nat>,
    nextGlobal: nat,
    pendingGlobal: set<nat>,
    forsaken: set<nat>,
    incomingGlobal: set<nat>,
    dispatch: seq<Msg>,
    ctrl: seq<Msg>,
    out: seq<Write>)

  const INITIAL := Endpoint([], map[], 0, {}, {}, {}, [], [], [])

  /** What handling one envelope or one dispatch task comes to. */
  datatype Outcome = Ok(next: Endpoint) | ProtocolError | Fatal

  /** Answers to the limit checks met on the way: channel table, receive queue, control queue. */
  datatype Luck = Luck(admit: bool, queue: bool, control: bool)

  predicate InTable(e: Endpoint, c: nat) {
    c < |e.chans| && e.chans[c].slot != NoSlot
  }

  function SetChan(e: Endpoint, c: nat, ch: Chan): Endpoint
    requires c < |e.chans|
  {
    e.(chans := e.chans[c := ch])
  }

  function PutOut(e: Endpoint, m: Msg, from: Option<nat>): Endpoint {
    e.(out := e.out + [Write(m, from, false)])
  }

  function PutCtrl(e: Endpoint, m: Msg): Endpoint {
    e.(ctrl := e.ctrl + [m])
  }

  /** The peer ids left in the table once local channel c is removed. */
  function WithoutLocal(peers: map<nat, nat>, c: nat): map<nat, nat> {
    map q | q in peers && peers[q] != c :: peers[q]
  }

  /** Session.removeChannel, with the channel's own fields set to ch. */
  function Remove(e: Endpoint, c: nat, ch: Chan): Endpoint
    requires c < |e.chans|
  {
    e.(chans := e.chans[c := ch], peers := WithoutLocal(e.peers, c))
  }

  // ----- the receiver: routeEnvelope and its handlers

  function RecvOpen(cfg: Config, e: Endpoint, m: Msg, luck: Luck): Outcome
    requires m.Open?
  {
    var id := |e.chans|;
    if !TypeOk(cfg, m.typ, m.payload) then ProtocolError
    else if id >= MAX_U64 then Fatal
    else if !luck.admit then
      if !luck.control then Fatal
      else Ok(PutCtrl(e.(chans := e.chans + [NewIncoming(cfg, m, NoSlot)]),
                      OpenReject(m.sender, LimitReject("channel limit reached"))))
    else if m.sender in e.peers then ProtocolError
    else if !luck.queue then
      if !luck.control then Fatal
      else Ok(PutCtrl(e.(chans := e.chans + [Fail(NewIncoming(cfg, m, Pending))]),
                      OpenReject(m.sender, LimitReject("channel queue limit reached"))))
    else
      Ok(e.(chans := e.chans + [NewIncoming(cfg, m, Pending)],
            peers := e.peers[m.sender := id],
            dispatch := e.dispatch + [m]))
  }

  function RecvOpenOk(cfg: Config, e: Endpoint, m: Msg): Outcome
    requires m.OpenOk?
  {
    var c := m.opener;
    if !InTable(e, c) || !e.chans[c].state.Opening? || !e.chans[c].openWait then ProtocolError
    else if |m.payload| > cfg.limits.maxControlPayload then ProtocolError
    else if m.sender in e.peers then ProtocolError
    else if e.chans[c].slot != Pending then Fatal
    else Ok(SetChan(e.(peers := e.peers[m.sender := c]), c, Establish(cfg, e.chans[c], m)))
  }

  function RecvOpenReject(cfg: Config, e: Endpoint, m: Msg): Outcome
    requires m.OpenReject?
  {
    var c := m.opener;
    if !InTable(e, c) || !e.chans[c].state.Opening? || !e.chans[c].openWait then ProtocolError
    else if !RejectOk(cfg, m.reject) then ProtocolError
    else Ok(Remove(e, c, Fail(e.chans[c])))
  }

  function RecvData(e: Endpoint, m: Msg, luck: Luck): Outcome
    requires m.Data?
  {
    if !InTable(e, m.to) || !AcceptsData(e.chans[m.to], m.data) then ProtocolError
    else if !luck.queue then Fatal
    else Ok(SetChan(e, m.to, Arrive(e.chans[m.to], m.data)))
  }

  function RecvAdjust(e: Endpoint, m: Msg): Outcome
    requires m.Adjust?
  {
    if !InTable(e, m.to) || !AcceptsAdjust(e.chans[m.to], m.bytes) then ProtocolError
    else
      var ch := e.chans[m.to];
      Ok(SetChan(e, m.to, ch.(remoteWindow := AddU32(ch.remoteWindow, m.bytes))))
  }

  function RecvEof(e: Endpoint, m: Msg, luck: Luck): Outcome
    requires m.Eof?
  {
    if !InTable(e, m.to) || !e.chans[m.to].state.CanReceiveData() then ProtocolError
    else if !luck.queue then Fatal
    else
      var ch := e.chans[m.to];
      Ok(SetChan(e, m.to, ch.(state := GetEofState(ch.state), events := ch.events + [EofEvent])))
  }

  function RecvClose(e: Endpoint, m: Msg, luck: Luck): Outcome
    requires m.Close?
  {
    if !InTable(e, m.to) then ProtocolError
    else
      var ch := e.chans[m.to];
      if ch.state.Closing? then Ok(Remove(e, m.to, ch.(state := Closed, slot := NoSlot)))
      else if !ch.state.AllowsRequests() then ProtocolError
      else if !luck.queue || !luck.control || ch.peer.None? then Fatal
      else
        Ok(PutCtrl(Remove(e, m.to, ch.(state := Closed, slot := NoSlot, events := ch.events + [CloseEvent])),
                   Close(ch.peer.value)))
  }

  function RecvRequest(cfg: Config, e: Endpoint, m: Msg, luck: Luck): Outcome
    requires m.Request?
  {
    if !TypeOk(cfg, m.typ, m.payload) || !InTable(e, m.to) || !e.chans[m.to].state.AllowsRequests() then ProtocolError
    else
      var ch := e.chans[m.to];
      if m.want && m.id in ch.incoming then ProtocolError
      else
        var noted := if m.want then ch.(incoming := ch.incoming + {m.id}) else ch;
        if luck.queue then Ok(SetChan(e, m.to, noted.(events := ch.events + [RequestEvent(m.id, m.want, m)])))
        else if !m.want || !luck.control || ch.peer.None? then Fatal
        else Ok(PutCtrl(SetChan(e, m.to, noted),
                        Reply(ch.peer.value, m.id, Denied(LimitReject("channel request queue limit reached")))))
  }

  function RecvReply(cfg: Config, e: Endpoint, m: Msg): Outcome
    requires m.Reply?
  {
    if !InTable(e, m.to) || m.id !in e.chans[m.to].pending || !VerdictOk(cfg, m.verdict) then ProtocolError
    else
      var ch := e.chans[m.to];
      Ok(SetChan(e, m.to, ch.(pending := ch.pending - {m.id})))
  }

  function RecvGlobalRequest(cfg: Config, e: Endpoint, m: Msg, luck: Luck): Outcome
    requires m.GlobalRequest?
  {
    if !TypeOk(cfg, m.typ, m.payload) || (m.want && m.id in e.incomingGlobal) then ProtocolError
    else
      var noted := if m.want then e.(incomingGlobal := e.incomingGlobal + {m.id}) else e;
      if luck.queue then Ok(noted.(dispatch := e.dispatch + [m]))
      else if !m.want || !luck.control then Fatal
      else Ok(PutCtrl(noted, GlobalReply(m.id, Denied(LimitReject("global request queue limit reached")))))
  }

  function RecvGlobalReply(cfg: Config, e: Endpoint, m: Msg): Outcome
    requires m.GlobalReply?
  {
    if m.id !in e.pendingGlobal || !VerdictOk(cfg, m.verdict) then ProtocolError
    else Ok(e.(pendingGlobal := e.pendingGlobal - {m.id}))
  }

  /** Session.routeEnvelope */
  function Route(cfg: Config, e: Endpoint, m: Msg, luck: Luck): Outcome {
    match m
    case Open(_, _, _, _, _) => RecvOpen(cfg, e, m, luck)
    case OpenOk(_, _, _, _, _) => RecvOpenOk(cfg, e, m)
    case OpenReject(_, _) => RecvOpenReject(cfg, e, m)
    case Data(_, _) => RecvData(e, m, luck)
    case Adjust(_, _) => RecvAdjust(e, m)
    case Eof(_) => RecvEof(e, m, luck)
    case Close(_) => RecvClose(e, m, luck)
    case Request(_, _, _, _, _) => RecvRequest(cfg, e, m, luck)
    case Reply(_, _, _) => RecvReply(cfg, e, m)
    case GlobalRequest(_, _, _, _) => RecvGlobalRequest(cfg, e, m, luck)
    case GlobalReply(_, _) => RecvGlobalReply(cfg, e, m)
    case Disconnect(code, message) => if RejectOk(cfg, Reject(code, message, [])) then Fatal else ProtocolError
  }

  // ----- the dispatcher

  /** Session.handleChannelOpen on the head of the dispatch queue. */
  function Admit(cfg: Config, e: Endpoint, decision: Verdict): Outcome
    requires e.dispatch != [] && e.dispatch[0].Open?
  {
    var task := e.dispatch[0];
    var rest := e.(dispatch := e.dispatch[1..]);
    if task.sender !in e.peers || !InTable(e, e.peers[task.sender]) then ProtocolError
    else if !VerdictOk(cfg, decision) then Fatal
    else
      var c := e.peers[task.sender];
      match decision
      case Denied(r) =>
        Ok(PutOut(Remove(rest, c, Fail(e.chans[c])),
                  OpenReject(task.sender, Normalize(r, "channel-open-rejected", "channel open rejected")),
                  Some(c)))
      case Granted(payload) =>
        if !e.chans[c].state.Opening? then ProtocolError
        else if e.chans[c].slot != Pending then Fatal
        else
          Ok(PutOut(SetChan(rest, c, e.chans[c].(state := Opened, slot := Active)),
                    OpenOk(task.sender, c, cfg.initialWindow, cfg.maxPacketSize, payload),
                    Some(c)))
  }

  /** The verdict on a request as it goes onto the wire. */
  function Answer(v: Verdict, code: string, message: string): Verdict {
    match v
    case Granted(_) => v
    case Denied(r) => Denied(Normalize(r, code, message))
  }

  // ----- actions of the application, the workers and the writer; a call that a limit refuses
  //       before anything is queued only spends an id

  datatype Action =
    | OpenChannel(typ: string, payload: Bytes)
    | ReserveSend(c: nat, frame: Bytes)
    | QueueSend(c: nat, i: nat)
    | FailSend(c: nat, i: nat)
    | CancelWrite(i: nat)
    | RecvFrame(c: nat)
    | SendRequest(c: nat, typ: string, payload: Bytes, want: bool)
    | CloseWrite(c: nat)
    | CloseChannel(c: nat)
    | CloseTimeout(c: nat)
    | AbandonOpen(c: nat)
    | AbandonRequest(c: nat, id: nat)
    | AbandonGlobal(id: nat)
    | CancelGlobal(i: nat)
    | SendGlobal(typ: string, payload: Bytes, want: bool)
    | HandleGlobal(verdict: Verdict)
    | HandleEvent(c: nat, verdict: Verdict)
    | FinishRequest(c: nat, id: nat)
    | FinishGlobal(id: nat)
    | SpendChannelId
    | SpendRequestId(c: nat)
    | SpendGlobalId
    | WriteControl
    | WriteOutbound

  /** The application may only use channels it was handed. */
  predicate Held(e: Endpoint, c: nat) {
    c < |e.chans| && e.chans[c].live && e.chans[c].peer.Some?
  }

  predicate Cancellable(e: Endpoint, i: nat) {
    && i < |e.out|
    && !e.out[i].cancelled
    && e.out[i].from.Some?
    && e.out[i].from.value < |e.chans|
    && (e.out[i].msg.Data? || e.out[i].msg.Request? || e.out[i].msg.Open?)
  }

  predicate Enabled(cfg: Config, e: Endpoint, a: Action) {
    match a
    case OpenChannel(typ, payload) => TypeOk(cfg, typ, payload) && |e.chans| < MAX_U64
    case ReserveSend(c, frame) => Held(e, c) && CanReserve(e.chans[c], frame)
    case QueueSend(c, i) => Held(e, c) && i < |e.chans[c].reserved|
    case FailSend(c, i) => Held(e, c) && i < |e.chans[c].reserved|
    case CancelWrite(i) => Cancellable(e, i)
    case RecvFrame(c) => Held(e, c) && e.chans[c].frames != []
    case SendRequest(c, typ, payload, _) =>
      Held(e, c) && TypeOk(cfg, typ, payload) && e.chans[c].state.AllowsRequests() && e.chans[c].nextRequest < MAX_U64
    case CloseWrite(c) => Held(e, c) && e.chans[c].state.CanSendData()
    case CloseChannel(c) => Held(e, c) && e.chans[c].state.AllowsRequests()
    case CloseTimeout(c) => c < |e.chans| && e.chans[c].state.Closing?
    case AbandonOpen(c) => c < |e.chans| && e.chans[c].opener && e.chans[c].state.Opening?
    case AbandonRequest(c, id) => Held(e, c) && id in e.chans[c].pending
    case AbandonGlobal(id) => id in e.pendingGlobal
    case CancelGlobal(i) => i < |e.out| && !e.out[i].cancelled && e.out[i].msg.GlobalRequest?
    case SendGlobal(typ, payload, _) => TypeOk(cfg, typ, payload) && e.nextGlobal < MAX_U64
    case HandleGlobal(v) => e.dispatch != [] && e.dispatch[0].GlobalRequest? && VerdictOk(cfg, v)
    case HandleEvent(c, v) => Held(e, c) && e.chans[c].events != [] && VerdictOk(cfg, v)
    case FinishRequest(c, id) =>
      c < |e.chans| && id in e.chans[c].incoming && !Unseen(e.chans[c].events, id)
    case FinishGlobal(id) => id in e.incomingGlobal
    case SpendChannelId => |e.chans| < MAX_U64
    case SpendRequestId(c) => Held(e, c) && e.chans[c].state.AllowsRequests() && e.chans[c].nextRequest < MAX_U64
    case SpendGlobalId => e.nextGlobal < MAX_U64
    case WriteControl => e.ctrl != []
    case WriteOutbound => e.out != []
  }

  /** What the action puts on the wire. */
  function Emits(e: Endpoint, a: Action): seq<Msg> {
    if a.WriteControl? && e.ctrl != [] then [e.ctrl[0]]
    else if a.WriteOutbound? && e.out != [] && !e.out[0].cancelled then [e.out[0].msg]
    else []
  }

  function AfterCancel(e: Endpoint, i: nat): Endpoint
    requires Cancellable(e, i)
  {
    var c := e.out[i].from.value;
    var ch := e.chans[c];
    var marked := e.(out := e.out[i := e.out[i].(cancelled := true)]);
    match e.out[i].msg
    case Data(_, data) => SetChan(marked, c, Refund(ch, |data|).(cancels := ch.cancels + 1))
    case Request(_, id, _, _, _) => SetChan(marked, c, ch.(pending := ch.pending - {id}))
    case _ => Remove(marked, c, Fail(ch))
  }

  /** A global request taken back while it was still in the queue. */
  function AfterUnasked(e: Endpoint, i: nat): Endpoint
    requires i < |e.out| && e.out[i].msg.GlobalRequest?
  {
    var m := e.out[i].msg;
    var gone := if m.want then {m.id} else {};
    e.(out := e.out[i := e.out[i].(cancelled := true)], pendingGlobal := e.pendingGlobal - gone, forsaken := e.forsaken - gone)
  }

  function AfterEvent(e: Endpoint, c: nat, v: Verdict): Endpoint
    requires Held(e, c) && e.chans[c].events != []
  {
    var ch := e.chans[c];
    var popped := ch.(events := ch.events[1..]);
    match ch.events[0]
    case RequestEvent(id, want, _) =>
      if want then
        PutOut(SetChan(e, c, popped),
               Reply(ch.peer.value, id, Answer(v, "channel-request-rejected", "channel request rejected")), Some(c))
      else SetChan(e, c, popped)
    case EofEvent => SetChan(e, c, popped)
    case CloseEvent => SetChan(e, c, popped.(pending := {}))
  }

  function AfterWrite(e: Endpoint): Endpoint
    requires e.out != []
  {
    var w := e.out[0];
    var rest := e.(out := e.out[1..]);
    if !w.cancelled && w.msg.OpenOk? && w.from.Some? && w.from.value < |e.chans|
    then SetChan(rest, w.from.value, e.chans[w.from.value].(live := true))
    else rest
  }

  function Next(cfg: Config, e: Endpoint, a: Action): Endpoint
    requires Enabled(cfg, e, a)
  {
    match a
    case OpenChannel(typ, payload) =>
      PutOut(e.(chans := e.chans + [NewOutgoing()]),
             Open(|e.chans|, cfg.initialWindow, cfg.maxPacketSize, typ, payload), Some(|e.chans|))
    case ReserveSend(c, frame) => SetChan(e, c, Reserve(e.chans[c], frame))
    case QueueSend(c, i) =>
      PutOut(SetChan(e, c, Queued(e.chans[c], i)), Data(e.chans[c].peer.value, e.chans[c].reserved[i]), Some(c))
    case FailSend(c, i) =>
      var ch := e.chans[c];
      SetChan(e, c, Refund(ch, |ch.reserved[i]|).(reserved := Drop(ch.reserved, i)))
    case CancelWrite(i) => AfterCancel(e, i)
    case RecvFrame(c) =>
      var ch := e.chans[c];
      var taken := SetChan(e, c, Take(cfg, ch));
      if Credit(cfg, ch) > 0 then PutOut(taken, Adjust(ch.peer.value, Credit(cfg, ch)), Some(c)) else taken
    case SendRequest(c, typ, payload, want) =>
      var ch := e.chans[c];
      var id := ch.nextRequest;
      var asked := ch.(nextRequest := id + 1, pending := if want then ch.pending + {id} else ch.pending);
      PutOut(SetChan(e, c, asked), Request(ch.peer.value, id, typ, want, payload), Some(c))
    case CloseWrite(c) =>
      var ch := e.chans[c];
      PutOut(SetChan(e, c, ch.(state := SendEofState(ch.state))), Eof(ch.peer.value), Some(c))
    case CloseChannel(c) => PutCtrl(SetChan(e, c, BeginClose(e.chans[c])), Close(e.chans[c].peer.value))
    case CloseTimeout(c) => Remove(e, c, e.chans[c].(state := Closed, slot := NoSlot))
    case AbandonOpen(c) => Remove(e, c, Fail(e.chans[c]).(spoiled := true))
    case AbandonRequest(c, id) =>
      SetChan(e, c, e.chans[c].(pending := e.chans[c].pending - {id}, spoiled := true))
    case AbandonGlobal(id) => e.(pendingGlobal := e.pendingGlobal - {id}, forsaken := e.forsaken + {id})
    case CancelGlobal(i) => AfterUnasked(e, i)
    case SendGlobal(typ, payload, want) =>
      var id := e.nextGlobal;
      PutOut(e.(nextGlobal := id + 1, pendingGlobal := if want then e.pendingGlobal + {id} else e.pendingGlobal),
             GlobalRequest(id, typ, want, payload), None)
    case HandleGlobal(v) =>
      var task := e.dispatch[0];
      var rest := e.(dispatch := e.dispatch[1..]);
      if task.want
      then PutOut(rest, GlobalReply(task.id, Answer(v, "global-request-rejected", "global request rejected")), None)
      else rest
    case HandleEvent(c, v) => AfterEvent(e, c, v)
    case FinishRequest(c, id) => SetChan(e, c, e.chans[c].(incoming := e.chans[c].incoming - {id}))
    case FinishGlobal(id) => e.(incomingGlobal := e.incomingGlobal - {id})
    case SpendChannelId => e.(chans := e.chans + [Fail(NewOutgoing())])
    case SpendRequestId(c) => SetChan(e, c, e.chans[c].(nextRequest := e.chans[c].nextRequest + 1))
    case SpendGlobalId => e.(nextGlobal := e.nextGlobal + 1)
    case WriteControl => e.(ctrl := e.ctrl[1..])
    case WriteOutbound => AfterWrite(e)
  }
}
