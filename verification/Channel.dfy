/**
 One channel of one endpoint: its state machine, windows, queues and request tables.
 Every function here is one critical section under the channel's mutex.
 */
module Channel {
  import opened Types
  import opened SessionConfig
  import opened Envelope

  datatype State = Opening | Opened | LocalEof | RemoteEof | BothEof | Closing | Closed | Failed
  {
    predicate AllowsRequests() {
      Opened? || LocalEof? || RemoteEof? || BothEof?
    }

    predicate CanSendData() {
      Opened? || RemoteEof?
    }

    predicate CanReceiveData() {
      Opened? || LocalEof?
    }

    predicate SentEof() {
      LocalEof? || BothEof?
    }

    predicate GotEof() {
      RemoteEof? || BothEof?
    }
  }

  datatype Slot = NoSlot | Pending | Active

  /** A request keeps the envelope it came in. */
  datatype Event = RequestEvent(id: nat, want: bool, request: Msg) | EofEvent | CloseEvent

  /** What an event is charged to the budget. */
  function EventSize(ev: Event): nat {
    if ev.RequestEvent? then Body(ev.request) else 1
  }

  function EventBytes(events: seq<Event>): nat {
    if events == [] then 0 else EventSize(events[0]) + EventBytes(events[1..])
  }

  /** The worker has still to see a request that awaits a reply under this id. */
  predicate Unseen(events: seq<Event>, id: nat) {
    exists i :: 0 <= i < |events| && events[i].RequestEvent? && events[i].want && events[i].id == id
  }

  /**
   The fields of Go's Channel. The last five are history, read by no operation: Sends that have
   reserved window but not yet queued their frame, frames queued, Sends taken back, frames that
   arrived, frames Recv returned. `spoiled` records that the application closed the channel or
   abandoned its open or one of its requests; `live` that the application holds the channel;
   `discarded` that its queues were given up and weigh on no budget any more.
   */
  datatype Chan = Chan(
    opener: bool,
    peer: Option<nat>,
    slot: Slot,
    state: State,
    openWait: bool,
    live: bool,
    localWindow: nat,
    remoteWindow: nat,
    maxLocalPacket: nat,
    maxRemotePacket: nat,
    pendingWindow: nat,
    nextRequest: nat,
    pending: set<nat>,
    incoming: set<nat>,
    frames: seq<Bytes>,
    events: seq<Event>,
    discarded: bool,
    spoiled: bool,
    reserved: seq<Bytes>,
    sent: seq<Bytes>,
    cancels: nat,
    arrived: seq<Bytes>,
    delivered: seq<Bytes>)

  /** newPendingChannel */
  function NewOutgoing(): Chan {
    Chan(true, None, Pending, Opening, true, false, 0, 0, 0, 0, 0,
         0, {}, {}, [], [], false, false, [], [], 0, [], [])
  }

  /** newIncomingChannel */
  function NewIncoming(cfg: Config, m: Msg, slot: Slot): Chan
    requires m.Open?
  {
    Chan(false, Some(m.sender), slot, Opening, false, false,
         cfg.initialWindow, m.window, cfg.maxPacketSize, m.maxPacket, 0,
         0, {}, {}, [], [], false, false, [], [], 0, [], [])
  }

  /** The opener's half of a successful open. */
  function Establish(cfg: Config, ch: Chan, m: Msg): Chan
    requires m.OpenOk?
  {
    ch.(peer := Some(m.sender), openWait := false, slot := Active, state := Opened, live := true,
        localWindow := cfg.initialWindow, remoteWindow := m.window,
        maxLocalPacket := cfg.maxPacketSize, maxRemotePacket := m.maxPacket)
  }

  /** Channel.shutdown together with removal from the table. */
  function Fail(ch: Chan): Chan {
    ch.(state := if ch.state.Closed? then Closed else Failed, slot := NoSlot, openWait := false,
        frames := [], pending := {}, discarded := true)
  }

  /** First half of Send: reserve window under the lock. */
  predicate CanReserve(ch: Chan, frame: Bytes) {
    && frame != []
    && ch.state.CanSendData()
    && |frame| <= ch.maxRemotePacket
    && |frame| <= ch.remoteWindow
  }

  function Reserve(ch: Chan, frame: Bytes): Chan
    requires CanReserve(ch, frame)
  {
    ch.(remoteWindow := ch.remoteWindow - |frame|, reserved := ch.reserved + [frame])
  }

  /** Send's refund after a frame that did not go out. */
  function Refund(ch: Chan, size: nat): Chan {
    if ch.remoteWindow <= MAX_U32 && MAX_U32 - ch.remoteWindow >= size
    then ch.(remoteWindow := ch.remoteWindow + size)
    else ch
  }

  /** Second half of Send: the frame went into the outbound queue. */
  function Queued(ch: Chan, i: nat): Chan
    requires i < |ch.reserved|
  {
    ch.(reserved := Drop(ch.reserved, i), sent := ch.sent + [ch.reserved[i]])
  }

  /** handleChannelData's acceptance test. */
  predicate AcceptsData(ch: Chan, data: Bytes) {
    && data != []
    && ch.state.CanReceiveData()
    && |data| <= ch.maxLocalPacket
    && |data| <= ch.localWindow
  }

  function Arrive(ch: Chan, data: Bytes): Chan
    requires |data| <= ch.localWindow
  {
    ch.(localWindow := ch.localWindow - |data|, frames := ch.frames + [data], arrived := ch.arrived + [data])
  }

  /** The window credit one Recv hands back to the peer at once, or 0. */
  function Credit(cfg: Config, ch: Chan): nat
    requires ch.frames != []
  {
    var pending := AddU32(ch.pendingWindow, |ch.frames[0]|);
    if pending >= cfg.windowAdjustThreshold then pending else 0
  }

  /** Recv on a non-empty queue. */
  function Take(cfg: Config, ch: Chan): Chan
    requires ch.frames != []
  {
    var size := |ch.frames[0]|;
    var pending := AddU32(ch.pendingWindow, size);
    ch.(frames := ch.frames[1..],
        localWindow := AddU32(ch.localWindow, size),
        pendingWindow := if pending >= cfg.windowAdjustThreshold then 0 else pending,
        delivered := ch.delivered + [ch.frames[0]])
  }

  /** handleChannelWindowAdjust's acceptance test. */
  predicate AcceptsAdjust(ch: Chan, bytes: nat) {
    ch.state.AllowsRequests() && ch.remoteWindow <= MAX_U32 && MAX_U32 - ch.remoteWindow >= bytes
  }

  function SendEofState(st: State): State
    requires st.CanSendData()
  {
    if st.Opened? then LocalEof else BothEof
  }

  function GetEofState(st: State): State
    requires st.CanReceiveData()
  {
    if st.Opened? then RemoteEof else BothEof
  }

  /** Close on a channel that the application holds. */
  function BeginClose(ch: Chan): Chan {
    ch.(state := Closing, frames := [], pending := {}, discarded := true, spoiled := true)
  }
}
