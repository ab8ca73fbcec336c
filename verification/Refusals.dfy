/** When two honest endpoints can report a protocol error because a reject text of the session's own is too long. */
module Refusals {
  import opened Types
  import opened SessionConfig
  import opened Protobuf
  import opened Envelope
  import opened Channel
  import opened Endpoint
  import opened Network
  import opened MuxErrors
  import opened MuxFlow
  import opened LateSend
  import opened Budget
  import opened Texts
  import opened Witness

  /** In no disciplined run within the limits, without closes and abandoned calls, is there a protocol error. */
  ghost predicate SafeAlways(cfg: Config) {
    forall n :: Reached(cfg, true, n) ==> SafeHere(cfg, n) && SafeHere(cfg, Swap(n))
  }

  lemma FitIsSafe(cfg: Config)
    requires Checked(cfg) && TextsFit(cfg.limits)
    ensures SafeAlways(cfg)
  {
    forall n | Reached(cfg, true, n) ensures SafeHere(cfg, n) && SafeHere(cfg, Swap(n)) {
      var trace, turns :| RunsTo(cfg, true, trace, turns, n);
      SafeWithin(cfg, trace, turns, n);
    }
  }

  /** The left end receives a reject that its limits forbid. */
  lemma TooLong(cfg: Config, n: Net)
    requires Reached(cfg, true, n) && n.rl != [] && !TextsOk(cfg, n.rl[0]) && !n.rl[0].Disconnect?
    ensures !SafeAlways(cfg)
  {
    assert Route(cfg, n.l, n.rl[0], PLENTY).ProtocolError?;
    assert !SafeHere(cfg, n);
  }

  /** With number fields zero and no detail, an envelope is eight bytes longer than its texts. */
  lemma ShortReject(m: Msg, r: Reject)
    requires Carries(m, r) && 0 < |r.code| && 0 < |r.message| && r.detail == [] && |r.code| + |r.message| < 100
    requires match m case OpenReject(o, _) => o == 0 case Reply(t, i, _) => t == 0 && i == 0 case GlobalReply(i, _) => i == 0 case _ => false
    ensures Size(m) == |r.code| + |r.message| + 8
  {
    SmallMessage(|r.code|);
    SmallMessage(|r.message|);
    SmallMessage(RejectSize(r));
    SmallMessage(Body(m));
  }

  // ----- a handler says no and leaves out what would be too long to repeat

  /** What the handler says to get a fallback text of n bytes out. */
  function Curt(cfg: Config, n: nat): Reject {
    if cfg.limits.maxCodeLength < n then Reject("", "m", []) else Reject("c", "", [])
  }

  lemma CurtFails(cfg: Config, n: nat, m: Msg, code: string, message: string)
    requires LimitsChecked(cfg.limits) && !FallbackFits(cfg.limits, n) && n < 90
    requires |code| == n && |message| == n && Carries(m, Normalize(Curt(cfg, n), code, message))
    requires match m case OpenReject(o, _) => o == 0 case Reply(t, i, _) => t == 0 && i == 0 case GlobalReply(i, _) => i == 0 case _ => false
    ensures VerdictOk(cfg, Denied(Curt(cfg, n))) && !TextsOk(cfg, m) && Size(m) <= cfg.limits.maxQueuedBytesTotal
  {
    if n > 0 {
      ShortReject(m, Normalize(Curt(cfg, n), code, message));
    }
  }

  function DeniedOpen(cfg: Config): Msg {
    OpenReject(0, Normalize(Curt(cfg, 21), "channel-open-rejected", "channel open rejected"))
  }

  function Turned(cfg: Config): Chan {
    Fail(NewIncoming(cfg, OpenMsg(cfg, []), Pending))
  }

  lemma RightWrites(cfg: Config, l: Endpoint, r: Endpoint, m: Msg, from: Option<nat>)
    requires Checked(cfg) && r.out == [] && Within(cfg.limits, r)
    requires Reached(cfg, true, Net(l, r.(out := [Write(m, from, false)]), [], [])) && !m.OpenOk?
    ensures Reached(cfg, true, Net(l, r, [], [m]))
  {
    ReachLocal(cfg, true, Net(l, r.(out := [Write(m, from, false)]), [], []), Net(l, r, [], [m]), false, WriteOutbound);
  }

  /** Once such a refusal is queued it is written, and the other end cannot read it. */
  lemma QueuedTooLong(cfg: Config, l: Endpoint, r: Endpoint, m: Msg, from: Option<nat>)
    requires Checked(cfg) && r.out == [] && Within(cfg.limits, r) && !TextsOk(cfg, m) && !m.OpenOk? && !m.Disconnect?
    requires Reached(cfg, true, Net(l, r.(out := [Write(m, from, false)]), [], []))
    ensures !SafeAlways(cfg)
  {
    RightWrites(cfg, l, r, m, from);
    TooLong(cfg, Net(l, r, [], [m]));
  }

  lemma SmallOpens(cfg: Config)
    requires Checked(cfg) && cfg.limits.maxQueuedBytesTotal >= 30
    ensures OpensFit(cfg)
  {
    VarintSmall(cfg.initialWindow);
    VarintSmall(cfg.maxPacketSize);
  }

  /** An idle end with one channel has room for m in its outbound or its control queue. */
  lemma RoomForOne(l: Limits, e: Endpoint, ch: Chan, m: Msg, from: Option<nat>)
    requires LimitsChecked(l) && Calm(ch) && e.chans == [ch] && e.dispatch == [] && e.ctrl == [] && e.out == [] && |e.pendingGlobal| <= 1
    requires Size(m) <= l.maxQueuedBytesTotal
    ensures Within(l, e) && Within(l, e.(ctrl := [m])) && Within(l, e.(out := [Write(m, from, false)]))
  {
    CalmWithin(l, e, ch);
    CarriesOne(l, e, m, from);
  }

  lemma RoomWithNone(l: Limits, e: Endpoint, m: Msg, from: Option<nat>)
    requires LimitsChecked(l) && e.chans == [] && e.dispatch == [] && e.ctrl == [] && e.out == [] && |e.pendingGlobal| <= 1
    ensures Within(l, e)
    ensures Size(m) <= l.maxQueuedBytesTotal ==> Within(l, e.(ctrl := [m])) && Within(l, e.(out := [Write(m, from, false)]))
    ensures Body(m) <= l.maxQueuedBytesTotal ==> Within(l, e.(dispatch := [m]))
  {
    NoneWithin(l, e);
    CarriesOne(l, e, m, from);
  }

  function TurnedDown(cfg: Config): Endpoint {
    INITIAL.(chans := [Turned(cfg)])
  }

  lemma OpenDenied(cfg: Config, m: Msg)
    requires Checked(cfg) && m == DeniedOpen(cfg) && VerdictOk(cfg, Denied(Curt(cfg, 21)))
    requires Within(cfg.limits, TurnedDown(cfg).(out := [Write(m, Some(0), false)]))
    requires Reached(cfg, true, Net(ASKING, Undecided(cfg).(dispatch := [OpenMsg(cfg, [])]), [], []))
    ensures Reached(cfg, true, Net(ASKING, TurnedDown(cfg).(out := [Write(m, Some(0), false)]), [], []))
  {
    var n := Net(ASKING, Undecided(cfg).(dispatch := [OpenMsg(cfg, [])]), [], []);
    assert WithoutLocal(map[0 := 0], 0) == map[];
    ReachAdmit(cfg, true, n, Net(ASKING, TurnedDown(cfg).(out := [Write(m, Some(0), false)]), [], []), Denied(Curt(cfg, 21)));
  }

  lemma OpenUnsafe(cfg: Config)
    requires Checked(cfg) && !FallbackFits(cfg.limits, 21)
    ensures !SafeAlways(cfg)
  {
    var open, m := OpenMsg(cfg, []), DeniedOpen(cfg);
    TextLengths();
    CurtFails(cfg, 21, m, "channel-open-rejected", "channel open rejected");
    SmallOpens(cfg);
    PendingWithin(cfg, open);
    ReachAsked(cfg, true, open);
    ReachPending(cfg, true, open);
    RoomForOne(cfg.limits, TurnedDown(cfg), Turned(cfg), m, Some(0));
    OpenDenied(cfg, m);
    QueuedTooLong(cfg, ASKING, TurnedDown(cfg), m, Some(0));
  }

  // ----- the same for global requests

  function GlobalAsk(payload: Bytes): Msg {
    GlobalRequest(0, TYPE, true, payload)
  }

  function GlobalDenied(cfg: Config): Msg {
    GlobalReply(0, Denied(Normalize(Curt(cfg, 23), "global-request-rejected", "global request rejected")))
  }

  /** The asker waits for the reply; the other end has taken note. */
  const WAITING: Endpoint := INITIAL.(nextGlobal := 1, pendingGlobal := {0})
  const NOTED: Endpoint := INITIAL.(incomingGlobal := {0})

  lemma AskSizes(payload: Bytes)
    requires |payload| <= 1
    ensures Body(GlobalAsk(payload)) == 5 + 3 * |payload| && Size(GlobalAsk(payload)) == 7 + 3 * |payload|
  {
    assert TextSize(|TYPE|) == 3 && TextSize(|payload|) == 3 * |payload|;
    SmallMessage(Body(GlobalAsk(payload)));
  }

  lemma GlobalAsking(cfg: Config, n: Net, m: Msg)
    requires Checked(cfg) && n == START && m.GlobalRequest? && m == GlobalAsk(m.payload) && |m.payload| <= 1
    requires Within(cfg.limits, WAITING.(out := [Write(m, None, false)]))
    ensures Reached(cfg, true, Net(WAITING.(out := [Write(m, None, false)]), n.r, [], []))
  {
    ReachStart(cfg, true);
    assert n.l.pendingGlobal + {0} == {0};
    ReachLocal(cfg, true, n, Net(WAITING.(out := [Write(m, None, false)]), n.r, [], []), true, SendGlobal(TYPE, m.payload, true));
  }

  lemma GlobalAsked(cfg: Config, m: Msg)
    requires Checked(cfg) && m.GlobalRequest? && m == GlobalAsk(m.payload) && |m.payload| <= 1 && cfg.limits.maxQueuedBytesTotal >= 10
    ensures Reached(cfg, true, Net(WAITING, INITIAL, [m], []))
  {
    AskSizes(m.payload);
    RoomWithNone(cfg.limits, WAITING, m, None);
    GlobalAsking(cfg, START, m);
    var n := Net(WAITING.(out := [Write(m, None, false)]), INITIAL, [], []);
    ReachLocal(cfg, true, n, Net(WAITING, INITIAL, [m], []), true, WriteOutbound);
  }

  lemma GlobalHeard(cfg: Config, l: Endpoint, r: Endpoint, m: Msg)
    requires Checked(cfg) && l == WAITING && r == NOTED && m == GlobalAsk([]) && Within(cfg.limits, r.(dispatch := [m]))
    requires Reached(cfg, true, Net(l, INITIAL, [m], []))
    ensures Reached(cfg, true, Net(l, r.(dispatch := [m]), [], []))
  {
    assert INITIAL.incomingGlobal + {0} == {0};
    ReachReceive(cfg, true, Net(l, INITIAL, [m], []), Net(l, r.(dispatch := [m]), [], []), false);
  }

  lemma GlobalTurned(cfg: Config, l: Endpoint, r: Endpoint, m: Msg, no: Msg)
    requires Checked(cfg) && r == NOTED && m == GlobalAsk([]) && no == GlobalDenied(cfg) && VerdictOk(cfg, Denied(Curt(cfg, 23)))
    requires Within(cfg.limits, r.(out := [Write(no, None, false)])) && Reached(cfg, true, Net(l, r.(dispatch := [m]), [], []))
    ensures Reached(cfg, true, Net(l, r.(out := [Write(no, None, false)]), [], []))
  {
    var n := Net(l, r.(dispatch := [m]), [], []);
    ReachLocal(cfg, true, n, Net(l, r.(out := [Write(no, None, false)]), [], []), false, HandleGlobal(Denied(Curt(cfg, 23))));
  }

  lemma GlobalRoom(cfg: Config, e: Endpoint, no: Msg)
    requires Checked(cfg) && !FallbackFits(cfg.limits, 23) && no == GlobalDenied(cfg)
    requires e.chans == [] && e.dispatch == [] && e.ctrl == [] && e.out == [] && e.pendingGlobal == {}
    ensures VerdictOk(cfg, Denied(Curt(cfg, 23))) && !TextsOk(cfg, no)
    ensures Within(cfg.limits, e.(dispatch := [GlobalAsk([])])) && Within(cfg.limits, e.(out := [Write(no, None, false)]))
    ensures Within(cfg.limits, e)
  {
    TextLengths();
    CurtFails(cfg, 23, no, "global-request-rejected", "global request rejected");
    AskSizes([]);
    RoomWithNone(cfg.limits, e, GlobalAsk([]), None);
    RoomWithNone(cfg.limits, e, no, None);
  }

  lemma GlobalTold(cfg: Config, l: Endpoint, r: Endpoint, m: Msg)
    requires Checked(cfg) && l == WAITING && r == NOTED && m == GlobalAsk([]) && Within(cfg.limits, r.(dispatch := [m]))
    requires cfg.limits.maxQueuedBytesTotal >= 10
    ensures Reached(cfg, true, Net(l, r.(dispatch := [m]), [], []))
  {
    GlobalAsked(cfg, m);
    GlobalHeard(cfg, l, r, m);
  }

  lemma GlobalSaid(cfg: Config, l: Endpoint, r: Endpoint, no: Msg)
    requires Checked(cfg) && !FallbackFits(cfg.limits, 23) && l == WAITING && r == NOTED && no == GlobalDenied(cfg)
    ensures !SafeAlways(cfg)
  {
    GlobalRoom(cfg, r, no);
    GlobalTold(cfg, l, r, GlobalAsk([]));
    GlobalTurned(cfg, l, r, GlobalAsk([]), no);
    QueuedTooLong(cfg, l, r, no, None);
  }

  lemma GlobalUnsafe(cfg: Config)
    requires Checked(cfg) && !FallbackFits(cfg.limits, 23)
    ensures !SafeAlways(cfg)
  {
    GlobalSaid(cfg, WAITING, NOTED, GlobalDenied(cfg));
  }

  // ----- the same for channel requests

  function RequestAsk(payload: Bytes): Msg {
    Request(0, 0, TYPE, true, payload)
  }

  function RequestDenied(cfg: Config): Msg {
    Reply(0, 0, Denied(Normalize(Curt(cfg, 24), "channel-request-rejected", "channel request rejected")))
  }

  function Asker(cfg: Config): Chan {
    Sender(cfg, 0).(nextRequest := 1, pending := {0})
  }

  /** The other end has taken note of the request. */
  function Hearer(cfg: Config): Chan {
    Reader(cfg, 0).(incoming := {0})
  }

  lemma RequestSizes(payload: Bytes)
    requires |payload| <= 1
    ensures Body(RequestAsk(payload)) == 5 + 3 * |payload| && Size(RequestAsk(payload)) == 7 + 3 * |payload|
  {
    assert TextSize(|TYPE|) == 3 && TextSize(|payload|) == 3 * |payload|;
    SmallMessage(Body(RequestAsk(payload)));
  }

  lemma RequestAsking(cfg: Config, m: Msg)
    requires Checked(cfg) && m.Request? && m == RequestAsk(m.payload) && |m.payload| <= 1 && Reached(cfg, true, Base(cfg, 0))
    requires Within(cfg.limits, Holding(Asker(cfg)).(out := [Write(m, Some(0), false)]))
    ensures Reached(cfg, true, Net(Holding(Asker(cfg)).(out := [Write(m, Some(0), false)]), Holding(Reader(cfg, 0)), [], []))
  {
    var l := Holding(Asker(cfg)).(out := [Write(m, Some(0), false)]);
    assert Sender(cfg, 0).pending + {0} == {0};
    ReachLocal(cfg, true, Base(cfg, 0), Net(l, Holding(Reader(cfg, 0)), [], []), true, SendRequest(0, TYPE, m.payload, true));
  }

  lemma RequestAsked(cfg: Config, m: Msg)
    requires Checked(cfg) && m.Request? && m == RequestAsk(m.payload) && |m.payload| <= 1 && cfg.limits.maxQueuedBytesTotal >= 30
    ensures Reached(cfg, true, Net(Holding(Asker(cfg)), Holding(Reader(cfg, 0)), [m], []))
  {
    RequestSizes(m.payload);
    SmallOpens(cfg);
    ReachBase(cfg, true);
    RoomForOne(cfg.limits, Holding(Asker(cfg)), Asker(cfg), m, Some(0));
    RequestAsking(cfg, m);
    LeftWrites(cfg, true, Holding(Asker(cfg)), Holding(Reader(cfg, 0)), m);
  }

  function Busy(cfg: Config, m: Msg): Chan {
    Hearer(cfg).(events := [RequestEvent(0, true, m)])
  }

  lemma BusyLoad(ch: Chan, m: Msg)
    requires m == RequestAsk([]) && ch.events == [RequestEvent(0, true, m)] && ch.frames == [] && !ch.discarded
    ensures LoadOf(ch).frames == 1 && LoadOf(ch).bytes == 5
  {
    RequestSizes([]);
    assert ch.events[1..] == [] && Total(ch.frames) == 0;
    assert EventBytes(ch.events) == EventSize(ch.events[0]) == Body(m);
  }

  lemma BusyWithin(cfg: Config, m: Msg)
    requires Checked(cfg) && m == RequestAsk([]) && cfg.limits.maxQueuedBytesPerChannel >= 5
    ensures Within(cfg.limits, Holding(Busy(cfg, m)))
  {
    BusyLoad(Busy(cfg, m), m);
    LightWithin(cfg.limits, Holding(Busy(cfg, m)), Busy(cfg, m));
  }

  lemma RequestHeard(cfg: Config, m: Msg)
    requires Checked(cfg) && m == RequestAsk([]) && Within(cfg.limits, Holding(Busy(cfg, m)))
    requires Reached(cfg, true, Net(Holding(Asker(cfg)), Holding(Reader(cfg, 0)), [m], []))
    ensures Reached(cfg, true, Net(Holding(Asker(cfg)), Holding(Busy(cfg, m)), [], []))
  {
    var n := Net(Holding(Asker(cfg)), Holding(Reader(cfg, 0)), [m], []);
    assert Reader(cfg, 0).incoming + {0} == {0};
    assert Reader(cfg, 0).events + [RequestEvent(0, true, m)] == [RequestEvent(0, true, m)];
    ReachReceive(cfg, true, n, Net(Holding(Asker(cfg)), Holding(Busy(cfg, m)), [], []), false);
  }

  lemma RequestTurned(cfg: Config, m: Msg, no: Msg)
    requires Checked(cfg) && m == RequestAsk([]) && no == RequestDenied(cfg) && VerdictOk(cfg, Denied(Curt(cfg, 24)))
    requires Within(cfg.limits, Holding(Hearer(cfg)).(out := [Write(no, Some(0), false)]))
    requires Reached(cfg, true, Net(Holding(Asker(cfg)), Holding(Busy(cfg, m)), [], []))
    ensures Reached(cfg, true, Net(Holding(Asker(cfg)), Holding(Hearer(cfg)).(out := [Write(no, Some(0), false)]), [], []))
  {
    var n := Net(Holding(Asker(cfg)), Holding(Busy(cfg, m)), [], []);
    var r := Holding(Hearer(cfg)).(out := [Write(no, Some(0), false)]);
    assert [RequestEvent(0, true, m)][1..] == [];
    ReachLocal(cfg, true, n, Net(Holding(Asker(cfg)), r, [], []), false, HandleEvent(0, Denied(Curt(cfg, 24))));
  }

  lemma RequestUnsafe(cfg: Config)
    requires Checked(cfg) && !FallbackFits(cfg.limits, 24) && cfg.limits.maxQueuedBytesPerChannel >= 5
    ensures !SafeAlways(cfg)
  {
    var m, no := RequestAsk([]), RequestDenied(cfg);
    TextLengths();
    CurtFails(cfg, 24, no, "channel-request-rejected", "channel request rejected");
    RequestAsked(cfg, m);
    BusyWithin(cfg, m);
    RoomForOne(cfg.limits, Holding(Hearer(cfg)), Hearer(cfg), no, Some(0));
    RequestHeard(cfg, m);
    RequestTurned(cfg, m, no);
    QueuedTooLong(cfg, Holding(Asker(cfg)), Holding(Hearer(cfg)), no, Some(0));
  }
}
