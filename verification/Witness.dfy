/** Runs within the limits that show where the guarantees of the multiplexer end. */
module Witness {
  import opened Types
  import opened SessionConfig
  import opened Protobuf
  import opened Envelope
  import opened Channel
  import opened Endpoint
  import opened Flight
  import opened Direction
  import opened Network
  import opened MuxErrors
  import opened MuxFlow
  import opened LateSend
  import opened Budget
  import opened Texts

  // ----- sizes

  lemma VarintSmall(n: nat)
    requires n < U32_LIMIT
    ensures 1 <= VarintSize(n) <= 5
  {
    VarintGrows(n, MAX_U32);
    assert VarintSize(MAX_U32) == 5;
  }

  lemma SmallMessage(n: nat)
    requires n < 128
    ensures MessageSize(n) == n + 2
  {
  }

  const TYPE := "t"

  function OpenMsg(cfg: Config, payload: Bytes): Msg {
    Open(0, cfg.initialWindow, cfg.maxPacketSize, TYPE, payload)
  }

  function GrantMsg(cfg: Config): Msg {
    OpenOk(0, 0, cfg.initialWindow, cfg.maxPacketSize, [])
  }

  /** The budget can carry the smallest open: one byte of type, no payload, channel 0. */
  predicate OpensFit(cfg: Config) {
    7 + VarintSize(cfg.initialWindow) + VarintSize(cfg.maxPacketSize) <= cfg.limits.maxQueuedBytesTotal
  }

  lemma OpenSizes(cfg: Config, payload: Bytes)
    requires Checked(cfg) && |payload| <= 1
    ensures Body(OpenMsg(cfg, payload)) == 5 + 3 * |payload| + VarintSize(cfg.initialWindow) + VarintSize(cfg.maxPacketSize) <= 18
    ensures Size(OpenMsg(cfg, payload)) == 2 + Body(OpenMsg(cfg, payload))
    ensures Size(GrantMsg(cfg)) == 6 + VarintSize(cfg.initialWindow) + VarintSize(cfg.maxPacketSize)
  {
    VarintSmall(cfg.initialWindow);
    VarintSmall(cfg.maxPacketSize);
    assert TextSize(|TYPE|) == 3 && TextSize(|payload|) == 3 * |payload|;
    SmallMessage(Body(OpenMsg(cfg, payload)));
    var inner := NumberSize(cfg.initialWindow) + NumberSize(cfg.maxPacketSize);
    SmallMessage(inner);
    SmallMessage(2 + inner);
  }

  /** No open is smaller. */
  lemma OpenAtLeast(cfg: Config, id: nat, typ: string, payload: Bytes)
    requires Checked(cfg) && typ != ""
    ensures Size(Open(id, cfg.initialWindow, cfg.maxPacketSize, typ, payload)) >= 7 + VarintSize(cfg.initialWindow) + VarintSize(cfg.maxPacketSize)
  {
    FieldAtLeast(|typ|);
    FieldAtLeast(Body(Open(id, cfg.initialWindow, cfg.maxPacketSize, typ, payload)));
  }

  lemma TrafficSizes()
    ensures Size(Data(0, [0])) == 5 && Size(Eof(0)) == 2 && EventSize(EofEvent) == 1
  {
    assert TextSize(1) == 3;
    SmallMessage(3);
    SmallMessage(0);
  }

  // ----- endpoints with little in their queues

  /** Nothing is queued. */
  predicate Idle(e: Endpoint) {
    && e.dispatch == [] && e.ctrl == [] && e.out == []
    && Loads(e.chans).frames == 0 && Loads(e.chans).bytes == 0
  }

  lemma Carrying(l: Limits, e: Endpoint, e': Endpoint)
    requires Idle(e) && Within(l, e) && e'.chans == e.chans && e'.pendingGlobal == e.pendingGlobal
    requires |e'.dispatch| + |e'.ctrl| + |e'.out| <= l.maxQueuedFramesTotal
    requires TaskBytes(e'.dispatch) + ControlBytes(e'.ctrl) + OutBytes(e'.out) <= l.maxQueuedBytesTotal
    ensures Within(l, e')
  {
  }

  lemma OneTask(m: Msg)
    ensures TaskBytes([m]) == Body(m) && ControlBytes([m]) == Size(m)
  {
    assert [m][1..] == [];
  }

  lemma OneWrite(w: Write)
    ensures OutBytes([w]) == Size(w.msg)
  {
    assert [w][1..] == [];
  }

  lemma OneLoad(ch: Chan)
    ensures Loads([ch]) == LoadOf(ch)
  {
    assert [ch][1..] == [];
  }

  /** A channel with nothing queued and at most one waiter. */
  predicate Calm(ch: Chan) {
    ch.frames == [] && ch.events == [] && |ch.pending| <= 1
  }

  /** A channel that takes little: at most one entry of its queues and one waiter. */
  predicate Light(l: Limits, ch: Chan) {
    LoadOf(ch).frames <= 1 && LoadOf(ch).bytes <= l.maxQueuedBytesPerChannel && |ch.pending| <= 1
  }

  lemma LightWithin(l: Limits, e: Endpoint, ch: Chan)
    requires LimitsChecked(l) && Light(l, ch) && e.chans == [ch] && e.dispatch == [] && e.ctrl == [] && e.out == [] && |e.pendingGlobal| <= 1
    ensures Within(l, e)
  {
    OneLoad(ch);
    var load := LoadOf(ch);
    assert Loads(e.chans) == load && load.pendings + load.actives <= 1;
    assert UsedFrames(e) == load.frames && UsedBytes(e) == load.bytes;
    assert ChanWithin(l, ch);
  }

  lemma CalmWithin(l: Limits, e: Endpoint, ch: Chan)
    requires LimitsChecked(l) && Calm(ch) && e.chans == [ch] && e.dispatch == [] && e.ctrl == [] && e.out == [] && |e.pendingGlobal| <= 1
    ensures Idle(e) && Within(l, e)
  {
    OneLoad(ch);
    LightWithin(l, e, ch);
  }

  lemma NoneWithin(l: Limits, e: Endpoint)
    requires LimitsChecked(l) && e.chans == [] && e.dispatch == [] && e.ctrl == [] && e.out == [] && |e.pendingGlobal| <= 1
    ensures Idle(e) && Within(l, e)
  {
  }

  /** One task, one control entry or one write on top. */
  lemma CarriesOne(l: Limits, e: Endpoint, m: Msg, from: Option<nat>)
    requires LimitsChecked(l) && Idle(e) && Within(l, e)
    ensures Body(m) <= l.maxQueuedBytesTotal ==> Within(l, e.(dispatch := [m]))
    ensures Size(m) <= l.maxQueuedBytesTotal ==> Within(l, e.(ctrl := [m])) && Within(l, e.(out := [Write(m, from, false)]))
  {
    OneTask(m);
    OneWrite(Write(m, from, false));
    if Body(m) <= l.maxQueuedBytesTotal {
      Carrying(l, e, e.(dispatch := [m]));
    }
    if Size(m) <= l.maxQueuedBytesTotal {
      Carrying(l, e, e.(ctrl := [m]));
      Carrying(l, e, e.(out := [Write(m, from, false)]));
    }
  }

  // ----- one channel, opened by the left end

  function Zeros(k: nat): Bytes {
    seq(k, i => 0)
  }

  /** k frames of one byte each. */
  function Ones(k: nat): seq<Bytes> {
    if k == 0 then [] else Ones(k - 1) + [[0]]
  }

  /** The opener's end after k bytes; the other end after reading them and holding back the credit. */
  function Sender(cfg: Config, k: nat): Chan
    requires k <= cfg.initialWindow
  {
    Establish(cfg, NewOutgoing(), GrantMsg(cfg)).(remoteWindow := cfg.initialWindow - k, sent := Ones(k))
  }

  function Reader(cfg: Config, k: nat): Chan {
    NewIncoming(cfg, OpenMsg(cfg, []), Active).(state := Opened, live := true, pendingWindow := k, arrived := Ones(k), delivered := Ones(k))
  }

  function Holding(ch: Chan): Endpoint {
    INITIAL.(chans := [ch], peers := map[0 := 0])
  }

  const ASKING: Endpoint := INITIAL.(chans := [NewOutgoing()])

  function Base(cfg: Config, k: nat): Net
    requires k <= cfg.initialWindow
  {
    Net(Holding(Sender(cfg, k)), Holding(Reader(cfg, k)), [], [])
  }

  function Left(mv: Move): Turn {
    Turn(true, mv)
  }

  function Right(mv: Move): Turn {
    Turn(false, mv)
  }

  /** The left writer empties its queue. */
  lemma LeftWrites(cfg: Config, tidy: bool, l: Endpoint, r: Endpoint, m: Msg)
    requires Checked(cfg) && l.out == [] && Within(cfg.limits, l)
    requires Reached(cfg, tidy, Net(l.(out := [Write(m, Some(0), false)]), r, [], [])) && !m.OpenOk?
    ensures Reached(cfg, tidy, Net(l, r, [m], []))
  {
    ReachLocal(cfg, tidy, Net(l.(out := [Write(m, Some(0), false)]), r, [], []), Net(l, r, [m], []), true, WriteOutbound);
  }

  function Asked(m: Msg): Endpoint {
    ASKING.(out := [Write(m, Some(0), false)])
  }

  lemma AskedWithin(l: Limits, m: Msg)
    requires LimitsChecked(l) && Size(m) <= l.maxQueuedBytesTotal
    ensures Within(l, Asked(m)) && Within(l, ASKING)
  {
    CalmWithin(l, ASKING, NewOutgoing());
    CarriesOne(l, ASKING, m, Some(0));
  }

  lemma ReachAsking(cfg: Config, tidy: bool, n: Net, m: Msg)
    requires Checked(cfg) && n == START && m.Open? && m == OpenMsg(cfg, m.payload) && |m.payload| <= 1 && Within(cfg.limits, Asked(m))
    ensures Reached(cfg, tidy, Net(Asked(m), n.r, [], []))
  {
    ReachStart(cfg, tidy);
    assert Next(cfg, n.l, OpenChannel(TYPE, m.payload)).out == Asked(m).out;
    ReachLocal(cfg, tidy, n, Net(Asked(m), n.r, [], []), true, OpenChannel(TYPE, m.payload));
  }

  lemma ReachAsked(cfg: Config, tidy: bool, m: Msg)
    requires Checked(cfg) && m.Open? && m == OpenMsg(cfg, m.payload) && |m.payload| <= 1 && Size(m) <= cfg.limits.maxQueuedBytesTotal
    ensures Reached(cfg, tidy, Net(ASKING, INITIAL, [m], []))
  {
    AskedWithin(cfg.limits, m);
    ReachAsking(cfg, tidy, START, m);
    LeftWrites(cfg, tidy, ASKING, INITIAL, m);
  }

  function Undecided(cfg: Config): Endpoint {
    Holding(NewIncoming(cfg, OpenMsg(cfg, []), Pending))
  }

  lemma PendingWithin(cfg: Config, m: Msg)
    requires Checked(cfg) && OpensFit(cfg) && m == OpenMsg(cfg, [])
    ensures Size(m) <= cfg.limits.maxQueuedBytesTotal && Within(cfg.limits, Undecided(cfg).(dispatch := [m]))
  {
    OpenSizes(cfg, []);
    CalmWithin(cfg.limits, Undecided(cfg), NewIncoming(cfg, m, Pending));
    CarriesOne(cfg.limits, Undecided(cfg), m, None);
  }

  lemma ReachPending(cfg: Config, tidy: bool, m: Msg)
    requires Checked(cfg) && m == OpenMsg(cfg, []) && Reached(cfg, tidy, Net(ASKING, INITIAL, [m], []))
    requires Within(cfg.limits, Undecided(cfg).(dispatch := [m]))
    ensures Reached(cfg, tidy, Net(ASKING, Undecided(cfg).(dispatch := [m]), [], []))
  {
    ReachReceive(cfg, tidy, Net(ASKING, INITIAL, [m], []), Net(ASKING, Undecided(cfg).(dispatch := [m]), [], []), false);
  }

  function Accepted(cfg: Config): Chan {
    NewIncoming(cfg, OpenMsg(cfg, []), Pending).(state := Opened, slot := Active)
  }

  function Answering(cfg: Config): Endpoint {
    Holding(Accepted(cfg)).(out := [Write(GrantMsg(cfg), Some(0), false)])
  }

  lemma AnsweringWithin(cfg: Config)
    requires Checked(cfg) && OpensFit(cfg)
    ensures Within(cfg.limits, Answering(cfg))
  {
    OpenSizes(cfg, []);
    CalmWithin(cfg.limits, Holding(Accepted(cfg)), Accepted(cfg));
    CarriesOne(cfg.limits, Holding(Accepted(cfg)), GrantMsg(cfg), Some(0));
  }

  lemma ReachAnswering(cfg: Config, tidy: bool, m: Msg)
    requires Checked(cfg) && m == OpenMsg(cfg, []) && Reached(cfg, tidy, Net(ASKING, Undecided(cfg).(dispatch := [m]), [], []))
    requires Within(cfg.limits, Answering(cfg))
    ensures Reached(cfg, tidy, Net(ASKING, Answering(cfg), [], []))
  {
    ReachAdmit(cfg, tidy, Net(ASKING, Undecided(cfg).(dispatch := [m]), [], []), Net(ASKING, Answering(cfg), [], []), Granted([]));
  }

  lemma ReachAnswered(cfg: Config, tidy: bool)
    requires Checked(cfg) && Reached(cfg, tidy, Net(ASKING, Answering(cfg), [], []))
    ensures Reached(cfg, tidy, Net(ASKING, Holding(Reader(cfg, 0)), [], [GrantMsg(cfg)]))
  {
    assert Accepted(cfg).(live := true) == Reader(cfg, 0);
    CalmWithin(cfg.limits, Holding(Reader(cfg, 0)), Reader(cfg, 0));
    var n' := Net(ASKING, Holding(Reader(cfg, 0)), [], [GrantMsg(cfg)]);
    ReachLocal(cfg, tidy, Net(ASKING, Answering(cfg), [], []), n', false, WriteOutbound);
  }

  lemma ReachOpened(cfg: Config, tidy: bool)
    requires Checked(cfg) && Reached(cfg, tidy, Net(ASKING, Holding(Reader(cfg, 0)), [], [GrantMsg(cfg)]))
    ensures Reached(cfg, tidy, Base(cfg, 0))
  {
    assert Establish(cfg, NewOutgoing(), GrantMsg(cfg)) == Sender(cfg, 0);
    CalmWithin(cfg.limits, Holding(Sender(cfg, 0)), Sender(cfg, 0));
    ReachReceive(cfg, tidy, Net(ASKING, Holding(Reader(cfg, 0)), [], [GrantMsg(cfg)]), Base(cfg, 0), true);
  }

  lemma ReachBase(cfg: Config, tidy: bool)
    requires Checked(cfg) && OpensFit(cfg)
    ensures Reached(cfg, tidy, Base(cfg, 0))
  {
    var m := OpenMsg(cfg, []);
    PendingWithin(cfg, m);
    AnsweringWithin(cfg);
    ReachAsked(cfg, tidy, m);
    ReachPending(cfg, tidy, m);
    ReachAnswering(cfg, tidy, m);
    ReachAnswered(cfg, tidy);
    ReachOpened(cfg, tidy);
  }

  // ----- k bytes go through

  function Reserved(cfg: Config, k: nat): Chan
    requires k < cfg.initialWindow
  {
    Sender(cfg, k).(remoteWindow := cfg.initialWindow - k - 1, reserved := [[0]])
  }

  lemma ReachReserved(cfg: Config, tidy: bool, k: nat)
    requires Checked(cfg) && k < cfg.initialWindow && Reached(cfg, tidy, Base(cfg, k))
    ensures Reached(cfg, tidy, Net(Holding(Reserved(cfg, k)), Holding(Reader(cfg, k)), [], []))
  {
    assert Reserve(Sender(cfg, k), [0]) == Reserved(cfg, k);
    CalmWithin(cfg.limits, Holding(Reserved(cfg, k)), Reserved(cfg, k));
    ReachLocal(cfg, tidy, Base(cfg, k), Net(Holding(Reserved(cfg, k)), Holding(Reader(cfg, k)), [], []), true, ReserveSend(0, [0]));
  }

  lemma SendingWithin(cfg: Config, k: nat, m: Msg)
    requires Checked(cfg) && OpensFit(cfg) && k <= cfg.initialWindow && m == Data(0, [0])
    ensures Within(cfg.limits, Holding(Sender(cfg, k)).(out := [Write(m, Some(0), false)]))
  {
    TrafficSizes();
    CalmWithin(cfg.limits, Holding(Sender(cfg, k)), Sender(cfg, k));
    CarriesOne(cfg.limits, Holding(Sender(cfg, k)), m, Some(0));
  }

  lemma ReachQueued(cfg: Config, tidy: bool, k: nat, m: Msg)
    requires Checked(cfg) && k < cfg.initialWindow && m == Data(0, [0])
    requires Reached(cfg, tidy, Net(Holding(Reserved(cfg, k)), Holding(Reader(cfg, k)), [], []))
    requires Within(cfg.limits, Holding(Sender(cfg, k + 1)).(out := [Write(m, Some(0), false)]))
    ensures Reached(cfg, tidy, Net(Holding(Sender(cfg, k + 1)).(out := [Write(m, Some(0), false)]), Holding(Reader(cfg, k)), [], []))
  {
    var l, r := Holding(Sender(cfg, k + 1)), Holding(Reader(cfg, k));
    assert Queued(Reserved(cfg, k), 0) == Sender(cfg, k + 1);
    ReachLocal(cfg, tidy, Net(Holding(Reserved(cfg, k)), r, [], []), Net(l.(out := [Write(m, Some(0), false)]), r, [], []), true, QueueSend(0, 0));
  }

  lemma ReachSending(cfg: Config, tidy: bool, k: nat, m: Msg)
    requires Checked(cfg) && OpensFit(cfg) && k < cfg.initialWindow && Reached(cfg, tidy, Base(cfg, k)) && m == Data(0, [0])
    ensures Reached(cfg, tidy, Net(Holding(Sender(cfg, k + 1)).(out := [Write(m, Some(0), false)]), Holding(Reader(cfg, k)), [], []))
  {
    ReachReserved(cfg, tidy, k);
    SendingWithin(cfg, k + 1, m);
    ReachQueued(cfg, tidy, k, m);
  }

  lemma ReachSent(cfg: Config, tidy: bool, k: nat, m: Msg)
    requires Checked(cfg) && OpensFit(cfg) && k < cfg.initialWindow && Reached(cfg, tidy, Base(cfg, k)) && m == Data(0, [0])
    ensures Reached(cfg, tidy, Net(Holding(Sender(cfg, k + 1)), Holding(Reader(cfg, k)), [m], []))
  {
    ReachSending(cfg, tidy, k, m);
    CalmWithin(cfg.limits, Holding(Sender(cfg, k + 1)), Sender(cfg, k + 1));
    LeftWrites(cfg, tidy, Holding(Sender(cfg, k + 1)), Holding(Reader(cfg, k)), m);
  }

  function Arrived(cfg: Config, k: nat): Chan {
    Reader(cfg, k).(localWindow := if cfg.initialWindow > 0 then cfg.initialWindow - 1 else 0, frames := [[0]], arrived := Ones(k + 1))
  }

  lemma ReachArrived(cfg: Config, tidy: bool, k: nat, m: Msg)
    requires Checked(cfg) && OpensFit(cfg) && k < cfg.initialWindow && Reached(cfg, tidy, Base(cfg, k)) && m == Data(0, [0])
    ensures Reached(cfg, tidy, Net(Holding(Sender(cfg, k + 1)), Holding(Arrived(cfg, k)), [], []))
  {
    var l := Holding(Sender(cfg, k + 1));
    ReachSent(cfg, tidy, k, m);
    assert Arrive(Reader(cfg, k), [0]) == Arrived(cfg, k);
    TotalSingle([0]);
    LightWithin(cfg.limits, Holding(Arrived(cfg, k)), Arrived(cfg, k));
    ReachReceive(cfg, tidy, Net(l, Holding(Reader(cfg, k)), [m], []), Net(l, Holding(Arrived(cfg, k)), [], []), false);
  }

  lemma ReachOneMore(cfg: Config, tidy: bool, k: nat)
    requires Checked(cfg) && OpensFit(cfg) && k + 1 < cfg.windowAdjustThreshold && Reached(cfg, tidy, Base(cfg, k))
    ensures Reached(cfg, tidy, Base(cfg, k + 1))
  {
    ReachArrived(cfg, tidy, k, Data(0, [0]));
    assert Take(cfg, Arrived(cfg, k)) == Reader(cfg, k + 1);
    CalmWithin(cfg.limits, Holding(Reader(cfg, k + 1)), Reader(cfg, k + 1));
    ReachLocal(cfg, tidy, Net(Holding(Sender(cfg, k + 1)), Holding(Arrived(cfg, k)), [], []), Base(cfg, k + 1), false, RecvFrame(0));
  }

  lemma {:induction false} ReachMany(cfg: Config, tidy: bool, k: nat)
    requires Checked(cfg) && OpensFit(cfg) && k < cfg.windowAdjustThreshold
    ensures Reached(cfg, tidy, Base(cfg, k))
  {
    if k == 0 {
      ReachBase(cfg, tidy);
    } else {
      ReachMany(cfg, tidy, k - 1);
      ReachOneMore(cfg, tidy, k - 1);
    }
  }

  lemma BaseStuck(cfg: Config)
    requires Checked(cfg) && !Roomy(cfg)
    ensures Stuck(Base(cfg, cfg.windowAdjustThreshold - 1), 0, 0, Zeros(cfg.maxPacketSize))
  {
    var n := Base(cfg, cfg.windowAdjustThreshold - 1);
    assert Fly(n.l, n.lr) == [] && Fly(n.r, n.rl) == [];
    assert |Zeros(cfg.maxPacketSize)| == cfg.maxPacketSize;
  }

  // ----- budgets that carry no open

  predicate Mute(m: Msg) {
    !m.Open? && !m.OpenOk?
  }

  ghost predicate AllMute(ms: seq<Msg>) {
    forall i :: 0 <= i < |ms| ==> Mute(ms[i])
  }

  /** No channel has a peer, and nothing queued could give it one. */
  ghost predicate Barren(e: Endpoint) {
    && (forall c :: 0 <= c < |e.chans| ==> e.chans[c].peer.None?)
    && AllMute(e.dispatch) && AllMute(e.ctrl)
    && (forall i :: 0 <= i < |e.out| ==> Mute(e.out[i].msg))
  }

  /** No open ever gets into the queue. */
  lemma NoOpen(cfg: Config, e: Endpoint, typ: string, payload: Bytes)
    requires Checked(cfg) && !OpensFit(cfg) && Enabled(cfg, e, OpenChannel(typ, payload))
    ensures !Within(cfg.limits, Next(cfg, e, OpenChannel(typ, payload)))
  {
    var e' := Next(cfg, e, OpenChannel(typ, payload));
    OutMember(e'.out, |e.out|);
    OpenAtLeast(cfg, |e.chans|, typ, payload);
  }

  lemma LocalBarren(cfg: Config, e: Endpoint, a: Action)
    requires Barren(e) && Enabled(cfg, e, a) && !a.OpenChannel?
    ensures Barren(Next(cfg, e, a)) && AllMute(Emits(e, a)) && !a.QueueSend?
  {
    if a.CancelWrite? {
      CancelBarren(e, a.i);
    } else {
      CallBarren(cfg, e, a);
    }
  }

  lemma CancelBarren(e: Endpoint, i: nat)
    requires Barren(e) && Cancellable(e, i)
    ensures Barren(AfterCancel(e, i))
  {
  }

  lemma CallBarren(cfg: Config, e: Endpoint, a: Action)
    requires Barren(e) && Enabled(cfg, e, a) && !a.OpenChannel? && !a.CancelWrite?
    ensures Barren(Next(cfg, e, a)) && AllMute(Emits(e, a)) && !a.QueueSend?
  {
  }

  lemma RouteBarren(cfg: Config, e: Endpoint, m: Msg, luck: Luck)
    requires Barren(e) && Mute(m) && Route(cfg, e, m, luck).Ok?
    ensures Barren(Route(cfg, e, m, luck).next)
  {
  }

  ghost predicate BarrenNet(n: Net) {
    Barren(n.l) && Barren(n.r) && AllMute(n.lr) && AllMute(n.rl)
  }

  lemma LeftBarren(cfg: Config, n: Net, n': Net, mv: Move)
    requires Checked(cfg) && !OpensFit(cfg) && BarrenNet(n) && LeftMoves(cfg, n, n', mv) && Within(cfg.limits, n'.l)
    ensures BarrenNet(n') && Disciplined(n.l, mv)
  {
    match mv
    case Local(a) =>
      if a.OpenChannel? {
        NoOpen(cfg, n.l, a.typ, a.payload);
      } else {
        LocalBarren(cfg, n.l, a);
      }
    case Admission(_) =>
    case Receive(luck) =>
      RouteBarren(cfg, n.l, n.rl[0], luck);
  }

  lemma StepBarren(cfg: Config, n: Net, n': Net, t: Turn)
    requires Checked(cfg) && !OpensFit(cfg) && BarrenNet(n) && May(cfg, false, n, n', t)
    ensures BarrenNet(n') && Keeps(n, t)
  {
    if t.left {
      LeftBarren(cfg, n, n', t.move);
    } else {
      LeftBarren(cfg, Swap(n), Swap(n'), t.move);
    }
  }

  lemma BarrenAt(cfg: Config, trace: seq<Net>, turns: seq<Turn>, i: nat)
    requires Checked(cfg) && !OpensFit(cfg) && Moves(cfg, false, trace, turns) && i < |turns| && BarrenNet(trace[i])
    ensures BarrenNet(trace[i + 1]) && Keeps(trace[i], turns[i])
  {
    assert May(cfg, false, trace[i], trace[i + 1], turns[i]);
    StepBarren(cfg, trace[i], trace[i + 1], turns[i]);
  }

  lemma RunBarren(cfg: Config, trace: seq<Net>, turns: seq<Turn>, i: nat)
    requires Checked(cfg) && !OpensFit(cfg) && Moves(cfg, false, trace, turns) && i < |trace|
    ensures BarrenNet(trace[i])
  {
    var good := n => BarrenNet(n);
    forall n, n', t | May(cfg, false, n, n', t) && good(n) ensures good(n') {
      StepBarren(cfg, n, n', t);
    }
    KeptAlong(cfg, false, trace, turns, good, i);
  }

  /** Without room for opens there is nothing to be undisciplined about. */
  lemma BarrenReached(cfg: Config, tidy: bool, n: Net)
    requires Checked(cfg) && !OpensFit(cfg) && Reached(cfg, tidy, n)
    ensures BarrenNet(n) && Reached(cfg, true, n)
  {
    var trace, turns :| RunsTo(cfg, tidy, trace, turns, n);
    assert RunsTo(cfg, false, trace, turns, n);
    RunMoves(cfg, false, trace, turns, n);
    RunBarren(cfg, trace, turns, |turns|);
    forall i | 0 <= i < |turns| ensures Keeps(trace[i], turns[i]) {
      RunBarren(cfg, trace, turns, i);
      BarrenAt(cfg, trace, turns, i);
    }
    assert RunsTo(cfg, true, trace, turns, n);
  }

  // ----- when a legal frame can wait for ever

  /** Some disciplined run within the limits leaves a legal frame waiting for ever. */
  ghost predicate CanGetStuck(cfg: Config) {
    exists n, c, q, frame :: Reached(cfg, true, n) && Stuck(n, c, q, frame)
  }

  lemma RoomyNeverStuck(cfg: Config, n: Net, c: nat, q: nat, frame: Bytes)
    requires Checked(cfg) && Roomy(cfg) && Reached(cfg, true, n)
    ensures !Stuck(n, c, q, frame)
  {
    var trace, turns :| RunsTo(cfg, true, trace, turns, n);
    TidyIsRun(cfg, trace, turns, n);
    RunRaised(cfg, trace, turns);
    RaisedFit(cfg);
    NeverStuck(Raised(cfg), trace, turns, |turns|, c, q, frame);
  }

  /** Exactly the configurations without the margin can get stuck, if their budget lets a channel open at all. */
  lemma StuckExactly(cfg: Config)
    requires Checked(cfg)
    ensures CanGetStuck(cfg) <==> !Roomy(cfg) && OpensFit(cfg)
  {
    if !Roomy(cfg) && OpensFit(cfg) {
      ReachMany(cfg, true, cfg.windowAdjustThreshold - 1);
      BaseStuck(cfg);
    } else if CanGetStuck(cfg) {
      var n, c, q, frame :| Reached(cfg, true, n) && Stuck(n, c, q, frame);
      if Roomy(cfg) {
        RoomyNeverStuck(cfg, n, c, q, frame);
      } else {
        BarrenReached(cfg, true, n);
      }
    }
  }

  // ----- CloseWrite between the two halves of Send

  function Shut(cfg: Config): Chan
    requires 0 < cfg.initialWindow
  {
    Reserved(cfg, 0).(state := LocalEof)
  }

  lemma ShuttingWithin(cfg: Config)
    requires Checked(cfg) && OpensFit(cfg)
    ensures Within(cfg.limits, Holding(Shut(cfg)).(out := [Write(Eof(0), Some(0), false)])) && Within(cfg.limits, Holding(Shut(cfg)))
  {
    TrafficSizes();
    CalmWithin(cfg.limits, Holding(Shut(cfg)), Shut(cfg));
    CarriesOne(cfg.limits, Holding(Shut(cfg)), Eof(0), Some(0));
  }

  lemma ReachShut(cfg: Config)
    requires Checked(cfg) && OpensFit(cfg)
    ensures Reached(cfg, false, Net(Holding(Shut(cfg)), Holding(Reader(cfg, 0)), [Eof(0)], []))
  {
    var l, r := Holding(Shut(cfg)), Holding(Reader(cfg, 0));
    ReachBase(cfg, false);
    ReachReserved(cfg, false, 0);
    ShuttingWithin(cfg);
    var n := Net(l.(out := [Write(Eof(0), Some(0), false)]), r, [], []);
    ReachLocal(cfg, false, Net(Holding(Reserved(cfg, 0)), r, [], []), n, true, CloseWrite(0));
    LeftWrites(cfg, false, l, r, Eof(0));
  }

  function Ended(cfg: Config): Chan {
    Reader(cfg, 0).(state := RemoteEof, events := [EofEvent])
  }

  lemma ReachEnded(cfg: Config)
    requires Checked(cfg) && OpensFit(cfg)
    ensures Reached(cfg, false, Net(Holding(Shut(cfg)), Holding(Ended(cfg)), [], []))
  {
    ReachShut(cfg);
    assert EventBytes([EofEvent]) == 1;
    LightWithin(cfg.limits, Holding(Ended(cfg)), Ended(cfg));
    var n := Net(Holding(Shut(cfg)), Holding(Reader(cfg, 0)), [Eof(0)], []);
    assert Reader(cfg, 0).events + [EofEvent] == [EofEvent];
    ReachReceive(cfg, false, n, Net(Holding(Shut(cfg)), Holding(Ended(cfg)), [], []), false);
  }

  /** The frame was reserved before the write side was closed, and queued after. */
  lemma ReachRaced(cfg: Config, m: Msg)
    requires Checked(cfg) && OpensFit(cfg) && m == Data(0, [0])
    ensures Reached(cfg, false, Net(Holding(Sender(cfg, 1).(state := LocalEof)), Holding(Ended(cfg)), [m], []))
  {
    var sent := Sender(cfg, 1).(state := LocalEof);
    ReachEnded(cfg);
    LateWithin(cfg, sent, m);
    assert Queued(Shut(cfg), 0) == sent;
    var n := Net(Holding(sent).(out := [Write(m, Some(0), false)]), Holding(Ended(cfg)), [], []);
    ReachLocal(cfg, false, Net(Holding(Shut(cfg)), Holding(Ended(cfg)), [], []), n, true, QueueSend(0, 0));
    LeftWrites(cfg, false, Holding(sent), Holding(Ended(cfg)), m);
  }

  lemma LateWithin(cfg: Config, sent: Chan, m: Msg)
    requires Checked(cfg) && OpensFit(cfg) && Calm(sent) && m == Data(0, [0])
    ensures Within(cfg.limits, Holding(sent).(out := [Write(m, Some(0), false)])) && Within(cfg.limits, Holding(sent))
  {
    TrafficSizes();
    CalmWithin(cfg.limits, Holding(sent), sent);
    CarriesOne(cfg.limits, Holding(sent), m, Some(0));
  }

  /** Some run within the limits, disciplined or not, ends in a protocol error. */
  ghost predicate CanRace(cfg: Config) {
    exists n :: Reached(cfg, false, n) && Fails(cfg, n)
  }

  /** Without the discipline exactly the configurations that let a channel open have such a run. */
  lemma RaceExactly(cfg: Config)
    requires Checked(cfg) && TextsFit(cfg.limits)
    ensures CanRace(cfg) <==> OpensFit(cfg)
  {
    if OpensFit(cfg) {
      ReachRaced(cfg, Data(0, [0]));
      var n := Net(Holding(Sender(cfg, 1).(state := LocalEof)), Holding(Ended(cfg)), [Data(0, [0])], []);
      assert Fails(cfg, n);
    } else if CanRace(cfg) {
      var n :| Reached(cfg, false, n) && Fails(cfg, n);
      BarrenReached(cfg, false, n);
      var trace, turns :| RunsTo(cfg, true, trace, turns, n);
      SafeWithin(cfg, trace, turns, n);
    }
  }
}
