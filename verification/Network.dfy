/**
 Two endpoints joined by two FIFO links, their runs, and the invariant that every run keeps.
 The left endpoint's moves are spelled out; the right endpoint's are the same in the mirror.
 */
module Network {
  import opened Types
  import opened SessionConfig
  import opened Envelope
  import opened Channel
  import opened Endpoint
  import opened Flight
  import opened Direction

  datatype Net = Net(l: Endpoint, r: Endpoint, lr: seq<Msg>, rl: seq<Msg>)

  const START := Net(INITIAL, INITIAL, [], [])

  function Swap(n: Net): Net {
    Net(n.r, n.l, n.rl, n.lr)
  }

  datatype Move = Local(a: Action) | Admission(decision: Verdict) | Receive(luck: Luck)

  /** The one discipline asked of applications: no Send puts its frame in the queue after CloseWrite. */
  predicate Disciplined(e: Endpoint, mv: Move) {
    mv.Local? && mv.a.QueueSend? && mv.a.c < |e.chans| ==> !e.chans[mv.a.c].state.SentEof()
  }

  predicate LeftMoves(cfg: Config, n: Net, n': Net, mv: Move) {
    match mv
    case Local(a) =>
      Enabled(cfg, n.l, a) && n' == n.(l := Next(cfg, n.l, a), lr := n.lr + Emits(n.l, a))
    case Admission(d) =>
      n.l.dispatch != [] && n.l.dispatch[0].Open? && Admit(cfg, n.l, d).Ok? && n' == n.(l := Admit(cfg, n.l, d).next)
    case Receive(luck) =>
      n.rl != [] && Route(cfg, n.l, n.rl[0], luck).Ok? && n' == n.(l := Route(cfg, n.l, n.rl[0], luck).next, rl := n.rl[1..])
  }

  /** Who moves, and how. */
  datatype Turn = Turn(left: bool, move: Move)

  predicate Step(cfg: Config, n: Net, n': Net, t: Turn) {
    if t.left then LeftMoves(cfg, n, n', t.move) && Disciplined(n.l, t.move)
    else LeftMoves(cfg, Swap(n), Swap(n'), t.move) && Disciplined(n.r, t.move)
  }

  /** Every finite run from the start: the states visited and the turns between them. */
  predicate Run(cfg: Config, trace: seq<Net>, turns: seq<Turn>) {
    && |trace| == |turns| + 1
    && trace[0] == START
    && forall i :: 0 <= i < |turns| ==> Step(cfg, trace[i], trace[i + 1], turns[i])
  }

  lemma StepAt(cfg: Config, trace: seq<Net>, turns: seq<Turn>, i: nat)
    requires Run(cfg, trace, turns) && i < |turns|
    ensures Step(cfg, trace[i], trace[i + 1], turns[i])
  {
  }

  // ----- what holds of one endpoint

  predicate StaticOk(cfg: Config, m: Msg) {
    match m
    case Open(_, w, p, typ, payload) => w == cfg.initialWindow && p == cfg.maxPacketSize && TypeOk(cfg, typ, payload)
    case OpenOk(_, _, w, p, payload) =>
      w == cfg.initialWindow && p == cfg.maxPacketSize && |payload| <= cfg.limits.maxControlPayload
    case OpenReject(_, r) => RejectOk(cfg, r)
    case Data(_, data) => 0 < |data| <= cfg.maxPacketSize
    case Request(_, _, typ, _, payload) => TypeOk(cfg, typ, payload)
    case Reply(_, _, v) => VerdictOk(cfg, v)
    case GlobalRequest(_, typ, _, payload) => TypeOk(cfg, typ, payload)
    case GlobalReply(_, v) => VerdictOk(cfg, v)
    case Disconnect(_, _) => false
    case _ => true
  }

  ghost predicate AllStatic(cfg: Config, ms: seq<Msg>) {
    forall m :: m in ms ==> StaticOk(cfg, m)
  }

  predicate ChanOk(ch: Chan) {
    && (ch.openWait ==> ch == NewOutgoing())
    && (ch.opener ==> (ch.state.Opening? <==> ch.openWait) && (ch.peer.Some? ==> ch.live))
    && (!ch.opener ==> ch.peer.Some?)
    && (ch.live ==> ch.peer.Some? && !ch.state.Opening?)
    && (ch.slot == Pending ==> ch.state.Opening?)
    && (ch.slot == Active <==> ch.state.AllowsRequests() || ch.state.Closing?)
    && (ch.slot == Active ==> ch.peer.Some?)
    && (ch.state.Closing? ==> ch.spoiled && ch.live)
    && (CloseEvent in ch.events ==> ch.slot == NoSlot)
  }

  predicate SendOk(cfg: Config, ch: Chan) {
    && (ch.peer.Some? ==> ch.maxRemotePacket == cfg.maxPacketSize)
    && (forall i :: 0 <= i < |ch.reserved| ==> 0 < |ch.reserved[i]| <= cfg.maxPacketSize)
    && (forall id :: id in ch.pending ==> id < ch.nextRequest)
  }

  ghost predicate PeersOk(e: Endpoint) {
    && (forall q :: q in e.peers ==> InTable(e, e.peers[q]) && e.chans[e.peers[q]].peer == Some(q))
    && (forall c: nat :: InTable(e, c) && e.chans[c].peer.Some? ==>
          e.chans[c].peer.value in e.peers && e.peers[e.chans[c].peer.value] == c)
  }

  ghost predicate TasksOk(e: Endpoint) {
    forall m :: m in e.dispatch ==> m.GlobalRequest? || (m.Open? && TaskOk(e, m.sender))
  }

  predicate TaskOk(e: Endpoint, s: nat) {
    && s in e.peers
    && e.peers[s] < |e.chans|
    && !e.chans[e.peers[s]].opener
    && e.chans[e.peers[s]].slot == Pending
  }

  predicate WriteOk(e: Endpoint, w: Write) {
    && (w.msg.Data? || w.msg.Request? || w.msg.Open? || w.msg.OpenOk? ==> w.from.Some? && w.from.value < |e.chans|)
    && (w.msg.Open? || w.msg.OpenOk? ==> w.from == Some(w.msg.sender))
    && (w.msg.Data? || w.msg.Request? ==>
          var ch := e.chans[w.from.value];
          && ch.peer == Some(w.msg.to)
          && ch.live
          && (w.msg.Request? && !w.msg.want ==> w.msg.id !in ch.pending && w.msg.id < ch.nextRequest))
    && (w.msg.Close? ==> false)
  }

  ghost predicate EndpointOk(cfg: Config, e: Endpoint) {
    && CtrlOk(e.ctrl)
    && AllStatic(cfg, e.dispatch)
    && (forall c :: 0 <= c < |e.chans| ==> ChanOk(e.chans[c]) && SendOk(cfg, e.chans[c]))
    && (forall i :: 0 <= i < |e.out| ==> WriteOk(e, e.out[i]))
    && PeersOk(e)
    && TasksOk(e)
  }

  // ----- how the two channel tables and the messages between them fit together
  //       f carries x's messages to y, of which xy is already on the wire; g carries y's to x

  function CountPeer(chans: seq<Chan>, q: nat): nat {
    if chans == [] then 0
    else (if chans[0].peer == Some(q) then 1 else 0) + CountPeer(chans[1..], q)
  }

  /** How often x may have told y about its channel c, counting what y made of it. */
  function Announced(x: Endpoint, c: nat): nat {
    if c < |x.chans| && (x.chans[c].opener || !x.chans[c].state.Opening?) then 1 else 0
  }

  ghost predicate AnnounceOk(x: Endpoint, y: Endpoint, f: seq<Msg>) {
    forall c: nat :: Count(f, Announces(c)) + CountPeer(y.chans, c) <= Announced(x, c)
  }

  /** x's open of channel c: on its way, in y's dispatcher, or answered and on its way back. */
  function Tokens(y: Endpoint, f: seq<Msg>, g: seq<Msg>, c: nat): nat {
    Count(f, Opens(c)) + Count(y.dispatch, Opens(c)) + Count(g, Answers(c))
  }

  ghost predicate TokensOk(x: Endpoint, y: Endpoint, f: seq<Msg>, g: seq<Msg>) {
    forall c: nat :: TokenOk(x, c, Tokens(y, f, g, c))
  }

  predicate TokenOk(x: Endpoint, c: nat, tokens: nat) {
    if c < |x.chans| && x.chans[c].opener
    then
      && tokens <= 1
      && (x.chans[c].openWait ==> tokens == 1)
      && (!x.chans[c].openWait && !(x.chans[c].spoiled && x.chans[c].peer.None?) ==> tokens == 0)
    else tokens == 0
  }

  ghost predicate GrantsOk(x: Endpoint, xy: seq<Msg>, f: seq<Msg>) {
    && (forall m :: m in f && m.OpenOk? ==> GrantOk(x, m))
    && (forall m :: m in xy && m.OpenOk? ==> m.sender < |x.chans| && x.chans[m.sender].live)
  }

  predicate GrantOk(x: Endpoint, m: Msg)
    requires m.OpenOk?
  {
    && m.sender < |x.chans|
    && !x.chans[m.sender].opener
    && x.chans[m.sender].peer == Some(m.opener)
    && !x.chans[m.sender].state.Opening?
    && (x.chans[m.sender].live || x.chans[m.sender].slot == Active)
  }

  /** A refusal under way speaks of no channel that x still keeps. */
  ghost predicate RefusalsOk(x: Endpoint, f: seq<Msg>) {
    forall m, p :: m in f && m.OpenReject? && 0 <= p < |x.chans| && !x.chans[p].opener && x.chans[p].peer == Some(m.opener) ==>
      x.chans[p].slot == NoSlot && !x.chans[p].live
  }

  /** Channel c of x, in the application's hands, is the mate of y's channel q. */
  predicate Speaks(x: Endpoint, c: nat, q: nat) {
    c < |x.chans| && x.chans[c].live && x.chans[c].peer == Some(q)
  }

  ghost predicate RoutesOk(x: Endpoint, f: seq<Msg>) {
    forall q: nat :: Count(f, For(q)) > 0 ==> exists c: nat :: Speaks(x, c, q)
  }

  ghost predicate MatesOk(x: Endpoint, y: Endpoint) {
    forall c :: 0 <= c < |x.chans| && x.chans[c].peer.Some? ==> MateOk(x, y, c)
  }

  predicate MateOk(x: Endpoint, y: Endpoint, c: nat)
    requires c < |x.chans| && x.chans[c].peer.Some?
  {
    var q := x.chans[c].peer.value;
    && q < |y.chans|
    && (x.chans[c].opener ==> !y.chans[q].opener && y.chans[q].peer == Some(c) && y.chans[q].live)
    && (!x.chans[c].opener ==> y.chans[q].opener && (y.chans[q].peer.None? || y.chans[q].peer == Some(c)))
    && (!x.chans[c].opener && x.chans[c].live && y.chans[q].peer.None? ==> y.chans[q].openWait || y.chans[q].spoiled)
    && (x.chans[c].live && !x.chans[c].spoiled && !y.chans[q].spoiled ==> x.chans[c].slot == Active)
  }

  /** No message for channel q stands before the answer to q's open. */
  predicate OpenFirst(ms: seq<Msg>, q: nat) {
    ms == [] || Has(ms[0], Answers(q)) || (!Has(ms[0], For(q)) && OpenFirst(ms[1..], q))
  }

  ghost predicate GreetingsOk(x: Endpoint, y: Endpoint, xy: seq<Msg>) {
    forall c: nat, q: nat :: Speaks(x, c, q) && !x.chans[c].opener && q < |y.chans| && y.chans[q].openWait ==>
      OpenFirst(xy, q) && Count(xy, Answers(q)) > 0
  }

  ghost predicate ClosesOk(x: Endpoint, y: Endpoint, f: seq<Msg>) {
    forall c: nat, q: nat :: Speaks(x, c, q) && q < |y.chans| && Count(f, Closes(q)) > 0 ==>
      x.chans[c].spoiled || y.chans[q].spoiled
  }

  ghost predicate LinksOk(x: Endpoint, y: Endpoint, xy: seq<Msg>, f: seq<Msg>, g: seq<Msg>) {
    && AnnounceOk(x, y, f)
    && TokensOk(x, y, f, g)
    && GrantsOk(x, xy, f)
    && RefusalsOk(x, f)
    && RoutesOk(x, f)
    && MatesOk(x, y)
    && GreetingsOk(x, y, xy)
    && ClosesOk(x, y, f)
  }

  // ----- channel pairs

  /** Channels c of x and q of y belong together and neither application has spoiled its end. */
  predicate Mated(x: Endpoint, y: Endpoint, c: nat, q: nat) {
    && c < |x.chans| && q < |y.chans|
    && !x.chans[c].spoiled && !y.chans[q].spoiled
    && (|| (!y.chans[q].opener && y.chans[q].peer == Some(c) && y.chans[q].slot != NoSlot)
        || (!x.chans[c].opener && x.chans[c].peer == Some(q) && x.chans[c].slot != NoSlot))
  }

  ghost predicate PairOk(cfg: Config, x: Endpoint, y: Endpoint, f: seq<Msg>, g: seq<Msg>, c: nat, q: nat)
    requires c < |x.chans| && q < |y.chans|
  {
    && DirOk(cfg, ViewOf(x.chans[c], y.chans[q], c, q, f, g))
    && DirOk(cfg, ViewOf(y.chans[q], x.chans[c], q, c, g, f))
  }

  ghost predicate PairsOk(cfg: Config, x: Endpoint, y: Endpoint, f: seq<Msg>, g: seq<Msg>) {
    forall c: nat, q: nat :: Mated(x, y, c, q) ==> PairOk(cfg, x, y, f, g, c, q)
  }

  // ----- global requests

  /** The global requests of x that are still to be answered, awaited or not. */
  function Owed(x: Endpoint): set<nat> {
    x.pendingGlobal + x.forsaken
  }

  ghost predicate GlobalsOk(x: Endpoint, y: Endpoint, f: seq<Msg>, g: seq<Msg>) {
    && Asks(f, None) + Asks(y.dispatch, None) + Replies(g, None) == multiset(Owed(x)) && x.pendingGlobal !! x.forsaken
    && (forall id :: id in Owed(x) ==> id < x.nextGlobal)
    && (forall id :: id in y.incomingGlobal ==> id < x.nextGlobal && id !in Asks(f, None))
  }

  /** f and g stand for everything under way from x to y and from y to x. */
  ghost predicate InvAt(cfg: Config, x: Endpoint, y: Endpoint, xy: seq<Msg>, yx: seq<Msg>, f: seq<Msg>, g: seq<Msg>) {
    && EndpointOk(cfg, x)
    && EndpointOk(cfg, y)
    && AllStatic(cfg, f)
    && AllStatic(cfg, g)
    && LinksOk(x, y, xy, f, g)
    && LinksOk(y, x, yx, g, f)
    && PairsOk(cfg, x, y, f, g)
    && GlobalsOk(x, y, f, g)
    && GlobalsOk(y, x, g, f)
  }

  ghost predicate Inv(cfg: Config, n: Net) {
    InvAt(cfg, n.l, n.r, n.lr, n.rl, Fly(n.l, n.lr), Fly(n.r, n.rl))
  }

  lemma InvSwap(cfg: Config, n: Net)
    requires Inv(cfg, n)
    ensures Inv(cfg, Swap(n))
  {
    var f, g := Fly(n.l, n.lr), Fly(n.r, n.rl);
    forall c: nat, q: nat | Mated(n.r, n.l, c, q) ensures PairOk(cfg, n.r, n.l, g, f, c, q) {
      assert Mated(n.l, n.r, q, c);
    }
  }

  lemma StartOk(cfg: Config)
    ensures Inv(cfg, START)
  {
    assert Fly(INITIAL, []) == [];
  }
}
