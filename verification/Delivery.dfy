/** In-order delivery over whole runs, across closes, cancelled sends and abandoned calls. */
module Delivery {
  import opened Types
  import opened SessionConfig
  import opened Envelope
  import opened Channel
  import opened Endpoint
  import opened Flight
  import opened Direction
  import opened Network
  import opened Links
  import opened Mates
  import opened Traffic
  import opened Removal
  import opened Opening
  import opened Receiving
  import opened Parting
  import opened Greeting
  import opened Incoming
  import opened MuxSafety

  /** The frames under way to channel q, in order. */
  function FramesFor(f: seq<Msg>, q: nat): seq<Bytes> {
    DataOf(Stream(f, q))
  }

  /** What reached t, followed by what is under way, is what s sent without the sends taken back. */
  predicate SentAt(s: Chan, t: Chan, frames: seq<Bytes>) {
    && Sub(t.arrived + frames, s.sent)
    && |s.sent| == |t.arrived| + |frames| + s.cancels
  }

  ghost predicate SentOk(x: Endpoint, y: Endpoint, f: seq<Msg>) {
    forall c: nat, q: nat :: c < |x.chans| && q < |y.chans| && x.chans[c].peer == Some(q) ==>
      SentAt(x.chans[c], y.chans[q], FramesFor(f, q))
  }

  /** Nothing arrives from nowhere. */
  ghost predicate SilentOk(x: Endpoint, y: Endpoint) {
    forall q: nat :: q < |y.chans| && CountPeer(x.chans, q) == 0 ==> y.chans[q].arrived == []
  }

  /** What Recv returned and what it will return is what arrived, unless the channel was closed here. */
  predicate ReadAt(ch: Chan) {
    && ch.delivered + ch.frames <= ch.arrived
    && (!ch.spoiled || ch.state.AllowsRequests() ==> ch.delivered + ch.frames == ch.arrived)
    && (ch.state.Opening? || ch.peer.None? ==> ch.arrived == [] && ch.sent == [] && ch.cancels == 0)
  }

  predicate ReadOk(e: Endpoint) {
    forall c :: 0 <= c < |e.chans| ==> ReadAt(e.chans[c])
  }

  ghost predicate HistoryAt(x: Endpoint, y: Endpoint, f: seq<Msg>, g: seq<Msg>) {
    && SentOk(x, y, f) && SentOk(y, x, g) && SilentOk(x, y) && SilentOk(y, x) && ReadOk(x) && ReadOk(y)
  }

  ghost predicate History(n: Net) {
    HistoryAt(n.l, n.r, Fly(n.l, n.lr), Fly(n.r, n.rl))
  }

  // ----- moves that write no history

  predicate SameBook(a: Chan, b: Chan) {
    b.peer == a.peer && b.sent == a.sent && b.cancels == a.cancels && b.arrived == a.arrived
  }

  ghost predicate SameBooks(x: Endpoint, x': Endpoint) {
    |x'.chans| == |x.chans| && forall d :: 0 <= d < |x.chans| ==> SameBook(x.chans[d], x'.chans[d])
  }

  ghost predicate SameFrames(f: seq<Msg>, f': seq<Msg>) {
    forall q: nat :: FramesFor(f', q) == FramesFor(f, q)
  }

  lemma IdleHistory(x: Endpoint, x': Endpoint, y: Endpoint, f: seq<Msg>, f': seq<Msg>, g: seq<Msg>, g': seq<Msg>)
    requires HistoryAt(x, y, f, g) && SameBooks(x, x') && ReadOk(x') && SameFrames(f, f') && SameFrames(g, g')
    ensures HistoryAt(x', y, f', g')
  {
    forall q: nat ensures CountPeer(x'.chans, q) == CountPeer(x.chans, q) { PeerSame(x'.chans, x.chans, q); }
    forall c: nat, q: nat | c < |x'.chans| && q < |y.chans| && x'.chans[c].peer == Some(q)
      ensures SentAt(x'.chans[c], y.chans[q], FramesFor(f', q))
    {
      assert SentAt(x.chans[c], y.chans[q], FramesFor(f, q));
    }
    forall c: nat, q: nat | c < |y.chans| && q < |x'.chans| && y.chans[c].peer == Some(q)
      ensures SentAt(y.chans[c], x'.chans[q], FramesFor(g', q))
    {
      assert SentAt(y.chans[c], x.chans[q], FramesFor(g, q));
    }
  }

  function Last<T>(s: seq<T>): T
    requires s != []
  {
    s[|s| - 1]
  }

  /** e' is e with at most one more entry in the outbound queue, which is not data. */
  predicate NoDataPut(e: Endpoint, e': Endpoint) {
    e'.out == e.out || (e'.out != [] && e'.out == e.out + [Last(e'.out)] && !Last(e'.out).msg.Data?)
  }

  lemma FramesOfFly(e: Endpoint, wire: seq<Msg>, q: nat)
    requires CtrlOk(e.ctrl)
    ensures FramesFor(Fly(e, wire), q) == FramesFor(wire, q) + FramesFor(Live(e.out), q)
  {
    StreamConcat(wire + Live(e.out), e.ctrl, q);
    StreamConcat(wire, Live(e.out), q);
    CtrlStream(e.ctrl, q);
    DataConcat(Stream(wire, q), Stream(Live(e.out), q));
    assert Stream(wire, q) + Stream(Live(e.out), q) + [] == Stream(wire, q) + Stream(Live(e.out), q);
  }

  lemma LastLive(out: seq<Write>, w: Write, q: nat)
    requires !w.msg.Data?
    ensures FramesFor(Live(out + [w]), q) == FramesFor(Live(out), q)
  {
    LiveConcat(out, [w]);
    assert [w][1..] == [];
    StreamConcat(Live(out), Live([w]), q);
    DataConcat(Stream(Live(out), q), Stream(Live([w]), q));
    NoFrames(w, q);
  }

  lemma NoFrames(w: Write, q: nat)
    requires !w.msg.Data?
    ensures DataOf(Stream(Live([w]), q)) == []
  {
    assert [w][1..] == [];
    if !w.cancelled {
      assert Live([w]) == [w.msg];
      Single(w.msg);
      DataUnit(End);
    } else {
      assert Live([w]) == [];
    }
  }

  lemma NoDataFrame(e: Endpoint, e': Endpoint, wire: seq<Msg>, q: nat)
    requires CtrlOk(e.ctrl) && CtrlOk(e'.ctrl) && NoDataPut(e, e')
    ensures FramesFor(Fly(e', wire), q) == FramesFor(Fly(e, wire), q)
  {
    FramesOfFly(e, wire, q);
    FramesOfFly(e', wire, q);
    if e'.out != e.out {
      LastLive(e.out, Last(e'.out), q);
    }
  }

  lemma NoDataFrames(e: Endpoint, e': Endpoint, wire: seq<Msg>)
    requires CtrlOk(e.ctrl) && CtrlOk(e'.ctrl) && NoDataPut(e, e')
    ensures SameFrames(Fly(e, wire), Fly(e', wire))
  {
    forall q: nat ensures FramesFor(Fly(e', wire), q) == FramesFor(Fly(e, wire), q) {
      NoDataFrame(e, e', wire, q);
    }
  }

  lemma SameStreams(f: seq<Msg>, f': seq<Msg>)
    requires Same(f, f')
    ensures SameFrames(f, f')
  {
  }

  lemma PoppedFrames(g: seq<Msg>, g': seq<Msg>, m: Msg)
    requires Popped(g, g', m) && !m.Data?
    ensures SameFrames(g, g')
  {
    forall q: nat ensures FramesFor(g', q) == FramesFor(g, q) {
      assert Stream(g, q) == StreamOf(m, q) + Stream(g', q);
      DataConcat(StreamOf(m, q), Stream(g', q));
      DataUnit(End);
    }
  }

  lemma LostFrames(f: seq<Msg>, f': seq<Msg>, m: Msg)
    requires Lost(f, f', m) && !m.Data? && !m.Eof?
    ensures SameFrames(f, f')
  {
    forall q: nat ensures FramesFor(f', q) == FramesFor(f, q) {
      assert Cut(Stream(f, q), Stream(f', q), StreamOf(m, q)) && StreamOf(m, q) == [];
      NoCut(Stream(f, q), Stream(f', q));
    }
  }

  // ----- what a single endpoint does to its own books

  predicate Bookless(e: Endpoint, a: Action) {
    && !a.OpenChannel? && !a.QueueSend? && !a.WriteControl? && !a.WriteOutbound?
    && !a.CancelWrite? && !a.CancelGlobal? && !a.SpendChannelId?
  }

  lemma LocalBooks(cfg: Config, e: Endpoint, a: Action)
    requires Enabled(cfg, e, a) && Bookless(e, a)
    ensures SameBooks(e, Next(cfg, e, a))
  {
    if Calls(a) {
      CallBooks(cfg, e, a);
    } else {
      OtherBooks(cfg, e, a);
    }
  }

  lemma CallBooks(cfg: Config, e: Endpoint, a: Action)
    requires Enabled(cfg, e, a) && Bookless(e, a) && Calls(a)
    ensures SameBooks(e, Next(cfg, e, a))
  {
  }

  lemma OtherBooks(cfg: Config, e: Endpoint, a: Action)
    requires Enabled(cfg, e, a) && Bookless(e, a) && !Calls(a)
    ensures SameBooks(e, Next(cfg, e, a))
  {
  }

  lemma LocalPuts(cfg: Config, e: Endpoint, a: Action)
    requires Enabled(cfg, e, a) && Bookless(e, a)
    ensures NoDataPut(e, Next(cfg, e, a))
  {
  }

  predicate ChansOk(e: Endpoint) {
    forall c :: 0 <= c < |e.chans| ==> ChanOk(e.chans[c])
  }

  lemma TakeReads(cfg: Config, ch: Chan)
    requires ReadAt(ch) && ch.frames != []
    ensures ReadAt(Take(cfg, ch))
  {
    assert ch.delivered + [ch.frames[0]] + ch.frames[1..] == ch.delivered + ch.frames;
  }

  lemma CloseReads(ch: Chan)
    requires ReadAt(ch)
    ensures ReadAt(BeginClose(ch)) || ch.state.Opening? || ch.peer.None?
  {
    assert ch.delivered + [] == ch.delivered;
  }

  lemma FailReads(ch: Chan)
    requires ReadAt(ch) && (ch.state.Opening? || ch.peer.None?)
    ensures ReadAt(Fail(ch)) && ReadAt(Fail(ch).(spoiled := true))
  {
  }

  lemma CallReads(cfg: Config, e: Endpoint, a: Action)
    requires ChansOk(e) && ReadOk(e) && Enabled(cfg, e, a) && Calls(a) && !a.CancelWrite?
    ensures ReadOk(Next(cfg, e, a))
  {
    if a.RecvFrame? {
      TakeReads(cfg, e.chans[a.c]);
    }
  }

  lemma EndReads(cfg: Config, e: Endpoint, a: Action)
    requires ChansOk(e) && ReadOk(e) && Enabled(cfg, e, a) && Ends(a)
    ensures ReadOk(Next(cfg, e, a))
  {
    if a.CloseChannel? {
      CloseReads(e.chans[a.c]);
    } else if a.AbandonOpen? {
      FailReads(e.chans[a.c]);
    }
  }

  /** The calls that leave the channel table as it was. */
  predicate Tableless(a: Action) {
    a.WriteControl? || a.WriteOutbound? || a.SendGlobal? || a.HandleGlobal? || a.FinishGlobal? || a.AbandonGlobal? || a.CancelGlobal? || a.SpendGlobalId?
  }

  lemma TablelessReads(cfg: Config, e: Endpoint, a: Action)
    requires ReadOk(e) && Enabled(cfg, e, a) && Tableless(a)
    ensures ReadOk(Next(cfg, e, a))
  {
  }

  lemma EventReads(cfg: Config, e: Endpoint, a: Action)
    requires ReadOk(e) && Enabled(cfg, e, a) && a.HandleEvent?
    ensures ReadOk(Next(cfg, e, a))
  {
  }

  lemma OtherReads(cfg: Config, e: Endpoint, a: Action)
    requires ChansOk(e) && ReadOk(e) && Enabled(cfg, e, a) && !Calls(a) && !Ends(a)
    ensures ReadOk(Next(cfg, e, a))
  {
    if Tableless(a) {
      TablelessReads(cfg, e, a);
    } else if a.HandleEvent? {
      EventReads(cfg, e, a);
    }
  }

  lemma LocalReads(cfg: Config, e: Endpoint, a: Action)
    requires ChansOk(e) && ReadOk(e) && Enabled(cfg, e, a) && !a.CancelWrite?
    ensures ReadOk(Next(cfg, e, a))
  {
    if Calls(a) {
      CallReads(cfg, e, a);
    } else if Ends(a) {
      EndReads(cfg, e, a);
    } else {
      OtherReads(cfg, e, a);
    }
  }

  predicate RoutesBookless(m: Msg) {
    !m.Open? && !m.OpenOk? && !m.Data?
  }

  lemma RouteBooks(cfg: Config, e: Endpoint, m: Msg, luck: Luck)
    requires Route(cfg, e, m, luck).Ok? && RoutesBookless(m)
    ensures SameBooks(e, Route(cfg, e, m, luck).next)
  {
  }

  lemma RoutePuts(cfg: Config, e: Endpoint, m: Msg, luck: Luck)
    requires Route(cfg, e, m, luck).Ok?
    ensures NoDataPut(e, Route(cfg, e, m, luck).next)
  {
  }

  lemma ArriveReads(ch: Chan, data: Bytes)
    requires ReadAt(ch) && AcceptsData(ch, data) && ChanOk(ch)
    ensures ReadAt(Arrive(ch, data))
  {
    assert ch.delivered + (ch.frames + [data]) == ch.delivered + ch.frames + [data];
  }

  lemma DataReads(cfg: Config, e: Endpoint, m: Msg, luck: Luck)
    requires ChansOk(e) && ReadOk(e) && m.Data? && RecvData(e, m, luck).Ok?
    ensures ReadOk(RecvData(e, m, luck).next)
  {
    ArriveReads(e.chans[m.to], m.data);
  }

  lemma RejectReads(cfg: Config, e: Endpoint, m: Msg)
    requires ChansOk(e) && ReadOk(e) && m.OpenReject? && RecvOpenReject(cfg, e, m).Ok?
    ensures ReadOk(RecvOpenReject(cfg, e, m).next)
  {
    FailReads(e.chans[m.opener]);
  }

  lemma ControlReads(cfg: Config, e: Endpoint, m: Msg, luck: Luck)
    requires ChansOk(e) && ReadOk(e) && Route(cfg, e, m, luck).Ok? && !m.Data? && !m.OpenReject? && !m.Close?
    ensures ReadOk(Route(cfg, e, m, luck).next)
  {
  }

  lemma CloseArrives(e: Endpoint, m: Msg, luck: Luck)
    requires ChansOk(e) && ReadOk(e) && m.Close? && RecvClose(e, m, luck).Ok?
    ensures ReadOk(RecvClose(e, m, luck).next)
  {
  }

  lemma RouteReads(cfg: Config, e: Endpoint, m: Msg, luck: Luck)
    requires ChansOk(e) && ReadOk(e) && Route(cfg, e, m, luck).Ok?
    ensures ReadOk(Route(cfg, e, m, luck).next)
  {
    if m.Data? {
      DataReads(cfg, e, m, luck);
    } else if m.OpenReject? {
      RejectReads(cfg, e, m);
    } else if m.Close? {
      CloseArrives(e, m, luck);
    } else {
      ControlReads(cfg, e, m, luck);
    }
  }

  lemma AdmitBooks(cfg: Config, e: Endpoint, d: Verdict)
    requires e.dispatch != [] && e.dispatch[0].Open? && Admit(cfg, e, d).Ok?
    ensures SameBooks(e, Admit(cfg, e, d).next) && NoDataPut(e, Admit(cfg, e, d).next)
  {
  }

  lemma AdmitReads(cfg: Config, e: Endpoint, d: Verdict)
    requires EndpointOk(cfg, e) && ReadOk(e) && e.dispatch != [] && e.dispatch[0].Open? && Admit(cfg, e, d).Ok?
    ensures ReadOk(Admit(cfg, e, d).next)
  {
    TaskFacts(cfg, e);
    FailReads(e.chans[e.peers[e.dispatch[0].sender]]);
  }

  // ----- moves that write history

  /** Channels keep their peers, so a channel with peer q is the only one. */
  lemma OnlyPeer(x: Endpoint, y: Endpoint, g: seq<Msg>, c: nat, d: nat, q: nat)
    requires AnnounceOk(y, x, g) && c < |x.chans| && d < |x.chans| && x.chans[c].peer == Some(q) && x.chans[d].peer == Some(q)
    ensures c == d
  {
    assert Count(g, Announces(q)) + CountPeer(x.chans, q) <= Announced(y, q);
    PeerUnique(x.chans, c, d, q);
  }

  /** Only channel c of x and what is under way to its peer changed, and they still fit. */
  lemma SenderHistory(x: Endpoint, x': Endpoint, y: Endpoint, f: seq<Msg>, f': seq<Msg>, g: seq<Msg>, c: nat, q: nat)
    requires HistoryAt(x, y, f, g) && AnnounceOk(y, x, g) && ReadOk(x')
    requires OnlyChan(x, x', c) && x.chans[c].peer == Some(q) && x'.chans[c].arrived == x.chans[c].arrived
    requires forall p: nat :: p != q ==> FramesFor(f', p) == FramesFor(f, p)
    requires q < |y.chans| ==> SentAt(x'.chans[c], y.chans[q], FramesFor(f', q))
    ensures HistoryAt(x', y, f', g)
  {
    forall p: nat ensures CountPeer(x'.chans, p) == CountPeer(x.chans, p) { PeerSame(x'.chans, x.chans, p); }
    forall d: nat, p: nat | d < |x'.chans| && p < |y.chans| && x'.chans[d].peer == Some(p)
      ensures SentAt(x'.chans[d], y.chans[p], FramesFor(f', p))
    {
      if d != c {
        assert SentAt(x.chans[d], y.chans[p], FramesFor(f, p));
        if p == q {
          OnlyPeer(x, y, g, c, d, q);
        }
      }
    }
    forall d: nat, p: nat | d < |y.chans| && p < |x'.chans| && y.chans[d].peer == Some(p)
      ensures SentAt(y.chans[d], x'.chans[p], FramesFor(g, p))
    {
      assert SentAt(y.chans[d], x.chans[p], FramesFor(g, p));
    }
  }

  lemma QueuedFrames(f: seq<Msg>, f': seq<Msg>, m: Msg)
    requires Grew(f, f', m) && m.Data?
    ensures FramesFor(f', m.to) == FramesFor(f, m.to) + [m.data]
    ensures forall p: nat :: p != m.to ==> FramesFor(f', p) == FramesFor(f, p)
  {
    forall p: nat ensures FramesFor(f', p) == FramesFor(f, p) + (if p == m.to then [m.data] else []) {
      assert Stream(f', p) == Stream(f, p) + StreamOf(m, p);
      DataConcat(Stream(f, p), StreamOf(m, p));
      DataUnit(Frame(m.data));
    }
  }

  lemma QueueSent(s: Chan, t: Chan, frames: seq<Bytes>, i: nat)
    requires SentAt(s, t, frames) && i < |s.reserved|
    ensures SentAt(Queued(s, i), t, frames + [s.reserved[i]])
  {
    SubAppend(t.arrived + frames, s.sent, s.reserved[i]);
    assert t.arrived + (frames + [s.reserved[i]]) == t.arrived + frames + [s.reserved[i]];
  }

  lemma HistoryQueue(cfg: Config, n: Net, n': Net, c: nat, i: nat)
    requires Fit(cfg) && Inv(cfg, n) && History(n) && LeftMoves(cfg, n, n', Local(QueueSend(c, i)))
    ensures History(n')
  {
    var l, q := n.l, n.l.chans[c].peer.value;
    var mid, m := SetChan(l, c, Queued(l.chans[c], i)), Data(q, l.chans[c].reserved[i]);
    var f, f', g := Fly(l, n.lr), Fly(n'.l, n'.lr), Fly(n.r, n.rl);
    assert n'.lr == n.lr && Fly(mid, n.lr) == f;
    OutGrows(mid, n.lr, m, Some(c));
    QueuedFrames(f, f', m);
    if q < |n.r.chans| {
      QueueSent(l.chans[c], n.r.chans[q], FramesFor(f, q), i);
    }
    CallReads(cfg, l, QueueSend(c, i));
    SenderHistory(l, n'.l, n.r, f, f', g, c, q);
  }

  lemma CancelledFrames(f: seq<Msg>, f': seq<Msg>, m: Msg)
    requires Lost(f, f', m) && m.Data?
    ensures Cut(Stream(f, m.to), Stream(f', m.to), [Frame(m.data)])
    ensures forall p: nat :: p != m.to ==> FramesFor(f', p) == FramesFor(f, p)
  {
    LoseAt(f, f', m, m.to);
    forall p: nat | p != m.to ensures FramesFor(f', p) == FramesFor(f, p) {
      LoseAt(f, f', m, p);
      LostPast(f, f', m, p);
    }
  }

  lemma CancelSent(s: Chan, s': Chan, t: Chan, items: seq<Item>, items': seq<Item>, data: Bytes)
    requires SentAt(s, t, DataOf(items)) && Cut(items, items', [Frame(data)])
    requires s'.sent == s.sent && s'.cancels == s.cancels + 1
    ensures SentAt(s', t, DataOf(items'))
  {
    var a, b :| Split(items, items', a, b, [Frame(data)]);
    DataMid(a, data, b);
    DataConcat(a, b);
    SubMid(t.arrived, DataOf(a), data, DataOf(b), s.sent);
  }

  lemma CancelReads(cfg: Config, e: Endpoint, i: nat)
    requires ChansOk(e) && ReadOk(e) && Cancellable(e, i)
    requires e.out[i].msg.Data? ==> e.chans[e.out[i].from.value].live
    requires e.out[i].msg.Open? ==> e.chans[e.out[i].from.value].peer.None?
    ensures ReadOk(AfterCancel(e, i))
  {
    if e.out[i].msg.Open? {
      FailReads(e.chans[e.out[i].from.value]);
    }
  }

  lemma DataCancelShape(e: Endpoint, i: nat, c: nat)
    requires Cancellable(e, i) && e.out[i].msg.Data? && e.out[i].from == Some(c)
    ensures var e' := AfterCancel(e, i);
            && OnlyChan(e, e', c) && e'.chans[c].arrived == e.chans[c].arrived && e'.chans[c].sent == e.chans[c].sent
            && e'.chans[c].cancels == e.chans[c].cancels + 1
            && e'.out == e.out[i := e.out[i].(cancelled := true)] && e'.ctrl == e.ctrl
  {
  }

  lemma HistoryCancelData(cfg: Config, n: Net, i: nat)
    requires Fit(cfg) && Inv(cfg, n) && History(n) && Cancellable(n.l, i) && n.l.out[i].msg.Data?
    ensures History(n.(l := AfterCancel(n.l, i)))
  {
    var l, l', m, c := n.l, AfterCancel(n.l, i), n.l.out[i].msg, n.l.out[i].from.value;
    assert WriteOk(l, l.out[i]);
    var f, f', g := Fly(l, n.lr), Fly(l', n.lr), Fly(n.r, n.rl);
    DataCancelShape(l, i, c);
    CancelLoses(l, l', n.lr, i);
    CancelledFrames(f, f', m);
    CancelReads(cfg, l, i);
    if m.to < |n.r.chans| {
      assert SentAt(l.chans[c], n.r.chans[m.to], FramesFor(f, m.to));
      CancelSent(l.chans[c], l'.chans[c], n.r.chans[m.to], Stream(f, m.to), Stream(f', m.to), m.data);
    }
    SenderHistory(l, l', n.r, f, f', g, c, m.to);
  }

  lemma CancelShape(e: Endpoint, i: nat)
    requires Cancellable(e, i) && !e.out[i].msg.Data?
    ensures var e' := AfterCancel(e, i);
            SameBooks(e, e') && e'.out == e.out[i := e.out[i].(cancelled := true)] && e'.ctrl == e.ctrl
  {
  }

  lemma HistoryCancelOther(cfg: Config, n: Net, i: nat)
    requires Fit(cfg) && Inv(cfg, n) && History(n) && Cancellable(n.l, i) && !n.l.out[i].msg.Data?
    ensures History(n.(l := AfterCancel(n.l, i)))
  {
    var l, l', m, c := n.l, AfterCancel(n.l, i), n.l.out[i].msg, n.l.out[i].from.value;
    var f, f', g := Fly(l, n.lr), Fly(l', n.lr), Fly(n.r, n.rl);
    assert WriteOk(l, l.out[i]);
    ChanFacts(cfg, n, c);
    CancelShape(l, i);
    CancelLoses(l, l', n.lr, i);
    LostFrames(f, f', m);
    if m.Open? {
      OpenUnderWay(l, n.r, n.lr, f, g, c, m);
    }
    CancelReads(cfg, l, i);
    IdleHistory(l, l', n.r, f, f', g, g);
  }

  lemma UnaskFrames(cfg: Config, e: Endpoint, xy: seq<Msg>, i: nat)
    requires Enabled(cfg, e, CancelGlobal(i))
    ensures SameFrames(Fly(e, xy), Fly(AfterUnasked(e, i), xy))
  {
    CancelLoses(e, AfterUnasked(e, i), xy, i);
    LostFrames(Fly(e, xy), Fly(AfterUnasked(e, i), xy), e.out[i].msg);
  }

  lemma HistoryUnask(cfg: Config, n: Net, i: nat)
    requires Inv(cfg, n) && History(n) && Enabled(cfg, n.l, CancelGlobal(i))
    ensures History(n.(l := AfterUnasked(n.l, i)))
  {
    var l, l', g := n.l, AfterUnasked(n.l, i), Fly(n.r, n.rl);
    UnaskFrames(cfg, l, n.lr, i);
    IdleHistory(l, l', n.r, Fly(l, n.lr), Fly(l', n.lr), g, g);
  }

  /** x gained a channel that nobody has sent to or from. */
  lemma GainHistory(x: Endpoint, x': Endpoint, y: Endpoint, f: seq<Msg>, f': seq<Msg>, g: seq<Msg>, g': seq<Msg>, ch: Chan)
    requires HistoryAt(x, y, f, g) && MatesOk(y, x) && x'.chans == x.chans + [ch]
    requires ReadAt(ch) && ch.sent == [] && ch.arrived == [] && ch.cancels == 0
    requires SameFrames(f, f') && SameFrames(g, g')
    requires ch.peer.Some? && ch.peer.value < |y.chans| ==> y.chans[ch.peer.value].arrived == [] && FramesFor(f, ch.peer.value) == []
    ensures HistoryAt(x', y, f', g')
  {
    Unknown(x, y, |x.chans|);
    forall q: nat ensures CountPeer(x'.chans, q) >= CountPeer(x.chans, q) { AppendPeers(x.chans, ch, q); }
    forall d: nat, p: nat | d < |x'.chans| && p < |y.chans| && x'.chans[d].peer == Some(p)
      ensures SentAt(x'.chans[d], y.chans[p], FramesFor(f', p))
    {
      if d < |x.chans| {
        assert SentAt(x.chans[d], y.chans[p], FramesFor(f, p));
      }
    }
    forall d: nat, p: nat | d < |y.chans| && p < |x'.chans| && y.chans[d].peer == Some(p)
      ensures SentAt(y.chans[d], x'.chans[p], FramesFor(g', p))
    {
      assert SentAt(y.chans[d], x.chans[p], FramesFor(g, p));
    }
  }

  lemma HistoryOpen(cfg: Config, n: Net, n': Net, typ: string, payload: Bytes)
    requires Fit(cfg) && Inv(cfg, n) && Inv(cfg, n') && History(n) && LeftMoves(cfg, n, n', Local(OpenChannel(typ, payload)))
    ensures History(n')
  {
    assert n'.lr == n.lr;
    NoDataFrames(n.l, n'.l, n.lr);
    GainHistory(n.l, n'.l, n.r, Fly(n.l, n.lr), Fly(n'.l, n'.lr), Fly(n.r, n.rl), Fly(n.r, n.rl), NewOutgoing());
  }

  lemma HistorySpend(cfg: Config, n: Net, n': Net)
    requires Inv(cfg, n) && History(n) && LeftMoves(cfg, n, n', Local(SpendChannelId))
    ensures History(n')
  {
    assert n'.lr == n.lr && Fly(n'.l, n'.lr) == Fly(n.l, n.lr);
    GainHistory(n.l, n'.l, n.r, Fly(n.l, n.lr), Fly(n'.l, n'.lr), Fly(n.r, n.rl), Fly(n.r, n.rl), Fail(NewOutgoing()));
  }

  function Gain(cfg: Config, m: Msg, luck: Luck): Chan
    requires m.Open?
  {
    if !luck.admit then NewIncoming(cfg, m, NoSlot)
    else if !luck.queue then Fail(NewIncoming(cfg, m, Pending))
    else NewIncoming(cfg, m, Pending)
  }

  lemma GainShape(cfg: Config, e: Endpoint, m: Msg, luck: Luck)
    requires m.Open? && RecvOpen(cfg, e, m, luck).Ok?
    ensures RecvOpen(cfg, e, m, luck).next.chans == e.chans + [Gain(cfg, m, luck)] && NoDataPut(e, RecvOpen(cfg, e, m, luck).next)
  {
  }

  lemma HistoryIncoming(cfg: Config, n: Net, n': Net, luck: Luck)
    requires Fit(cfg) && Inv(cfg, n) && Inv(cfg, n') && History(n) && n.rl != [] && n.rl[0].Open? && LeftMoves(cfg, n, n', Receive(luck))
    ensures History(n')
  {
    var m, f, g, g' := n.rl[0], Fly(n.l, n.lr), Fly(n.r, n.rl), Fly(n.r, n.rl[1..]);
    WirePops(n.r, n.rl);
    GainShape(cfg, n.l, m, luck);
    NoDataFrames(n.l, n'.l, n.lr);
    PoppedFrames(g, g', m);
    OpenFacts(cfg, n.l, n.r, n.rl, f, g, g', m);
    NobodySpeaks(n.l, f, m.sender);
    NothingFor(f, m.sender);
    GainHistory(n.l, n'.l, n.r, f, Fly(n'.l, n'.lr), g, g', Gain(cfg, m, luck));
  }

  /** x's channel c learnt its peer p. */
  lemma JoinHistory(cfg: Config, x: Endpoint, x': Endpoint, y: Endpoint, f: seq<Msg>, g: seq<Msg>, g': seq<Msg>, m: Msg)
    requires HistoryAt(x, y, f, g) && RoutesOk(x, f) && AtGrant(cfg, x, y, m) && Established(cfg, x, x', m) && ReadOk(x') && SameFrames(g, g')
    ensures HistoryAt(x', y, f, g')
  {
    var c, p := m.opener, m.sender;
    NobodySpeaks(x, f, p);
    NothingFor(f, p);
    assert x'.chans == x.chans[c := x'.chans[c]];
    forall q: nat ensures CountPeer(x'.chans, q) >= CountPeer(x.chans, q) { PeerUpdate(x.chans, c, x'.chans[c], q); }
    forall d: nat, q: nat | d < |x'.chans| && q < |y.chans| && x'.chans[d].peer == Some(q)
      ensures SentAt(x'.chans[d], y.chans[q], FramesFor(f, q))
    {
      if d != c {
        assert SentAt(x.chans[d], y.chans[q], FramesFor(f, q));
      } else {
        assert y.chans[q].arrived == [] && FramesFor(f, q) == [];
      }
    }
    forall d: nat, q: nat | d < |y.chans| && q < |x'.chans| && y.chans[d].peer == Some(q)
      ensures SentAt(y.chans[d], x'.chans[q], FramesFor(g', q))
    {
      assert SentAt(y.chans[d], x.chans[q], FramesFor(g, q));
    }
  }

  lemma HistoryJoin(cfg: Config, n: Net, n': Net, luck: Luck)
    requires Fit(cfg) && Inv(cfg, n) && History(n) && n.rl != [] && n.rl[0].OpenOk? && LeftMoves(cfg, n, n', Receive(luck))
    ensures History(n')
  {
    var m, f, g, g' := n.rl[0], Fly(n.l, n.lr), Fly(n.r, n.rl), Fly(n.r, n.rl[1..]);
    WirePops(n.r, n.rl);
    ChanFacts(cfg, n, m.opener);
    GrantFacts(cfg, n.l, n.r, n.rl, f, g, g', m);
    PoppedFrames(g, g', m);
    RouteReads(cfg, n.l, m, luck);
    assert Fly(n'.l, n'.lr) == f;
    JoinHistory(cfg, n.l, n'.l, n.r, f, g, g', m);
  }

  lemma ArrivedFrames(g: seq<Msg>, g': seq<Msg>, m: Msg)
    requires Popped(g, g', m) && m.Data?
    ensures FramesFor(g, m.to) == [m.data] + FramesFor(g', m.to)
    ensures forall p: nat :: p != m.to ==> FramesFor(g', p) == FramesFor(g, p)
  {
    forall p: nat ensures FramesFor(g, p) == (if p == m.to then [m.data] else []) + FramesFor(g', p) {
      assert Stream(g, p) == StreamOf(m, p) + Stream(g', p);
      DataConcat(StreamOf(m, p), Stream(g', p));
      DataUnit(Frame(m.data));
    }
  }

  lemma ArriveSent(s: Chan, t: Chan, t': Chan, frames: seq<Bytes>, frames': seq<Bytes>, data: Bytes)
    requires SentAt(s, t, frames) && frames == [data] + frames' && t'.arrived == t.arrived + [data]
    ensures SentAt(s, t', frames')
  {
    assert t'.arrived + frames' == t.arrived + frames;
  }

  lemma ArriveShape(e: Endpoint, m: Msg, luck: Luck)
    requires m.Data? && RecvData(e, m, luck).Ok?
    ensures var e', c := RecvData(e, m, luck).next, m.to;
            && OnlyChan(e, e', c) && e'.out == e.out && e'.ctrl == e.ctrl
            && e'.chans[c].sent == e.chans[c].sent && e'.chans[c].cancels == e.chans[c].cancels
            && e'.chans[c].arrived == e.chans[c].arrived + [m.data]
  {
  }

  lemma ReceiverHistory(x: Endpoint, x': Endpoint, y: Endpoint, f: seq<Msg>, g: seq<Msg>, g': seq<Msg>, c: nat, o: nat, m: Msg)
    requires HistoryAt(x, y, f, g) && ReadOk(x') && Speaks(y, o, c)
    requires OnlyChan(x, x', c) && x'.chans[c].sent == x.chans[c].sent && x'.chans[c].cancels == x.chans[c].cancels
    requires m.Data? && m.to == c && Popped(g, g', m) && x'.chans[c].arrived == x.chans[c].arrived + [m.data]
    ensures HistoryAt(x', y, f, g')
  {
    ArrivedFrames(g, g', m);
    PeerFound(y.chans, o, c);
    forall p: nat ensures CountPeer(x'.chans, p) == CountPeer(x.chans, p) { PeerSame(x'.chans, x.chans, p); }
    forall d: nat, p: nat | d < |x'.chans| && p < |y.chans| && x'.chans[d].peer == Some(p)
      ensures SentAt(x'.chans[d], y.chans[p], FramesFor(f, p))
    {
      assert SentAt(x.chans[d], y.chans[p], FramesFor(f, p));
    }
    forall d: nat, p: nat | d < |y.chans| && p < |x'.chans| && y.chans[d].peer == Some(p)
      ensures SentAt(y.chans[d], x'.chans[p], FramesFor(g', p))
    {
      assert SentAt(y.chans[d], x.chans[p], FramesFor(g, p));
      if p == c {
        ArriveSent(y.chans[d], x.chans[c], x'.chans[c], FramesFor(g, c), FramesFor(g', c), m.data);
      }
    }
  }

  lemma ArriveHistory(x: Endpoint, x': Endpoint, y: Endpoint, f: seq<Msg>, g: seq<Msg>, g': seq<Msg>, m: Msg, luck: Luck)
    requires HistoryAt(x, y, f, g) && RoutesOk(y, g) && Popped(g, g', m) && m.Data?
    requires RecvData(x, m, luck) == Ok(x') && ReadOk(x')
    ensures HistoryAt(x', y, f, g')
  {
    HeadFor(g, g', m);
    var o: nat :| Speaks(y, o, m.to);
    ArriveShape(x, m, luck);
    ReceiverHistory(x, x', y, f, g, g', m.to, o, m);
  }

  lemma HistoryArrive(cfg: Config, n: Net, luck: Luck)
    requires Inv(cfg, n) && History(n) && n.rl != [] && n.rl[0].Data? && RecvData(n.l, n.rl[0], luck).Ok?
    ensures History(n.(l := RecvData(n.l, n.rl[0], luck).next, rl := n.rl[1..]))
  {
    var m, l' := n.rl[0], RecvData(n.l, n.rl[0], luck).next;
    WirePops(n.r, n.rl);
    DataReads(cfg, n.l, m, luck);
    ArriveShape(n.l, m, luck);
    ArriveHistory(n.l, l', n.r, Fly(n.l, n.lr), Fly(n.r, n.rl), Fly(n.r, n.rl[1..]), m, luck);
  }

  // ----- every step

  lemma WriteShape(cfg: Config, e: Endpoint, a: Action)
    requires Enabled(cfg, e, a) && Writes(a)
    ensures SameBooks(e, Next(cfg, e, a))
    ensures a.WriteControl? ==> Next(cfg, e, a) == e.(ctrl := e.ctrl[1..]) && Emits(e, a) == [e.ctrl[0]]
    ensures a.WriteOutbound? ==> Next(cfg, e, a).out == e.out[1..] && Next(cfg, e, a).ctrl == e.ctrl
  {
  }

  lemma WriteSame(cfg: Config, e: Endpoint, wire: seq<Msg>, a: Action)
    requires CtrlOk(e.ctrl) && Enabled(cfg, e, a) && Writes(a)
    ensures Same(Fly(e, wire), Fly(Next(cfg, e, a), wire + Emits(e, a)))
  {
    WriteShape(cfg, e, a);
    if a.WriteControl? {
      WriteControlSame(e, wire);
    } else {
      WriteOutboundSame(e, Next(cfg, e, a), wire);
    }
  }

  lemma HistoryWrite(cfg: Config, n: Net, n': Net, a: Action)
    requires Fit(cfg) && Inv(cfg, n) && History(n) && Writes(a) && LeftMoves(cfg, n, n', Local(a))
    ensures History(n')
  {
    WriteSame(cfg, n.l, n.lr, a);
    WriteShape(cfg, n.l, a);
    SameStreams(Fly(n.l, n.lr), Fly(n'.l, n'.lr));
    LocalReads(cfg, n.l, a);
    IdleHistory(n.l, n'.l, n.r, Fly(n.l, n.lr), Fly(n'.l, n'.lr), Fly(n.r, n.rl), Fly(n.r, n.rl));
  }

  lemma HistoryBookless(cfg: Config, n: Net, n': Net, a: Action)
    requires Fit(cfg) && Inv(cfg, n) && Inv(cfg, n') && History(n) && Bookless(n.l, a) && LeftMoves(cfg, n, n', Local(a))
    ensures History(n')
  {
    assert n'.lr == n.lr;
    LocalBooks(cfg, n.l, a);
    LocalPuts(cfg, n.l, a);
    NoDataFrames(n.l, n'.l, n.lr);
    LocalReads(cfg, n.l, a);
    IdleHistory(n.l, n'.l, n.r, Fly(n.l, n.lr), Fly(n'.l, n'.lr), Fly(n.r, n.rl), Fly(n.r, n.rl));
  }

  lemma HistoryAdmit(cfg: Config, n: Net, n': Net, d: Verdict)
    requires Fit(cfg) && Inv(cfg, n) && Inv(cfg, n') && History(n) && LeftMoves(cfg, n, n', Admission(d))
    ensures History(n')
  {
    AdmitBooks(cfg, n.l, d);
    AdmitReads(cfg, n.l, d);
    NoDataFrames(n.l, n'.l, n.lr);
    IdleHistory(n.l, n'.l, n.r, Fly(n.l, n.lr), Fly(n'.l, n'.lr), Fly(n.r, n.rl), Fly(n.r, n.rl));
  }

  lemma HistoryRoute(cfg: Config, n: Net, n': Net, luck: Luck)
    requires Fit(cfg) && Inv(cfg, n) && Inv(cfg, n') && History(n) && LeftMoves(cfg, n, n', Receive(luck)) && RoutesBookless(n.rl[0])
    ensures History(n')
  {
    var m := n.rl[0];
    WirePops(n.r, n.rl);
    RouteBooks(cfg, n.l, m, luck);
    RoutePuts(cfg, n.l, m, luck);
    RouteReads(cfg, n.l, m, luck);
    NoDataFrames(n.l, n'.l, n.lr);
    PoppedFrames(Fly(n.r, n.rl), Fly(n.r, n.rl[1..]), m);
    IdleHistory(n.l, n'.l, n.r, Fly(n.l, n.lr), Fly(n'.l, n'.lr), Fly(n.r, n.rl), Fly(n.r, n.rl[1..]));
  }

  lemma HistoryCancel(cfg: Config, n: Net, i: nat)
    requires Fit(cfg) && Inv(cfg, n) && History(n) && Cancellable(n.l, i)
    ensures History(n.(l := AfterCancel(n.l, i)))
  {
    if n.l.out[i].msg.Data? {
      HistoryCancelData(cfg, n, i);
    } else {
      HistoryCancelOther(cfg, n, i);
    }
  }

  lemma HistoryLocal(cfg: Config, n: Net, n': Net, a: Action)
    requires Fit(cfg) && Inv(cfg, n) && Inv(cfg, n') && History(n) && LeftMoves(cfg, n, n', Local(a))
    ensures History(n')
  {
    if Writes(a) {
      HistoryWrite(cfg, n, n', a);
    } else if a.QueueSend? {
      HistoryQueue(cfg, n, n', a.c, a.i);
    } else if a.OpenChannel? {
      HistoryOpen(cfg, n, n', a.typ, a.payload);
    } else if a.SpendChannelId? {
      HistorySpend(cfg, n, n');
    } else if a.CancelWrite? {
      assert n'.lr == n.lr;
      HistoryCancel(cfg, n, a.i);
    } else if a.CancelGlobal? {
      assert n'.lr == n.lr;
      HistoryUnask(cfg, n, a.i);
    } else {
      HistoryBookless(cfg, n, n', a);
    }
  }

  lemma HistoryReceive(cfg: Config, n: Net, n': Net, luck: Luck)
    requires Fit(cfg) && Inv(cfg, n) && Inv(cfg, n') && History(n) && LeftMoves(cfg, n, n', Receive(luck))
    ensures History(n')
  {
    if n.rl[0].Open? {
      HistoryIncoming(cfg, n, n', luck);
    } else if n.rl[0].OpenOk? {
      HistoryJoin(cfg, n, n', luck);
    } else if n.rl[0].Data? {
      HistoryArrive(cfg, n, luck);
    } else {
      HistoryRoute(cfg, n, n', luck);
    }
  }

  lemma HistoryLeft(cfg: Config, n: Net, n': Net, mv: Move)
    requires Fit(cfg) && Inv(cfg, n) && Inv(cfg, n') && History(n) && LeftMoves(cfg, n, n', mv)
    ensures History(n')
  {
    match mv
    case Local(a) => HistoryLocal(cfg, n, n', a);
    case Admission(d) => HistoryAdmit(cfg, n, n', d);
    case Receive(luck) => HistoryReceive(cfg, n, n', luck);
  }

  lemma HistorySwap(n: Net)
    requires History(n)
    ensures History(Swap(n))
  {
  }

  lemma StartHistory()
    ensures History(START)
  {
  }

  lemma StepHistory(cfg: Config, n: Net, n': Net, t: Turn)
    requires Fit(cfg) && Inv(cfg, n) && Inv(cfg, n') && History(n) && Step(cfg, n, n', t)
    ensures History(n')
  {
    if t.left {
      HistoryLeft(cfg, n, n', t.move);
    } else {
      InvSwap(cfg, n);
      InvSwap(cfg, n');
      HistorySwap(n);
      HistoryLeft(cfg, Swap(n), Swap(n'), t.move);
      HistorySwap(Swap(n'));
    }
  }

  lemma NextHistory(cfg: Config, n: Net, n': Net, t: Turn)
    requires Fit(cfg) && Inv(cfg, n) && History(n) && Step(cfg, n, n', t)
    ensures Inv(cfg, n') && History(n')
  {
    StepKeeps(cfg, n, n', t);
    StepHistory(cfg, n, n', t);
  }

  lemma {:induction false} RunHistory(cfg: Config, trace: seq<Net>, turns: seq<Turn>, i: nat)
    requires Fit(cfg) && Run(cfg, trace, turns) && i < |trace|
    ensures Inv(cfg, trace[i]) && History(trace[i])
  {
    if i == 0 {
      StartOk(cfg);
      StartHistory();
    } else {
      RunHistory(cfg, trace, turns, i - 1);
      NextHistory(cfg, trace[i - 1], trace[i], turns[i - 1]);
    }
  }

  // ----- what Recv returns

  /** s is the sending end, t the receiving end, frames what is under way between them. */
  lemma DeliveredOf(s: Chan, t: Chan, frames: seq<Bytes>)
    requires SentAt(s, t, frames) && ReadAt(t)
    ensures Sub(t.delivered, s.sent)
    ensures s.cancels == 0 ==> t.delivered <= s.sent
    ensures s.cancels == 0 ==> s.sent == t.arrived + frames
  {
    assert t.arrived + frames == t.delivered + (t.arrived + frames)[|t.delivered|..];
    SubPrefix(t.delivered, (t.arrived + frames)[|t.delivered|..], s.sent);
    if s.cancels == 0 {
      SubEqual(t.arrived + frames, s.sent);
    }
  }

  /**
   In every state of every run, what Recv returned on channel q is, in order, what Send put on q's one
   and only mate c, less sends that were taken back; without those it is a prefix. Once the queue of
   a channel that was not closed here is empty, Recv has returned everything that arrived.
   */
  lemma DeliveredInOrder(cfg: Config, trace: seq<Net>, turns: seq<Turn>, i: nat, c: nat, q: nat)
    requires Fit(cfg) && Run(cfg, trace, turns) && i < |trace| && c < |trace[i].l.chans| && trace[i].l.chans[c].peer == Some(q)
    ensures q < |trace[i].r.chans|
    ensures forall d: nat :: d < |trace[i].l.chans| && trace[i].l.chans[d].peer == Some(q) ==> d == c
    ensures var s, t := trace[i].l.chans[c], trace[i].r.chans[q];
            && Sub(t.delivered, s.sent)
            && (s.cancels == 0 ==> t.delivered <= s.sent)
            && (!t.spoiled && t.frames == [] ==> t.delivered == t.arrived)
  {
    var n := trace[i];
    RunHistory(cfg, trace, turns, i);
    ChanFacts(cfg, n, c);
    forall d: nat | d < |n.l.chans| && n.l.chans[d].peer == Some(q) ensures d == c {
      OnlyPeer(n.l, n.r, Fly(n.r, n.rl), c, d, q);
    }
    DeliveredOf(n.l.chans[c], n.r.chans[q], FramesFor(Fly(n.l, n.lr), q));
  }

  /** An orderly end of stream is complete: the reader has had every frame that was not taken back. */
  lemma EofIsComplete(cfg: Config, trace: seq<Net>, turns: seq<Turn>, i: nat, c: nat, q: nat)
    requires Fit(cfg) && Run(cfg, trace, turns) && i < |trace| && Mated(trace[i].l, trace[i].r, c, q)
    requires trace[i].l.chans[c].peer == Some(q) && trace[i].r.chans[q].state.GotEof() && trace[i].r.chans[q].frames == []
    ensures var s, t := trace[i].l.chans[c], trace[i].r.chans[q];
            && s.state.SentEof() && |t.delivered| + s.cancels == |s.sent| && (s.cancels == 0 ==> t.delivered == s.sent)
  {
    var n := trace[i];
    RunKeeps(cfg, trace, turns, i);
    var v, w := Views(cfg, n.l, n.r, Fly(n.l, n.lr), Fly(n.r, n.rl), c, q);
    EofDirection(cfg, v);
  }

  lemma EofDirection(cfg: Config, v: View)
    requires FlowOk(cfg, v) && v.t.state.GotEof() && v.t.frames == []
    ensures v.s.state.SentEof() && |v.t.delivered| + v.s.cancels == |v.s.sent| && (v.s.cancels == 0 ==> v.t.delivered == v.s.sent)
  {
    assert v.items == [] && DataOf(v.items) == [];
    assert v.t.arrived + [] == v.t.arrived;
    assert v.t.delivered + [] == v.t.delivered;
    if v.s.cancels == 0 {
      SubEqual(v.t.arrived, v.s.sent);
    }
  }
}
