/** The close handshake over whole runs. */
module Handshake {
  import opened Types
  import opened SessionConfig
  import opened Envelope
  import opened Channel
  import opened Endpoint
  import opened Flight
  import opened Network
  import opened Links
  import opened Mates
  import opened Traffic
  import opened Removal
  import opened Writer
  import opened Opening
  import opened Receiving
  import opened Parting
  import opened Greeting
  import opened Incoming
  import opened MuxSafety
  import opened MuxErrors
  import opened Delivery

  datatype Phase = Early | Up | Leaving | Gone | Broken

  function PhaseOf(st: State): Phase {
    match st
    case Opening => Early
    case Closing => Leaving
    case Closed => Gone
    case Failed => Broken
    case _ => Up
  }

  /** Phases of the accepting and the opening end, and closes under way between them. */
  predicate Allowed(a: Phase, b: Phase, ab: nat, ba: nat) {
    || (ab == 0 && ba == 0 && ((a == b && (a.Early? || a.Up? || a.Gone?)) || (b.Early? && (a.Up? || a.Broken?))))
    || (ab == 1 && ba == 0 && ((a.Leaving? && (b.Up? || b.Early?)) || (a.Gone? && b.Leaving?)))
    || (ab == 0 && ba == 1 && ((b.Leaving? && a.Up?) || (b.Gone? && a.Leaving?)))
    || (ab == 1 && ba == 1 && a.Leaving? && b.Leaving?)
  }

  /** Channel c of x was opened by y's channel q, which knows it or still waits for it. */
  predicate Joined(x: Endpoint, y: Endpoint, c: nat, q: nat) {
    && c < |x.chans| && q < |y.chans| && !x.chans[c].opener && x.chans[c].peer == Some(q)
    && (y.chans[q].peer == Some(c) || y.chans[q].openWait)
  }

  predicate HandAt(x: Endpoint, y: Endpoint, f: seq<Msg>, g: seq<Msg>, c: nat, q: nat) {
    Joined(x, y, c, q) ==>
      Allowed(PhaseOf(x.chans[c].state), PhaseOf(y.chans[q].state), Count(f, Closes(q)), Count(g, Closes(c)))
  }

  ghost predicate HandsOk(x: Endpoint, y: Endpoint, f: seq<Msg>, g: seq<Msg>) {
    forall c: nat, q: nat :: HandAt(x, y, f, g, c, q)
  }

  predicate LiveOk(e: Endpoint) {
    forall c :: 0 <= c < |e.chans| && e.chans[c].live ==> !e.chans[c].state.Failed?
  }

  ghost predicate Hands(x: Endpoint, y: Endpoint, f: seq<Msg>, g: seq<Msg>) {
    HandsOk(x, y, f, g) && HandsOk(y, x, g, f) && LiveOk(x) && LiveOk(y)
  }

  ghost predicate Handshaking(n: Net) {
    Hands(n.l, n.r, Fly(n.l, n.lr), Fly(n.r, n.rl))
  }

  // ----- moves that leave the handshake alone

  predicate SameHand(a: Chan, b: Chan) {
    && b.opener == a.opener && b.peer == a.peer && PhaseOf(b.state) == PhaseOf(a.state) && (b.openWait ==> a.openWait)
  }

  ghost predicate SameHands(x: Endpoint, x': Endpoint) {
    |x'.chans| == |x.chans| && forall d :: 0 <= d < |x.chans| ==> SameHand(x.chans[d], x'.chans[d])
  }

  ghost predicate SameCloses(f: seq<Msg>, f': seq<Msg>) {
    forall q: nat :: Count(f', Closes(q)) == Count(f, Closes(q))
  }

  lemma IdleHands(x: Endpoint, x': Endpoint, y: Endpoint, f: seq<Msg>, f': seq<Msg>, g: seq<Msg>, g': seq<Msg>)
    requires Hands(x, y, f, g) && SameHands(x, x') && LiveOk(x') && SameCloses(f, f') && SameCloses(g, g')
    ensures Hands(x', y, f', g')
  {
    forall c: nat, q: nat ensures HandAt(x', y, f', g', c, q) {
      assert HandAt(x, y, f, g, c, q);
    }
    forall c: nat, q: nat ensures HandAt(y, x', g', f', c, q) {
      assert HandAt(y, x, g, f, c, q);
    }
  }

  predicate NoClosePut(e: Endpoint, e': Endpoint) {
    && (e'.ctrl == e.ctrl || (e'.ctrl != [] && e'.ctrl == e.ctrl + [Last(e'.ctrl)] && !Last(e'.ctrl).Close?))
    && (e'.out == e.out || (e'.out != [] && e'.out == e.out + [Last(e'.out)] && !Last(e'.out).msg.Close?))
  }

  lemma ClosesOfFly(e: Endpoint, wire: seq<Msg>, q: nat)
    ensures Count(Fly(e, wire), Closes(q)) == Count(wire, Closes(q)) + Count(Live(e.out), Closes(q)) + Count(e.ctrl, Closes(q))
  {
    CountConcat(wire + Live(e.out), e.ctrl, Closes(q));
    CountConcat(wire, Live(e.out), Closes(q));
  }

  lemma LastOut(out: seq<Write>, w: Write, q: nat)
    requires !w.msg.Close?
    ensures Count(Live(out + [w]), Closes(q)) == Count(Live(out), Closes(q))
  {
    LiveConcat(out, [w]);
    assert [w][1..] == [];
    CountConcat(Live(out), Live([w]), Closes(q));
    if w.cancelled {
      assert Live([w]) == [];
    } else {
      assert Live([w]) == [w.msg];
      Single(w.msg);
    }
  }

  lemma NoCloseAt(e: Endpoint, e': Endpoint, wire: seq<Msg>, q: nat)
    requires NoClosePut(e, e')
    ensures Count(Fly(e', wire), Closes(q)) == Count(Fly(e, wire), Closes(q))
  {
    ClosesOfFly(e, wire, q);
    ClosesOfFly(e', wire, q);
    if e'.out != e.out {
      LastOut(e.out, Last(e'.out), q);
    }
    if e'.ctrl != e.ctrl {
      CountConcat(e.ctrl, [Last(e'.ctrl)], Closes(q));
      Single(Last(e'.ctrl));
    }
  }

  lemma NoCloses(e: Endpoint, e': Endpoint, wire: seq<Msg>)
    requires NoClosePut(e, e')
    ensures SameCloses(Fly(e, wire), Fly(e', wire))
  {
    forall q: nat ensures Count(Fly(e', wire), Closes(q)) == Count(Fly(e, wire), Closes(q)) {
      NoCloseAt(e, e', wire, q);
    }
  }

  lemma PoppedCloses(g: seq<Msg>, g': seq<Msg>, m: Msg)
    requires Popped(g, g', m)
    ensures m.Close? ==> Count(g, Closes(m.to)) == Count(g', Closes(m.to)) + 1
    ensures forall q: nat :: !(m.Close? && m.to == q) ==> Count(g', Closes(q)) == Count(g, Closes(q))
  {
    forall q: nat ensures Count(g, Closes(q)) == CountOf(m, Closes(q)) + Count(g', Closes(q)) { }
  }

  lemma LostCloses(f: seq<Msg>, f': seq<Msg>, m: Msg)
    requires Lost(f, f', m) && !m.Close?
    ensures SameCloses(f, f')
  {
    forall q: nat ensures Count(f', Closes(q)) == Count(f, Closes(q)) {
      assert Count(f, Closes(q)) == Count(f', Closes(q)) + CountOf(m, Closes(q));
    }
  }

  predicate Handless(a: Action) {
    && !a.OpenChannel? && !a.CancelWrite? && !a.CancelGlobal? && !a.CloseChannel? && !a.CloseTimeout? && !a.AbandonOpen?
    && !a.WriteControl? && !a.WriteOutbound? && !a.SpendChannelId?
  }

  lemma LocalHands(cfg: Config, e: Endpoint, a: Action)
    requires Enabled(cfg, e, a) && Handless(a)
    ensures SameHands(e, Next(cfg, e, a))
  {
  }

  lemma LocalLive(cfg: Config, e: Endpoint, a: Action)
    requires Enabled(cfg, e, a) && Handless(a) && LiveOk(e)
    ensures LiveOk(Next(cfg, e, a))
  {
  }

  lemma LocalQuiet(cfg: Config, e: Endpoint, a: Action)
    requires Enabled(cfg, e, a) && Handless(a)
    ensures NoClosePut(e, Next(cfg, e, a))
  {
  }

  predicate RoutesHandless(m: Msg) {
    !m.Open? && !m.OpenOk? && !m.OpenReject? && !m.Close?
  }

  lemma RouteHands(cfg: Config, e: Endpoint, m: Msg, luck: Luck)
    requires Route(cfg, e, m, luck).Ok? && RoutesHandless(m)
    ensures SameHands(e, Route(cfg, e, m, luck).next) && NoClosePut(e, Route(cfg, e, m, luck).next)
  {
  }

  lemma RouteLive(cfg: Config, e: Endpoint, m: Msg, luck: Luck)
    requires Route(cfg, e, m, luck).Ok? && RoutesHandless(m) && LiveOk(e)
    ensures LiveOk(Route(cfg, e, m, luck).next)
  {
  }

  // ----- moves of the handshake itself

  /** Only channel c, whose peer is q, and the closes between the two changed. */
  lemma HandsFrame(x: Endpoint, x': Endpoint, y: Endpoint, f: seq<Msg>, f': seq<Msg>, g: seq<Msg>, g': seq<Msg>, c: nat, q: nat)
    requires Hands(x, y, f, g) && LiveOk(x') && MatesOk(x, y) && AnnounceOk(y, x, g)
    requires OnlyChan(x, x', c) && x.chans[c].peer == Some(q) && !x.chans[c].openWait && !x'.chans[c].openWait
    requires forall p: nat :: p != q ==> Count(f', Closes(p)) == Count(f, Closes(p))
    requires forall p: nat :: p != c ==> Count(g', Closes(p)) == Count(g, Closes(p))
    requires HandAt(x', y, f', g', c, q) && HandAt(y, x', g', f', q, c)
    ensures Hands(x', y, f', g')
  {
    forall d: nat, p: nat ensures HandAt(x', y, f', g', d, p) {
      assert HandAt(x, y, f, g, d, p);
      if d != c && d < |x.chans| && x.chans[d].peer == Some(q) {
        OnlyPeer(x, y, g, c, d, q);
      }
    }
    assert MateOk(x, y, c);
    forall o: nat, d: nat ensures HandAt(y, x', g', f', o, d) {
      assert HandAt(y, x, g, f, o, d);
      if d != c && d < |x.chans| && x.chans[d].peer == Some(q) {
        OnlyPeer(x, y, g, c, d, q);
      }
    }
  }

  /** Both roles of the pair of c and q. */
  ghost predicate PairHands(x: Endpoint, y: Endpoint, f: seq<Msg>, g: seq<Msg>, c: nat, q: nat) {
    HandAt(x, y, f, g, c, q) && HandAt(y, x, g, f, q, c)
  }

  /** A local close. */
  lemma CloseHands(x: Endpoint, x': Endpoint, y: Endpoint, f: seq<Msg>, f': seq<Msg>, g: seq<Msg>, c: nat, q: nat)
    requires PairHands(x, y, f, g, c, q) && OnlyChan(x, x', c) && x.chans[c].peer == Some(q)
    requires !x.chans[c].openWait && !x'.chans[c].openWait
    requires x.chans[c].state.AllowsRequests() && x'.chans[c].state.Closing? && Count(f', Closes(q)) == Count(f, Closes(q)) + 1
    ensures PairHands(x', y, f', g, c, q)
  {
  }

  /** A close from the peer that answers this end's own. */
  lemma AckHands(x: Endpoint, x': Endpoint, y: Endpoint, f: seq<Msg>, g: seq<Msg>, g': seq<Msg>, c: nat, q: nat)
    requires PairHands(x, y, f, g, c, q) && OnlyChan(x, x', c) && x.chans[c].peer == Some(q)
    requires !x.chans[c].openWait && !x'.chans[c].openWait
    requires x.chans[c].state.Closing? && x'.chans[c].state.Closed? && Count(g, Closes(c)) == Count(g', Closes(c)) + 1
    ensures PairHands(x', y, f, g', c, q)
  {
  }

  /** A close from the peer that this end answers. */
  lemma AnswerHands(x: Endpoint, x': Endpoint, y: Endpoint, f: seq<Msg>, f': seq<Msg>, g: seq<Msg>, g': seq<Msg>, c: nat, q: nat)
    requires PairHands(x, y, f, g, c, q) && OnlyChan(x, x', c) && x.chans[c].peer == Some(q)
    requires !x.chans[c].openWait && !x'.chans[c].openWait
    requires x.chans[c].state.AllowsRequests() && x'.chans[c].state.Closed?
    requires Count(g, Closes(c)) == Count(g', Closes(c)) + 1 && Count(f', Closes(q)) == Count(f, Closes(q)) + 1
    ensures PairHands(x', y, f', g', c, q)
  {
  }

  /** An opener that gives up has no partner any more. */
  lemma QuitHands(x: Endpoint, x': Endpoint, y: Endpoint, f: seq<Msg>, f': seq<Msg>, g: seq<Msg>, g': seq<Msg>, c: nat)
    requires Hands(x, y, f, g) && LiveOk(x') && SameCloses(f, f') && SameCloses(g, g')
    requires OnlyChan(x, x', c) && x.chans[c].opener && x'.chans[c].peer.None? && !x'.chans[c].openWait
    ensures Hands(x', y, f', g')
  {
    forall d: nat, p: nat ensures HandAt(x', y, f', g', d, p) {
      assert HandAt(x, y, f, g, d, p);
    }
    forall o: nat, d: nat ensures HandAt(y, x', g', f', o, d) {
      assert HandAt(y, x, g, f, o, d);
    }
  }

  /** The dispatcher decides on an incoming open. */
  lemma DecideHands(x: Endpoint, x': Endpoint, y: Endpoint, f: seq<Msg>, f': seq<Msg>, g: seq<Msg>, c: nat)
    requires Hands(x, y, f, g) && LiveOk(x') && SameCloses(f, f') && OnlyChan(x, x', c) && !x.chans[c].opener
    requires x.chans[c].state.Opening? && (x'.chans[c].state.Opened? || x'.chans[c].state.Failed?)
    requires MatesOk(y, x) && x'.chans[c].openWait == x.chans[c].openWait
    ensures Hands(x', y, f', g)
  {
    forall d: nat, p: nat ensures HandAt(x', y, f', g, d, p) {
      assert HandAt(x, y, f, g, d, p);
    }
    forall o: nat, d: nat ensures HandAt(y, x', g, f', o, d) {
      assert HandAt(y, x, g, f, o, d);
      if o < |y.chans| && y.chans[o].peer.Some? {
        assert MateOk(y, x, o);
      }
    }
  }

  /** An opener learns its peer. */
  lemma JoinHands(cfg: Config, x: Endpoint, x': Endpoint, y: Endpoint, f: seq<Msg>, g: seq<Msg>, g': seq<Msg>, m: Msg)
    requires Hands(x, y, f, g) && AtGrant(cfg, x, y, m) && Established(cfg, x, x', m) && ChanOk(y.chans[m.sender]) && SameCloses(g, g')
    ensures Hands(x', y, f, g')
  {
    forall d: nat, p: nat ensures HandAt(x', y, f, g', d, p) {
      assert HandAt(x, y, f, g, d, p);
    }
    forall o: nat, d: nat ensures HandAt(y, x', g', f, o, d) {
      assert HandAt(y, x, g, f, o, d);
    }
  }

  /** x gained a channel nobody has closed. */
  lemma GainHands(x: Endpoint, x': Endpoint, y: Endpoint, f: seq<Msg>, f': seq<Msg>, g: seq<Msg>, g': seq<Msg>, ch: Chan)
    requires Hands(x, y, f, g) && MatesOk(y, x) && x'.chans == x.chans + [ch] && !ch.live && SameCloses(f, f') && SameCloses(g, g')
    requires ch.peer.Some? && ch.peer.value < |y.chans| && y.chans[ch.peer.value].openWait ==>
               && y.chans[ch.peer.value].state.Opening? && (ch.state.Opening? || ch.state.Failed?)
               && Count(f, Closes(ch.peer.value)) == 0 && Count(g, Closes(|x.chans|)) == 0
    ensures Hands(x', y, f', g')
  {
    Unknown(x, y, |x.chans|);
    forall d: nat, p: nat ensures HandAt(x', y, f', g', d, p) {
      assert HandAt(x, y, f, g, d, p);
    }
    forall o: nat, d: nat ensures HandAt(y, x', g', f', o, d) {
      assert HandAt(y, x, g, f, o, d);
    }
  }

  // ----- every step

  lemma HandsHandless(cfg: Config, n: Net, n': Net, a: Action)
    requires Handshaking(n) && Handless(a) && LeftMoves(cfg, n, n', Local(a))
    ensures Handshaking(n')
  {
    assert n'.lr == n.lr;
    LocalHands(cfg, n.l, a);
    LocalLive(cfg, n.l, a);
    LocalQuiet(cfg, n.l, a);
    NoCloses(n.l, n'.l, n.lr);
    IdleHands(n.l, n'.l, n.r, Fly(n.l, n.lr), Fly(n'.l, n'.lr), Fly(n.r, n.rl), Fly(n.r, n.rl));
  }

  /** The writer never hands out a channel that failed. */
  lemma WriteLive(cfg: Config, n: Net, a: Action)
    requires Inv(cfg, n) && LiveOk(n.l) && Enabled(cfg, n.l, a) && Writes(a)
    ensures SameHands(n.l, Next(cfg, n.l, a)) && LiveOk(Next(cfg, n.l, a))
  {
    if a.WriteOutbound? && !n.l.out[0].cancelled && n.l.out[0].msg.OpenOk? {
      GrantStands(cfg, n);
    }
    WriteHands(cfg, n.l, a);
  }

  lemma GrantStands(cfg: Config, n: Net)
    requires Inv(cfg, n) && LiveOk(n.l) && n.l.out != [] && !n.l.out[0].cancelled && n.l.out[0].msg.OpenOk?
    ensures n.l.out[0].from.Some? ==> n.l.out[0].from.value < |n.l.chans| && !n.l.chans[n.l.out[0].from.value].state.Failed?
  {
    assert WriteOk(n.l, n.l.out[0]);
    HeadFlies(n.l, n.lr);
    assert GrantOk(n.l, n.l.out[0].msg);
    assert ChanOk(n.l.chans[n.l.out[0].msg.sender]);
  }

  lemma WriteHands(cfg: Config, e: Endpoint, a: Action)
    requires LiveOk(e) && Enabled(cfg, e, a) && Writes(a)
    requires a.WriteOutbound? && !e.out[0].cancelled && e.out[0].msg.OpenOk? && e.out[0].from.Some? ==>
               e.out[0].from.value < |e.chans| && !e.chans[e.out[0].from.value].state.Failed?
    ensures SameHands(e, Next(cfg, e, a)) && LiveOk(Next(cfg, e, a))
  {
  }

  lemma HandsWrite(cfg: Config, n: Net, n': Net, a: Action)
    requires Inv(cfg, n) && Handshaking(n) && Writes(a) && LeftMoves(cfg, n, n', Local(a))
    ensures Handshaking(n')
  {
    WriteSame(cfg, n.l, n.lr, a);
    WriteLive(cfg, n, a);
    IdleHands(n.l, n'.l, n.r, Fly(n.l, n.lr), Fly(n'.l, n'.lr), Fly(n.r, n.rl), Fly(n.r, n.rl));
  }

  lemma CancelHandShape(e: Endpoint, i: nat)
    requires Cancellable(e, i) && LiveOk(e)
    ensures var e', c := AfterCancel(e, i), e.out[i].from.value;
            && e'.out == e.out[i := e.out[i].(cancelled := true)] && e'.ctrl == e.ctrl && OnlyChan(e, e', c)
            && (!e.out[i].msg.Open? ==> SameHands(e, e') && LiveOk(e'))
            && (e.out[i].msg.Open? && !e.chans[c].live ==> LiveOk(e') && !e'.chans[c].openWait && e'.chans[c].peer == e.chans[c].peer)
  {
  }

  lemma HandsCancel(cfg: Config, n: Net, i: nat)
    requires Inv(cfg, n) && Handshaking(n) && Cancellable(n.l, i)
    ensures Handshaking(n.(l := AfterCancel(n.l, i)))
  {
    var l, l', m, c := n.l, AfterCancel(n.l, i), n.l.out[i].msg, n.l.out[i].from.value;
    var f, f', g := Fly(l, n.lr), Fly(l', n.lr), Fly(n.r, n.rl);
    assert WriteOk(l, l.out[i]);
    CancelHandShape(l, i);
    CancelLoses(l, l', n.lr, i);
    LostCloses(f, f', m);
    if m.Open? {
      ChanFacts(cfg, n, c);
      OpenUnderWay(l, n.r, n.lr, f, g, c, m);
      QuitHands(l, l', n.r, f, f', g, g, c);
    } else {
      IdleHands(l, l', n.r, f, f', g, g);
    }
  }

  lemma HandsUnask(cfg: Config, n: Net, i: nat)
    requires Handshaking(n) && Enabled(cfg, n.l, CancelGlobal(i))
    ensures Handshaking(n.(l := AfterUnasked(n.l, i)))
  {
    var l, l' := n.l, AfterUnasked(n.l, i);
    var f, f', g := Fly(l, n.lr), Fly(l', n.lr), Fly(n.r, n.rl);
    CancelLoses(l, l', n.lr, i);
    LostCloses(f, f', l.out[i].msg);
    IdleHands(l, l', n.r, f, f', g, g);
  }

  lemma AbandonShape(cfg: Config, e: Endpoint, c: nat)
    requires Enabled(cfg, e, AbandonOpen(c)) && LiveOk(e) && ChanOk(e.chans[c])
    ensures var e' := Next(cfg, e, AbandonOpen(c));
            && OnlyChan(e, e', c) && LiveOk(e') && e'.chans[c].peer.None? && !e'.chans[c].openWait && e'.out == e.out && e'.ctrl == e.ctrl
  {
  }

  lemma HandsAbandon(cfg: Config, n: Net, n': Net, c: nat)
    requires Inv(cfg, n) && Handshaking(n) && LeftMoves(cfg, n, n', Local(AbandonOpen(c)))
    ensures Handshaking(n')
  {
    ChanFacts(cfg, n, c);
    AbandonShape(cfg, n.l, c);
    assert n'.lr == n.lr;
    QuitHands(n.l, n'.l, n.r, Fly(n.l, n.lr), Fly(n'.l, n'.lr), Fly(n.r, n.rl), Fly(n.r, n.rl), c);
  }

  lemma GrewCloses(f: seq<Msg>, f': seq<Msg>, m: Msg)
    requires Grew(f, f', m)
    ensures m.Close? ==> Count(f', Closes(m.to)) == Count(f, Closes(m.to)) + 1
    ensures forall q: nat :: !(m.Close? && m.to == q) ==> Count(f', Closes(q)) == Count(f, Closes(q))
  {
    forall q: nat ensures Count(f', Closes(q)) == Count(f, Closes(q)) + CountOf(m, Closes(q)) { }
  }

  /** Shape of the moves that change the phase of one open channel. */
  ghost predicate Leaves(x: Endpoint, x': Endpoint, c: nat, q: nat) {
    && OnlyChan(x, x', c) && x.chans[c].peer == Some(q) && !x.chans[c].openWait && !x'.chans[c].openWait && LiveOk(x')
  }

  lemma CloseMove(x: Endpoint, x': Endpoint, y: Endpoint, f: seq<Msg>, f': seq<Msg>, g: seq<Msg>, c: nat, q: nat)
    requires Hands(x, y, f, g) && MatesOk(x, y) && AnnounceOk(y, x, g) && Leaves(x, x', c, q) && Grew(f, f', Close(q))
    requires x.chans[c].state.AllowsRequests() && x'.chans[c].state.Closing?
    ensures Hands(x', y, f', g)
  {
    GrewCloses(f, f', Close(q));
    assert PairHands(x, y, f, g, c, q);
    CloseHands(x, x', y, f, f', g, c, q);
    HandsFrame(x, x', y, f, f', g, g, c, q);
  }

  lemma CloseShape(cfg: Config, e: Endpoint, wire: seq<Msg>, c: nat, q: nat)
    requires Enabled(cfg, e, CloseChannel(c)) && LiveOk(e) && ChanOk(e.chans[c]) && e.chans[c].peer == Some(q)
    ensures var e' := Next(cfg, e, CloseChannel(c));
            Leaves(e, e', c, q) && e'.chans[c].state.Closing? && Grew(Fly(e, wire), Fly(e', wire), Close(q))
  {
    var mid := SetChan(e, c, BeginClose(e.chans[c]));
    CtrlGrows(mid, wire, Close(q));
    assert Fly(mid, wire) == Fly(e, wire);
  }

  lemma HandsClose(cfg: Config, n: Net, n': Net, c: nat)
    requires Inv(cfg, n) && Handshaking(n) && LeftMoves(cfg, n, n', Local(CloseChannel(c)))
    ensures Handshaking(n')
  {
    assert n'.lr == n.lr;
    ChanFacts(cfg, n, c);
    var q := n.l.chans[c].peer.value;
    CloseShape(cfg, n.l, n.lr, c, q);
    CloseMove(n.l, n'.l, n.r, Fly(n.l, n.lr), Fly(n'.l, n'.lr), Fly(n.r, n.rl), c, q);
  }

  lemma HandsOpen(cfg: Config, n: Net, n': Net, a: Action)
    requires Inv(cfg, n) && Handshaking(n) && a.OpenChannel? && LeftMoves(cfg, n, n', Local(a))
    ensures Handshaking(n')
  {
    assert n'.lr == n.lr;
    NoCloses(n.l, n'.l, n.lr);
    GainHands(n.l, n'.l, n.r, Fly(n.l, n.lr), Fly(n'.l, n'.lr), Fly(n.r, n.rl), Fly(n.r, n.rl), NewOutgoing());
  }

  lemma HandsSpend(cfg: Config, n: Net, n': Net)
    requires Inv(cfg, n) && Handshaking(n) && LeftMoves(cfg, n, n', Local(SpendChannelId))
    ensures Handshaking(n')
  {
    assert n'.lr == n.lr && Fly(n'.l, n'.lr) == Fly(n.l, n.lr);
    GainHands(n.l, n'.l, n.r, Fly(n.l, n.lr), Fly(n'.l, n'.lr), Fly(n.r, n.rl), Fly(n.r, n.rl), Fail(NewOutgoing()));
  }

  lemma HandsLocal(cfg: Config, n: Net, n': Net, a: Action)
    requires Inv(cfg, n) && Handshaking(n) && LeftMoves(cfg, n, n', Local(a)) && !a.CloseTimeout?
    ensures Handshaking(n')
  {
    if Writes(a) {
      HandsWrite(cfg, n, n', a);
    } else if a.OpenChannel? {
      HandsOpen(cfg, n, n', a);
    } else if a.SpendChannelId? {
      HandsSpend(cfg, n, n');
    } else if a.CancelWrite? {
      assert n'.lr == n.lr;
      HandsCancel(cfg, n, a.i);
    } else if a.CancelGlobal? {
      assert n'.lr == n.lr;
      HandsUnask(cfg, n, a.i);
    } else if a.CloseChannel? {
      HandsClose(cfg, n, n', a.c);
    } else if a.AbandonOpen? {
      HandsAbandon(cfg, n, n', a.c);
    } else {
      HandsHandless(cfg, n, n', a);
    }
  }

  lemma DecideShape(cfg: Config, e: Endpoint, d: Verdict, c: nat)
    requires LiveOk(e) && e.dispatch != [] && e.dispatch[0].Open? && Admit(cfg, e, d).Ok? && AtTask(e, c, e.dispatch[0].sender)
    requires e.dispatch[0].sender in e.peers && e.peers[e.dispatch[0].sender] == c
    ensures var e' := Admit(cfg, e, d).next;
            && OnlyChan(e, e', c) && LiveOk(e') && NoClosePut(e, e') && e'.chans[c].openWait == e.chans[c].openWait
            && (e'.chans[c].state.Opened? || e'.chans[c].state.Failed?)
  {
  }

  lemma HandsAdmit(cfg: Config, n: Net, n': Net, d: Verdict)
    requires Inv(cfg, n) && Handshaking(n) && LeftMoves(cfg, n, n', Admission(d))
    ensures Handshaking(n')
  {
    TaskFacts(cfg, n.l);
    var c := n.l.peers[n.l.dispatch[0].sender];
    DecideShape(cfg, n.l, d, c);
    NoCloses(n.l, n'.l, n.lr);
    DecideHands(n.l, n'.l, n.r, Fly(n.l, n.lr), Fly(n'.l, n'.lr), Fly(n.r, n.rl), c);
  }

  lemma HandsRoute(cfg: Config, n: Net, n': Net, luck: Luck)
    requires Handshaking(n) && LeftMoves(cfg, n, n', Receive(luck)) && RoutesHandless(n.rl[0])
    ensures Handshaking(n')
  {
    var g, g' := Fly(n.r, n.rl), Fly(n.r, n.rl[1..]);
    WirePops(n.r, n.rl);
    RouteHands(cfg, n.l, n.rl[0], luck);
    RouteLive(cfg, n.l, n.rl[0], luck);
    NoCloses(n.l, n'.l, n.lr);
    PoppedCloses(g, g', n.rl[0]);
    IdleHands(n.l, n'.l, n.r, Fly(n.l, n.lr), Fly(n'.l, n'.lr), g, g');
  }

  lemma HandsJoin(cfg: Config, n: Net)
    requires Inv(cfg, n) && Handshaking(n) && n.rl != [] && n.rl[0].OpenOk? && RecvOpenOk(cfg, n.l, n.rl[0]).Ok?
    ensures Handshaking(n.(l := RecvOpenOk(cfg, n.l, n.rl[0]).next, rl := n.rl[1..]))
  {
    var m, l' := n.rl[0], RecvOpenOk(cfg, n.l, n.rl[0]).next;
    var f, g, g' := Fly(n.l, n.lr), Fly(n.r, n.rl), Fly(n.r, n.rl[1..]);
    WirePops(n.r, n.rl);
    ChanFacts(cfg, n, m.opener);
    GrantFacts(cfg, n.l, n.r, n.rl, f, g, g', m);
    PoppedCloses(g, g', m);
    assert ChanOk(n.r.chans[m.sender]);
    JoinHands(cfg, n.l, l', n.r, f, g, g', m);
  }

  lemma HandsReject(cfg: Config, n: Net, n': Net, luck: Luck)
    requires Inv(cfg, n) && Handshaking(n) && LeftMoves(cfg, n, n', Receive(luck)) && n.rl[0].OpenReject?
    ensures Handshaking(n')
  {
    var m, f, g, g' := n.rl[0], Fly(n.l, n.lr), Fly(n.r, n.rl), Fly(n.r, n.rl[1..]);
    WirePops(n.r, n.rl);
    PoppedCloses(g, g', m);
    RejectShape(cfg, n, n', luck);
    QuitHands(n.l, n'.l, n.r, f, f, g, g', m.opener);
  }

  lemma RejectShape(cfg: Config, n: Net, n': Net, luck: Luck)
    requires Inv(cfg, n) && LiveOk(n.l) && LeftMoves(cfg, n, n', Receive(luck)) && n.rl[0].OpenReject?
    ensures Fly(n'.l, n'.lr) == Fly(n.l, n.lr) && LiveOk(n'.l)
    ensures var c := n.rl[0].opener; OnlyChan(n.l, n'.l, c) && n.l.chans[c].opener && n'.l.chans[c].peer.None? && !n'.l.chans[c].openWait
  {
    ChanFacts(cfg, n, n.rl[0].opener);
    RejectNext(cfg, n.l, n.rl[0], luck);
  }

  lemma RejectNext(cfg: Config, e: Endpoint, m: Msg, luck: Luck)
    requires Route(cfg, e, m, luck).Ok? && m.OpenReject? && LiveOk(e) && m.opener < |e.chans| && ChanOk(e.chans[m.opener])
    ensures var e' := Route(cfg, e, m, luck).next;
            && LiveOk(e') && OnlyChan(e, e', m.opener) && e'.out == e.out && e'.ctrl == e.ctrl
            && e.chans[m.opener].openWait && !e'.chans[m.opener].openWait && e'.chans[m.opener].peer == e.chans[m.opener].peer
  {
  }

  lemma IncomingSilent(cfg: Config, n: Net, g': seq<Msg>, m: Msg)
    requires Inv(cfg, n) && m.Open? && Popped(Fly(n.r, n.rl), g', m)
    ensures Count(Fly(n.l, n.lr), Closes(m.sender)) == 0 && Count(Fly(n.r, n.rl), Closes(|n.l.chans|)) == 0
    ensures m.sender < |n.r.chans| && ChanOk(n.r.chans[m.sender])
  {
    OpenFacts(cfg, n.l, n.r, n.rl, Fly(n.l, n.lr), Fly(n.r, n.rl), g', m);
    NobodySpeaks(n.l, Fly(n.l, n.lr), m.sender);
    Unknown(n.l, n.r, |n.l.chans|);
    NoPeers(n.r.chans, |n.l.chans|);
    NobodySpeaks(n.r, Fly(n.r, n.rl), |n.l.chans|);
  }

  lemma GainHandShape(cfg: Config, e: Endpoint, m: Msg, luck: Luck)
    requires m.Open? && RecvOpen(cfg, e, m, luck).Ok?
    ensures NoClosePut(e, RecvOpen(cfg, e, m, luck).next)
  {
  }

  lemma IncomingMove(cfg: Config, x: Endpoint, x': Endpoint, y: Endpoint, f: seq<Msg>, f': seq<Msg>, g: seq<Msg>, g': seq<Msg>, m: Msg, luck: Luck)
    requires Hands(x, y, f, g) && MatesOk(y, x) && Popped(g, g', m) && m.Open? && SameCloses(f, f')
    requires x'.chans == x.chans + [Gain(cfg, m, luck)] && m.sender < |y.chans| && ChanOk(y.chans[m.sender])
    requires Count(f, Closes(m.sender)) == 0 && Count(g, Closes(|x.chans|)) == 0
    ensures Hands(x', y, f', g')
  {
    PoppedCloses(g, g', m);
    GainHands(x, x', y, f, f', g, g', Gain(cfg, m, luck));
  }

  lemma HandsIncoming(cfg: Config, n: Net, n': Net, luck: Luck)
    requires Inv(cfg, n) && Handshaking(n) && LeftMoves(cfg, n, n', Receive(luck)) && n.rl[0].Open?
    ensures Handshaking(n')
  {
    var m, g' := n.rl[0], Fly(n.r, n.rl[1..]);
    WirePops(n.r, n.rl);
    IncomingSilent(cfg, n, g', m);
    GainShape(cfg, n.l, m, luck);
    GainHandShape(cfg, n.l, m, luck);
    NoCloses(n.l, n'.l, n.lr);
    IncomingMove(cfg, n.l, n'.l, n.r, Fly(n.l, n.lr), Fly(n'.l, n'.lr), Fly(n.r, n.rl), g', m, luck);
  }

  lemma AckMove(x: Endpoint, x': Endpoint, y: Endpoint, f: seq<Msg>, g: seq<Msg>, g': seq<Msg>, c: nat, q: nat)
    requires Hands(x, y, f, g) && MatesOk(x, y) && AnnounceOk(y, x, g) && Leaves(x, x', c, q) && Popped(g, g', Close(c))
    requires x.chans[c].state.Closing? && x'.chans[c].state.Closed?
    ensures Hands(x', y, f, g')
  {
    PoppedCloses(g, g', Close(c));
    assert PairHands(x, y, f, g, c, q);
    AckHands(x, x', y, f, g, g', c, q);
    HandsFrame(x, x', y, f, f, g, g', c, q);
  }

  lemma AckShape(e: Endpoint, m: Msg, luck: Luck, c: nat, q: nat)
    requires m.Close? && m.to == c && RecvClose(e, m, luck).Ok? && e.chans[c].state.Closing? && e.chans[c].peer == Some(q)
    requires LiveOk(e) && ChanOk(e.chans[c])
    ensures var e' := RecvClose(e, m, luck).next;
            Leaves(e, e', c, q) && e'.chans[c].state.Closed? && e'.out == e.out && e'.ctrl == e.ctrl
  {
  }

  lemma HandsAcked(cfg: Config, n: Net, luck: Luck)
    requires Inv(cfg, n) && Handshaking(n) && n.rl != [] && n.rl[0].Close? && RecvClose(n.l, n.rl[0], luck).Ok?
    requires n.l.chans[n.rl[0].to].state.Closing?
    ensures Handshaking(n.(l := RecvClose(n.l, n.rl[0], luck).next, rl := n.rl[1..]))
  {
    var c, l' := n.rl[0].to, RecvClose(n.l, n.rl[0], luck).next;
    ChanFacts(cfg, n, c);
    var q := n.l.chans[c].peer.value;
    AckShape(n.l, n.rl[0], luck, c, q);
    WirePops(n.r, n.rl);
    AckMove(n.l, l', n.r, Fly(n.l, n.lr), Fly(n.r, n.rl), Fly(n.r, n.rl[1..]), c, q);
  }

  lemma AnswerMove(x: Endpoint, x': Endpoint, y: Endpoint, f: seq<Msg>, f': seq<Msg>, g: seq<Msg>, g': seq<Msg>, c: nat, q: nat)
    requires Hands(x, y, f, g) && MatesOk(x, y) && AnnounceOk(y, x, g) && Leaves(x, x', c, q)
    requires Popped(g, g', Close(c)) && Grew(f, f', Close(q))
    requires x.chans[c].state.AllowsRequests() && x'.chans[c].state.Closed?
    ensures Hands(x', y, f', g')
  {
    PoppedCloses(g, g', Close(c));
    GrewCloses(f, f', Close(q));
    assert PairHands(x, y, f, g, c, q);
    AnswerHands(x, x', y, f, f', g, g', c, q);
    HandsFrame(x, x', y, f, f', g, g', c, q);
  }

  lemma AnswerShape(e: Endpoint, wire: seq<Msg>, m: Msg, luck: Luck, c: nat, q: nat)
    requires m.Close? && m.to == c && RecvClose(e, m, luck).Ok? && !e.chans[c].state.Closing? && e.chans[c].peer == Some(q)
    requires LiveOk(e) && ChanOk(e.chans[c])
    ensures var e' := RecvClose(e, m, luck).next;
            Leaves(e, e', c, q) && e'.chans[c].state.Closed? && Grew(Fly(e, wire), Fly(e', wire), Close(q))
  {
    ClosedShape(e, m, luck, c, q);
    var mid := Remove(e, c, ClosedBy(e.chans[c]));
    CtrlGrows(mid, wire, Close(q));
    assert Fly(mid, wire) == Fly(e, wire);
  }

  lemma HandsClosed(cfg: Config, n: Net, luck: Luck)
    requires Inv(cfg, n) && Handshaking(n) && n.rl != [] && n.rl[0].Close? && RecvClose(n.l, n.rl[0], luck).Ok?
    requires !n.l.chans[n.rl[0].to].state.Closing?
    ensures Handshaking(n.(l := RecvClose(n.l, n.rl[0], luck).next, rl := n.rl[1..]))
  {
    var c, l' := n.rl[0].to, RecvClose(n.l, n.rl[0], luck).next;
    ChanFacts(cfg, n, c);
    var q := n.l.chans[c].peer.value;
    AnswerShape(n.l, n.lr, n.rl[0], luck, c, q);
    WirePops(n.r, n.rl);
    AnswerMove(n.l, l', n.r, Fly(n.l, n.lr), Fly(l', n.lr), Fly(n.r, n.rl), Fly(n.r, n.rl[1..]), c, q);
  }

  lemma HandsReceive(cfg: Config, n: Net, n': Net, luck: Luck)
    requires Inv(cfg, n) && Handshaking(n) && LeftMoves(cfg, n, n', Receive(luck))
    ensures Handshaking(n')
  {
    if n.rl[0].Open? {
      HandsIncoming(cfg, n, n', luck);
    } else if n.rl[0].OpenOk? {
      HandsJoin(cfg, n);
    } else if n.rl[0].OpenReject? {
      HandsReject(cfg, n, n', luck);
    } else if !n.rl[0].Close? {
      HandsRoute(cfg, n, n', luck);
    } else if n.l.chans[n.rl[0].to].state.Closing? {
      HandsAcked(cfg, n, luck);
    } else {
      HandsClosed(cfg, n, luck);
    }
  }

  predicate TimesOut(mv: Move) {
    mv.Local? && mv.a.CloseTimeout?
  }

  lemma HandsLeft(cfg: Config, n: Net, n': Net, mv: Move)
    requires Inv(cfg, n) && Handshaking(n) && LeftMoves(cfg, n, n', mv) && !TimesOut(mv)
    ensures Handshaking(n')
  {
    match mv
    case Local(a) => HandsLocal(cfg, n, n', a);
    case Admission(d) => HandsAdmit(cfg, n, n', d);
    case Receive(luck) => HandsReceive(cfg, n, n', luck);
  }

  lemma NextHands(cfg: Config, n: Net, n': Net, t: Turn)
    requires Fit(cfg) && Inv(cfg, n) && Handshaking(n) && Step(cfg, n, n', t) && !TimesOut(t.move)
    ensures Inv(cfg, n') && Handshaking(n')
  {
    StepKeeps(cfg, n, n', t);
    if t.left {
      HandsLeft(cfg, n, n', t.move);
    } else {
      InvSwap(cfg, n);
      HandsLeft(cfg, Swap(n), Swap(n'), t.move);
    }
  }

  lemma StartHands()
    ensures Handshaking(START)
  {
  }

  lemma {:induction false} RunHands(cfg: Config, trace: seq<Net>, turns: seq<Turn>, i: nat)
    requires Fit(cfg) && Run(cfg, trace, turns) && i < |trace| && forall j :: 0 <= j < i ==> !TimesOut(turns[j].move)
    ensures Inv(cfg, trace[i]) && Handshaking(trace[i])
  {
    if i == 0 {
      StartOk(cfg);
      StartHands();
    } else {
      RunHands(cfg, trace, turns, i - 1);
      NextHands(cfg, trace[i - 1], trace[i], turns[i - 1]);
    }
  }

  // ----- what it comes to

  /** The two ends of a channel that both know each other. */
  predicate Ends(n: Net, c: nat, q: nat) {
    && c < |n.l.chans| && q < |n.r.chans| && n.l.chans[c].peer == Some(q) && n.r.chans[q].peer == Some(c)
  }

  /** No close is under way between the two ends. */
  predicate Settled(n: Net, c: nat, q: nat) {
    Count(Fly(n.l, n.lr), Closes(q)) == 0 && Count(Fly(n.r, n.rl), Closes(c)) == 0
  }

  /**
   Without close timeouts, once no close is under way the two ends agree: either both are open, or
   both are closed and gone from both channel tables.
   */
  lemma CloseCompletes(cfg: Config, trace: seq<Net>, turns: seq<Turn>, i: nat, c: nat, q: nat)
    requires Fit(cfg) && Run(cfg, trace, turns) && i < |trace| && forall j :: 0 <= j < i ==> !TimesOut(turns[j].move)
    requires Ends(trace[i], c, q) && Settled(trace[i], c, q)
    ensures var a, b := trace[i].l.chans[c], trace[i].r.chans[q];
            || (a.state.AllowsRequests() && b.state.AllowsRequests())
            || (a.state.Closed? && b.state.Closed? && a.slot == NoSlot && b.slot == NoSlot)
  {
    var n := trace[i];
    RunHands(cfg, trace, turns, i);
    ChanFacts(cfg, n, c);
    assert ChanOk(n.r.chans[q]);
    assert MateOk(n.l, n.r, c);
    assert HandAt(n.l, n.r, Fly(n.l, n.lr), Fly(n.r, n.rl), c, q);
    assert HandAt(n.r, n.l, Fly(n.r, n.rl), Fly(n.l, n.lr), q, c);
  }

  /** A close finds its channel open or leaving, unless a timeout or an abandoned open took it away. */
  lemma CloseWelcome(cfg: Config, trace: seq<Net>, turns: seq<Turn>, i: nat, c: nat)
    requires Fit(cfg) && Run(cfg, trace, turns) && i < |trace| && forall j :: 0 <= j < i ==> !TimesOut(turns[j].move)
    requires trace[i].rl != [] && trace[i].rl[0] == Close(c)
    requires c < |trace[i].l.chans| && (trace[i].l.chans[c].peer.Some? || trace[i].l.chans[c].openWait)
    ensures Route(cfg, trace[i].l, Close(c), PLENTY).Ok?
  {
    RunHands(cfg, trace, turns, i);
    CloseHeard(cfg, trace[i], c);
    CloseRouted(cfg, trace[i].l, c);
  }

  lemma CloseRouted(cfg: Config, e: Endpoint, c: nat)
    ensures RecvClose(e, Close(c), PLENTY).Ok? ==> Route(cfg, e, Close(c), PLENTY).Ok?
  {
  }

  lemma CloseHeard(cfg: Config, n: Net, c: nat)
    requires Inv(cfg, n) && Handshaking(n) && n.rl != [] && n.rl[0] == Close(c)
    requires c < |n.l.chans| && (n.l.chans[c].peer.Some? || n.l.chans[c].openWait)
    ensures RecvClose(n.l, Close(c), PLENTY).Ok?
  {
    var o := CloserOf(n.r, n.l, n.rl, Fly(n.l, n.lr), c);
    CloseMeets(cfg, n, c, o);
  }

  /** Somebody stands behind a close at the head of the wire. */
  lemma CloserOf(y: Endpoint, x: Endpoint, yx: seq<Msg>, f: seq<Msg>, c: nat) returns (o: nat)
    requires LinksOk(y, x, yx, Fly(y, yx), f) && yx != [] && yx[0] == Close(c)
    ensures Speaks(y, o, c) && Count(Fly(y, yx), Closes(c)) > 0
  {
    WirePops(y, yx);
    HeadFor(Fly(y, yx), Fly(y, yx[1..]), yx[0]);
    o :| Speaks(y, o, c);
  }

  lemma CloseMeets(cfg: Config, n: Net, c: nat, o: nat)
    requires Inv(cfg, n) && Handshaking(n) && n.rl != [] && n.rl[0] == Close(c) && Speaks(n.r, o, c)
    requires c < |n.l.chans| && (n.l.chans[c].peer.Some? || n.l.chans[c].openWait)
    requires Count(Fly(n.r, n.rl), Closes(c)) > 0
    ensures InTable(n.l, c) && n.l.chans[c].peer.Some? && (n.l.chans[c].state.Closing? || n.l.chans[c].state.AllowsRequests())
  {
    ChanFacts(cfg, n, c);
    assert ChanOk(n.r.chans[o]);
    assert MateOk(n.r, n.l, o);
    assert !OpenFirst(n.rl, c);
    assert n.l.chans[c].peer == Some(o);
    assert HandAt(n.l, n.r, Fly(n.l, n.lr), Fly(n.r, n.rl), c, o);
    assert HandAt(n.r, n.l, Fly(n.r, n.rl), Fly(n.l, n.lr), o, c);
  }

  // ----- no way back

  predicate Forward(a: Phase, b: Phase) {
    match a
    case Early => true
    case Up => !b.Early?
    case Leaving => !b.Early? && !b.Up?
    case Gone => b.Gone?
    case Broken => b.Broken?
  }

  ghost predicate AllForward(e: Endpoint, e': Endpoint) {
    |e.chans| <= |e'.chans| && forall c :: 0 <= c < |e.chans| ==> Forward(PhaseOf(e.chans[c].state), PhaseOf(e'.chans[c].state))
  }

  lemma CancelForward(e: Endpoint, i: nat)
    requires Cancellable(e, i)
    ensures AllForward(e, AfterCancel(e, i))
  {
  }

  lemma HandForward(cfg: Config, e: Endpoint, a: Action)
    requires Enabled(cfg, e, a) && !Handless(a) && !a.CancelWrite?
    ensures AllForward(e, Next(cfg, e, a))
  {
  }

  lemma LocalForward(cfg: Config, e: Endpoint, a: Action)
    requires Enabled(cfg, e, a)
    ensures AllForward(e, Next(cfg, e, a))
  {
    if Handless(a) {
      LocalHands(cfg, e, a);
    } else if a.CancelWrite? {
      CancelForward(e, a.i);
    } else {
      HandForward(cfg, e, a);
    }
  }

  lemma RouteForward(cfg: Config, e: Endpoint, m: Msg, luck: Luck)
    requires Route(cfg, e, m, luck).Ok?
    ensures AllForward(e, Route(cfg, e, m, luck).next)
  {
  }

  lemma AdmitForward(cfg: Config, e: Endpoint, d: Verdict)
    requires e.dispatch != [] && e.dispatch[0].Open? && Admit(cfg, e, d).Ok?
    ensures AllForward(e, Admit(cfg, e, d).next)
  {
  }

  lemma StepForward(cfg: Config, n: Net, n': Net, t: Turn)
    requires Step(cfg, n, n', t)
    ensures AllForward(n.l, n'.l) && AllForward(n.r, n'.r)
  {
    var x := if t.left then n.l else n.r;
    match t.move
    case Local(a) => LocalForward(cfg, x, a);
    case Admission(d) => AdmitForward(cfg, x, d);
    case Receive(luck) => RouteForward(cfg, x, if t.left then n.rl[0] else n.lr[0], luck);
  }

  ghost predicate Onward(n: Net, n': Net) {
    AllForward(n.l, n'.l) && AllForward(n.r, n'.r)
  }

  lemma OnwardAt(cfg: Config, trace: seq<Net>, turns: seq<Turn>, i: nat)
    requires Run(cfg, trace, turns) && i < |turns|
    ensures Onward(trace[i], trace[i + 1])
  {
    StepAt(cfg, trace, turns, i);
    StepForward(cfg, trace[i], trace[i + 1], turns[i]);
  }

  lemma OnwardTwice(n: Net, n': Net, n'': Net)
    requires Onward(n, n') && Onward(n', n'')
    ensures Onward(n, n'')
  {
  }

  lemma OnwardSelf(n: Net)
    ensures Onward(n, n)
  {
  }

  lemma {:induction false} OnwardChain(trace: seq<Net>, i: nat, j: nat)
    requires i <= j < |trace| && forall k :: 0 < k < |trace| ==> Onward(trace[k - 1], trace[k])
    ensures Onward(trace[i], trace[j])
  {
    if i == j {
      OnwardSelf(trace[i]);
    } else {
      OnwardChain(trace, i, j - 1);
      OnwardTwice(trace[i], trace[j - 1], trace[j]);
    }
  }

  /** Closing, closed and failed channels never open again, whatever happens. */
  lemma NeverReopens(cfg: Config, trace: seq<Net>, turns: seq<Turn>, i: nat, j: nat)
    requires Run(cfg, trace, turns) && i <= j < |trace|
    ensures Onward(trace[i], trace[j])
  {
    forall k | 0 < k < |trace| ensures Onward(trace[k - 1], trace[k]) {
      OnwardAt(cfg, trace, turns, k - 1);
    }
    OnwardChain(trace, i, j);
  }

  /** One of the two ends has begun to close, or is closed. */
  predicate Begun(n: Net, c: nat, q: nat) {
    || (c < |n.l.chans| && (n.l.chans[c].state.Closing? || n.l.chans[c].state.Closed?))
    || (q < |n.r.chans| && (n.r.chans[q].state.Closing? || n.r.chans[q].state.Closed?))
  }

  /** A close once begun is complete, at both ends, in every later state in which none is under way. */
  lemma CloseEnds(cfg: Config, trace: seq<Net>, turns: seq<Turn>, i: nat, j: nat, c: nat, q: nat)
    requires Fit(cfg) && Run(cfg, trace, turns) && i <= j < |trace| && forall k :: 0 <= k < j ==> !TimesOut(turns[k].move)
    requires Begun(trace[i], c, q) && Ends(trace[j], c, q) && Settled(trace[j], c, q)
    ensures var a, b := trace[j].l.chans[c], trace[j].r.chans[q];
            a.state.Closed? && b.state.Closed? && a.slot == NoSlot && b.slot == NoSlot
  {
    CloseCompletes(cfg, trace, turns, j, c, q);
    NeverReopens(cfg, trace, turns, i, j);
    StillBegun(trace[i], trace[j], c, q);
  }

  /** So it is never the case again that both are open. */
  lemma StillBegun(n: Net, n': Net, c: nat, q: nat)
    requires Onward(n, n') && Begun(n, c, q)
    ensures (c < |n'.l.chans| && !n'.l.chans[c].state.AllowsRequests()) || (q < |n'.r.chans| && !n'.r.chans[q].state.AllowsRequests())
  {
  }

  /** The left endpoint puts a close for the peer of its channel c into its control queue. */
  predicate EmitsClose(n: Net, n': Net, c: nat) {
    c < |n.l.chans| && n.l.chans[c].peer.Some? && n'.l.ctrl == n.l.ctrl + [Close(n.l.chans[c].peer.value)]
  }

  lemma LocalEmits(cfg: Config, e: Endpoint, a: Action, q: nat)
    requires Enabled(cfg, e, a) && Next(cfg, e, a).ctrl == e.ctrl + [Close(q)]
    ensures a.CloseChannel? && e.chans[a.c].peer == Some(q)
  {
    assert Last(e.ctrl + [Close(q)]) == Close(q) && |e.ctrl + [Close(q)]| == |e.ctrl| + 1;
    if a.CloseChannel? {
      assert Last(Next(cfg, e, a).ctrl) == Close(e.chans[a.c].peer.value);
    }
  }

  lemma RouteEmits(cfg: Config, e: Endpoint, m: Msg, luck: Luck, q: nat)
    requires Route(cfg, e, m, luck).Ok? && Route(cfg, e, m, luck).next.ctrl == e.ctrl + [Close(q)]
    ensures m.Close? && e.chans[m.to].peer == Some(q) && e.chans[m.to].state.AllowsRequests()
    ensures Route(cfg, e, m, luck).next.chans[m.to].state.Closed?
  {
    assert Last(e.ctrl + [Close(q)]) == Close(q) && |e.ctrl + [Close(q)]| == |e.ctrl| + 1;
    assert Last(Route(cfg, e, m, luck).next.ctrl) == Close(q);
  }

  /** Emitting a close takes the channel from open to leaving or gone. */
  lemma EmitLeaves(cfg: Config, n: Net, n': Net, t: Turn, g: seq<Msg>, c: nat)
    requires AnnounceOk(n.r, n.l, g) && Step(cfg, n, n', t) && EmitsClose(n, n', c)
    ensures c < |n'.l.chans|
    ensures PhaseOf(n.l.chans[c].state).Up? && (PhaseOf(n'.l.chans[c].state).Leaving? || PhaseOf(n'.l.chans[c].state).Gone?)
  {
    var q := n.l.chans[c].peer.value;
    assert |n'.l.ctrl| == |n.l.ctrl| + 1;
    if t.move.Local? {
      LocalEmits(cfg, n.l, t.move.a, q);
      OnlyPeer(n.l, n.r, g, c, t.move.a.c, q);
    } else if t.move.Receive? {
      RouteEmits(cfg, n.l, n.rl[0], t.move.luck, q);
      OnlyPeer(n.l, n.r, g, c, n.rl[0].to, q);
    }
  }

  /** In no run does an endpoint emit two closes for one channel, timeouts and all. */
  lemma ClosesOnce(cfg: Config, trace: seq<Net>, turns: seq<Turn>, i: nat, j: nat, c: nat)
    requires Fit(cfg) && Run(cfg, trace, turns) && i < |turns| && j < |turns|
    requires EmitsClose(trace[i], trace[i + 1], c) && EmitsClose(trace[j], trace[j + 1], c)
    ensures i == j
  {
    if i < j {
      ClosesApart(cfg, trace, turns, i, j, c);
    } else if j < i {
      ClosesApart(cfg, trace, turns, j, i, c);
    }
  }

  lemma ClosesApart(cfg: Config, trace: seq<Net>, turns: seq<Turn>, i: nat, j: nat, c: nat)
    requires Fit(cfg) && Run(cfg, trace, turns) && i < j < |turns| && EmitsClose(trace[i], trace[i + 1], c)
    ensures !EmitsClose(trace[j], trace[j + 1], c)
  {
    EmitsThen(cfg, trace, turns, i, c);
    NeverReopens(cfg, trace, turns, i + 1, j);
    if EmitsClose(trace[j], trace[j + 1], c) {
      EmitsThen(cfg, trace, turns, j, c);
    }
  }

  lemma EmitsThen(cfg: Config, trace: seq<Net>, turns: seq<Turn>, i: nat, c: nat)
    requires Fit(cfg) && Run(cfg, trace, turns) && i < |turns| && EmitsClose(trace[i], trace[i + 1], c)
    ensures c < |trace[i + 1].l.chans| && PhaseOf(trace[i].l.chans[c].state).Up?
    ensures PhaseOf(trace[i + 1].l.chans[c].state).Leaving? || PhaseOf(trace[i + 1].l.chans[c].state).Gone?
  {
    RunKeeps(cfg, trace, turns, i);
    StepAt(cfg, trace, turns, i);
    EmitLeaves(cfg, trace[i], trace[i + 1], turns[i], Fly(trace[i].r, trace[i].rl), c);
  }
}
