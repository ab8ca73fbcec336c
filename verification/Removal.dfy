/** Closing, timing out and abandoning channels keep the invariant of all the others. */
module Removal {
  import opened Types
  import opened SessionConfig
  import opened Envelope
  import opened Channel
  import opened Endpoint
  import opened Flight
  import opened Direction
  import opened Network
  import opened Links
  import opened Mates
  import opened Traffic
  import opened Control

  /** removeChannel keeps the tables consistent when no dispatch task is left for the channel. */
  lemma RemoveOk(cfg: Config, e: Endpoint, c: nat, ch: Chan)
    requires EndpointOk(cfg, e) && c < |e.chans| && ChanOk(ch) && SendOk(cfg, ch) && ch.slot == NoSlot
    requires ch.opener == e.chans[c].opener && ch.peer == e.chans[c].peer && (e.chans[c].live ==> ch.live)
    requires ReqMono(e.chans[c], ch)
    requires forall m :: m in e.dispatch && m.Open? ==> m.sender in e.peers && e.peers[m.sender] != c
    ensures EndpointOk(cfg, Remove(e, c, ch))
  {
    var e' := Remove(e, c, ch);
    forall i | 0 <= i < |e'.out| ensures WriteOk(e', e'.out[i]) {
      assert WriteOk(e, e.out[i]);
    }
    assert PeersOk(e') by {
      forall d: nat | InTable(e', d) && e'.chans[d].peer.Some?
        ensures e'.chans[d].peer.value in e'.peers && e'.peers[e'.chans[d].peer.value] == d
      {
        assert InTable(e, d);
      }
    }
    assert TasksOk(e') by {
      forall m | m in e'.dispatch && m.Open? ensures TaskOk(e', m.sender) {
        assert TaskOk(e, m.sender);
      }
    }
  }

  /** No task of the dispatcher concerns a channel that is not an incoming open. */
  lemma NoTask(cfg: Config, e: Endpoint, c: nat)
    requires EndpointOk(cfg, e) && c < |e.chans| && (e.chans[c].opener || e.chans[c].slot != Pending)
    ensures forall m :: m in e.dispatch && m.Open? ==> m.sender in e.peers && e.peers[m.sender] != c
  {
    forall m | m in e.dispatch && m.Open? ensures m.sender in e.peers && e.peers[m.sender] != c {
      assert TaskOk(e, m.sender);
    }
  }

  /** One channel gives up its claims; nothing is sent. */
  lemma GiveUp(cfg: Config, x: Endpoint, x': Endpoint, y: Endpoint, xy: seq<Msg>, yx: seq<Msg>,
               f: seq<Msg>, g: seq<Msg>, c: nat)
    requires InvAt(cfg, x, y, xy, yx, f, g) && EndpointOk(cfg, x') && SameGlobals(x, x')
    requires OnlyChan(x, x', c) && Calm(x.chans[c], x'.chans[c], y) && x'.chans[c].spoiled
    ensures InvAt(cfg, x', y, xy, yx, f, g)
  {
    assert AllCalm(x, x', y);
    CalmOwn(x, x', y, xy, f, g);
    CalmOther(x, x', y, yx, f, g);
    PairsQuiet(cfg, x, x', y, f, f, g, g, c);
    GlobalsIdle(x, x', y, f, f, g);
  }

  lemma StepTimeout(cfg: Config, n: Net, c: nat)
    requires Inv(cfg, n) && Enabled(cfg, n.l, CloseTimeout(c))
    ensures Inv(cfg, n.(l := Next(cfg, n.l, CloseTimeout(c))))
  {
    var l' := Next(cfg, n.l, CloseTimeout(c));
    ChanFacts(cfg, n, c);
    NoTask(cfg, n.l, c);
    RemoveOk(cfg, n.l, c, n.l.chans[c].(state := Closed, slot := NoSlot));
    GiveUp(cfg, n.l, l', n.r, n.lr, n.rl, Fly(n.l, n.lr), Fly(n.r, n.rl), c);
  }

  lemma StepAbandonOpen(cfg: Config, n: Net, c: nat)
    requires Inv(cfg, n) && Enabled(cfg, n.l, AbandonOpen(c))
    ensures Inv(cfg, n.(l := Next(cfg, n.l, AbandonOpen(c))))
  {
    var l' := Next(cfg, n.l, AbandonOpen(c));
    ChanFacts(cfg, n, c);
    NoTask(cfg, n.l, c);
    RemoveOk(cfg, n.l, c, Fail(n.l.chans[c]).(spoiled := true));
    assert Fly(l', n.lr) == Fly(n.l, n.lr);
    GiveUp(cfg, n.l, l', n.r, n.lr, n.rl, Fly(n.l, n.lr), Fly(n.r, n.rl), c);
  }

  lemma StepAbandonRequest(cfg: Config, n: Net, c: nat, id: nat)
    requires Inv(cfg, n) && Enabled(cfg, n.l, AbandonRequest(c, id))
    ensures Inv(cfg, n.(l := Next(cfg, n.l, AbandonRequest(c, id))))
  {
    var l' := Next(cfg, n.l, AbandonRequest(c, id));
    ChanFacts(cfg, n, c);
    SetChanOk(cfg, n.l, c, n.l.chans[c].(pending := n.l.chans[c].pending - {id}, spoiled := true));
    GiveUp(cfg, n.l, l', n.r, n.lr, n.rl, Fly(n.l, n.lr), Fly(n.r, n.rl), c);
  }

  /** One channel gives up its claims and tells its mate so on the control queue. */
  lemma GiveUpClosing(cfg: Config, x: Endpoint, x': Endpoint, y: Endpoint, xy: seq<Msg>, yx: seq<Msg>,
                      f: seq<Msg>, f': seq<Msg>, g: seq<Msg>, c: nat, q: nat)
    requires InvAt(cfg, x, y, xy, yx, f, g) && EndpointOk(cfg, x') && SameGlobals(x, x')
    requires OnlyChan(x, x', c) && Calm(x.chans[c], x'.chans[c], y) && Speaks(x, c, q) && q < |y.chans|
    requires x'.chans[c].spoiled || y.chans[q].spoiled
    requires Grew(f, f', Close(q))
    ensures InvAt(cfg, x', y, xy, yx, f', g)
  {
    OneCalm(x, x', y, c);
    CloseLinks(x, x', y, xy, yx, f, f', g, c, q);
    GrewStatic(cfg, f, f', Close(q));
    SpoiledPairs(cfg, x, x', y, f, f', g, c, q);
    GlobalsPast(x, x', y, f, f', g, Close(q));
  }

  lemma OneCalm(x: Endpoint, x': Endpoint, y: Endpoint, c: nat)
    requires OnlyChan(x, x', c) && x'.dispatch == x.dispatch && Calm(x.chans[c], x'.chans[c], y)
    ensures AllCalm(x, x', y)
  {
  }

  lemma GrewStatic(cfg: Config, f: seq<Msg>, f': seq<Msg>, m: Msg)
    requires AllStatic(cfg, f) && StaticOk(cfg, m) && Grew(f, f', m)
    ensures AllStatic(cfg, f')
  {
  }

  lemma GlobalsPast(x: Endpoint, x': Endpoint, y: Endpoint, f: seq<Msg>, f': seq<Msg>, g: seq<Msg>, m: Msg)
    requires GlobalsOk(x, y, f, g) && GlobalsOk(y, x, g, f) && SameGlobals(x, x')
    requires Grew(f, f', m) && !m.GlobalRequest? && !m.GlobalReply?
    ensures GlobalsOk(x', y, f', g) && GlobalsOk(y, x', g, f')
  {
    assert Asks(f', None) == Asks(f, None) + AskOf(m, None);
    assert Replies(f', None) == Replies(f, None) + ReplyOf(m, None);
  }

  lemma SpoiledPairs(cfg: Config, x: Endpoint, x': Endpoint, y: Endpoint, f: seq<Msg>, f': seq<Msg>, g: seq<Msg>, c: nat, q: nat)
    requires PairsOk(cfg, x, y, f, g) && Linked(x, y, f, g) && OnlyChan(x, x', c) && x.chans[c].peer == Some(q)
    requires q < |y.chans| && (x'.chans[c].spoiled || y.chans[q].spoiled) && Grew(f, f', Close(q))
    ensures PairsOk(cfg, x', y, f', g)
  {
    GrewOnly(f, f', Close(q));
    SameOnly(g, g, c);
    PairsFrame(cfg, x, x', y, f, f', g, g, c, q);
  }

  lemma CloseLinks(x: Endpoint, x': Endpoint, y: Endpoint, xy: seq<Msg>, yx: seq<Msg>,
                   f: seq<Msg>, f': seq<Msg>, g: seq<Msg>, c: nat, q: nat)
    requires LinksOk(x, y, xy, f, g) && LinksOk(y, x, yx, g, f) && AllCalm(x, x', y)
    requires Speaks(x, c, q) && q < |y.chans| && (x'.chans[c].spoiled || y.chans[q].spoiled) && Grew(f, f', Close(q))
    ensures LinksOk(x', y, xy, f', g) && LinksOk(y, x', yx, g, f')
  {
    CalmOwn(x, x', y, xy, f, g);
    CalmSpeaks(x, x', y);
    forall d: nat | Speaks(x', d, q) ensures d == c {
      assert Count(g, Announces(q)) + CountPeer(x.chans, q) <= Announced(y, q);
      PeerUnique(x.chans, c, d, q);
    }
    GrewOwn(x', y, xy, f, f', g, Close(q), c);
    CalmOther(x, x', y, yx, f, g);
    GrewOther(x', y, yx, f, f', g, Close(q));
  }

  lemma StepClose(cfg: Config, n: Net, c: nat)
    requires Inv(cfg, n) && Enabled(cfg, n.l, CloseChannel(c))
    ensures Inv(cfg, n.(l := Next(cfg, n.l, CloseChannel(c))))
  {
    var q := n.l.chans[c].peer.value;
    var mid := SetChan(n.l, c, BeginClose(n.l.chans[c]));
    var l' := PutCtrl(mid, Close(q));
    ChanFacts(cfg, n, c);
    SetChanOk(cfg, n.l, c, BeginClose(n.l.chans[c]));
    PutCtrlOk(cfg, mid, Close(q));
    CtrlGrows(mid, n.lr, Close(q));
    assert Fly(mid, n.lr) == Fly(n.l, n.lr);
    GiveUpClosing(cfg, n.l, l', n.r, n.lr, n.rl, Fly(n.l, n.lr), Fly(l', n.lr), Fly(n.r, n.rl), c, q);
  }

  lemma PutCtrlOk(cfg: Config, e: Endpoint, m: Msg)
    requires EndpointOk(cfg, e) && (m.OpenReject? || m.Reply? || m.GlobalReply? || m.Close?)
    ensures EndpointOk(cfg, PutCtrl(e, m))
  {
    var e' := PutCtrl(e, m);
    forall i | 0 <= i < |e'.out| ensures WriteOk(e', e'.out[i]) {
      assert WriteOk(e, e.out[i]);
    }
  }

  // ----- a queued open is taken back

  lemma CancelOpenShape(e: Endpoint, i: nat, c: nat)
    requires Cancellable(e, i) && c == e.out[i].from.value && e.out[i].msg.Open?
    ensures var e' := AfterCancel(e, i);
            && e' == Remove(e.(out := e.out[i := e.out[i].(cancelled := true)]), c, Fail(e.chans[c]))
            && OnlyChan(e, e', c) && SameGlobals(e, e')
  {
  }

  lemma StepCancelOpen(cfg: Config, n: Net, i: nat)
    requires Inv(cfg, n) && Cancellable(n.l, i) && n.l.out[i].msg.Open?
    ensures Inv(cfg, n.(l := AfterCancel(n.l, i)))
  {
    var l, m, c, l' := n.l, n.l.out[i].msg, n.l.out[i].from.value, AfterCancel(n.l, i);
    var f, f', g := Fly(l, n.lr), Fly(l', n.lr), Fly(n.r, n.rl);
    assert WriteOk(l, l.out[i]);
    ChanFacts(cfg, n, c);
    CancelOpenShape(l, i, c);
    CancelLoses(l, l', n.lr, i);
    OpenUnderWay(l, n.r, n.lr, f, g, c, m);
    MarkOk(cfg, l, i);
    var marked := l.(out := l.out[i := l.out[i].(cancelled := true)]);
    NoTask(cfg, marked, c);
    RemoveOk(cfg, marked, c, Fail(l.chans[c]));
    LostOpenInv(cfg, l, l', n.r, n.lr, n.rl, f, f', g, c, m);
  }

  /** While x's open of c is under way, c is x's own and y knows nothing of it. */
  lemma OpenUnderWay(x: Endpoint, y: Endpoint, xy: seq<Msg>, f: seq<Msg>, g: seq<Msg>, c: nat, m: Msg)
    requires LinksOk(x, y, xy, f, g) && m in f && m.Open? && m.sender == c && c < |x.chans| && ChanOk(x.chans[c])
    ensures x.chans[c].opener && x.chans[c].peer.None? && !x.chans[c].live && CountPeer(y.chans, c) == 0
    ensures Count(f, Opens(c)) == 1 && Count(f, Announces(c)) == 1
  {
    CountZero(f, Opens(c));
    CountZero(f, Announces(c));
    assert Has(m, Opens(c)) && Has(m, Announces(c));
    assert Count(f, Announces(c)) + CountPeer(y.chans, c) <= Announced(x, c);
    assert TokenOk(x, c, Tokens(y, f, g, c));
  }

  lemma LostOpenInv(cfg: Config, x: Endpoint, x': Endpoint, y: Endpoint, xy: seq<Msg>, yx: seq<Msg>,
                    f: seq<Msg>, f': seq<Msg>, g: seq<Msg>, c: nat, m: Msg)
    requires InvAt(cfg, x, y, xy, yx, f, g) && EndpointOk(cfg, x') && SameGlobals(x, x')
    requires m.Open? && m.sender == c && Lost(f, f', m)
    requires OnlyChan(x, x', c) && x'.chans[c] == Fail(x.chans[c])
    requires x.chans[c].opener && x.chans[c].peer.None? && CountPeer(y.chans, c) == 0 && !x.chans[c].live
    requires Count(f, Opens(c)) == 1 && Count(f, Announces(c)) == 1
    ensures InvAt(cfg, x', y, xy, yx, f', g)
  {
    LostOpenOwn(x, x', y, xy, f, f', g, c, m);
    LostOpenOther(x, x', y, yx, f, f', g, c, m);
    LostOpenAlike(f, f', m);
    forall p: nat ensures !Mated(x', y, c, p) {
      if p < |y.chans| && y.chans[p].peer == Some(c) {
        PeerFound(y.chans, p, c);
      }
    }
    PairsQuiet(cfg, x, x', y, f, f', g, g, c);
    LostGlobals(x, x', y, f, f', g, m);
  }

  lemma LostOpenAlike(f: seq<Msg>, f': seq<Msg>, m: Msg)
    requires m.Open? && Lost(f, f', m)
    ensures Alike(f, f')
  {
    forall p: nat
      ensures Stream(f', p) == Stream(f, p) && Adjusts(f', p) == Adjusts(f, p)
      ensures Asks(f', Some(p)) == Asks(f, Some(p)) && Replies(f', Some(p)) == Replies(f, Some(p))
    {
      LoseAt(f, f', m, p);
      LostPast(f, f', m, p);
    }
  }

  lemma LostOpenOwn(x: Endpoint, x': Endpoint, y: Endpoint, xy: seq<Msg>, f: seq<Msg>, f': seq<Msg>, g: seq<Msg>, c: nat, m: Msg)
    requires LinksOk(x, y, xy, f, g) && m.Open? && m.sender == c && Lost(f, f', m)
    requires OnlyChan(x, x', c) && x'.chans[c] == Fail(x.chans[c])
    requires x.chans[c].opener && x.chans[c].peer.None? && !x.chans[c].live && Count(f, Opens(c)) == 1
    ensures LinksOk(x', y, xy, f', g)
  {
    assert forall d: nat, q: nat :: Speaks(x', d, q) <==> Speaks(x, d, q);
    forall d: nat ensures Count(f', Announces(d)) + CountPeer(y.chans, d) <= Announced(x', d) {
      assert Count(f, Announces(d)) == Count(f', Announces(d)) + CountOf(m, Announces(d));
      assert Announced(x', d) == Announced(x, d);
    }
    forall d: nat ensures TokenOk(x', d, Tokens(y, f', g, d)) {
      assert Count(f, Opens(d)) == Count(f', Opens(d)) + CountOf(m, Opens(d));
      assert TokenOk(x, d, Tokens(y, f, g, d));
    }
    forall q: nat | Count(f', For(q)) > 0 ensures exists d: nat :: Speaks(x', d, q) {
      assert Count(f, For(q)) == Count(f', For(q)) + CountOf(m, For(q));
      var d: nat :| Speaks(x, d, q);
      assert Speaks(x', d, q);
    }
    forall d | 0 <= d < |x'.chans| && x'.chans[d].peer.Some? ensures MateOk(x', y, d) {
      assert MateOk(x, y, d);
    }
    forall d: nat, q: nat | Speaks(x', d, q) && q < |y.chans| && Count(f', Closes(q)) > 0
      ensures x'.chans[d].spoiled || y.chans[q].spoiled
    {
      assert Count(f, Closes(q)) == Count(f', Closes(q)) + CountOf(m, Closes(q));
    }
  }

  lemma LostOpenOther(x: Endpoint, x': Endpoint, y: Endpoint, yx: seq<Msg>, f: seq<Msg>, f': seq<Msg>, g: seq<Msg>, c: nat, m: Msg)
    requires LinksOk(y, x, yx, g, f) && m.Open? && m.sender == c && Lost(f, f', m) && x'.dispatch == x.dispatch
    requires OnlyChan(x, x', c) && x'.chans[c] == Fail(x.chans[c]) && CountPeer(y.chans, c) == 0
    requires x.chans[c].opener && x.chans[c].peer.None?
    ensures LinksOk(y, x', yx, g, f')
  {
    forall q: nat ensures CountPeer(x'.chans, q) == CountPeer(x.chans, q) { PeerSame(x'.chans, x.chans, q); }
    forall d: nat ensures TokenOk(y, d, Tokens(x', g, f', d)) {
      assert Count(f, Answers(d)) == Count(f', Answers(d)) + CountOf(m, Answers(d));
      assert TokenOk(y, d, Tokens(x, g, f, d));
    }
    forall d | 0 <= d < |y.chans| && y.chans[d].peer.Some? ensures MateOk(y, x', d) {
      assert MateOk(y, x, d);
      if y.chans[d].peer == Some(c) {
        PeerFound(y.chans, d, c);
      }
    }
  }
}
