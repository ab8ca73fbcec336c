/** Handling opens and their answers keeps the invariant. */
module Greeting {
  import opened Types
  import opened SessionConfig
  import opened Envelope
  import opened Channel
  import opened Endpoint
  import opened Flight
  import opened Direction
  import opened PairEvents
  import opened Network
  import opened Links
  import opened Mates
  import opened Traffic
  import opened Control
  import opened Removal
  import opened Writer
  import opened Opening
  import opened Receiving
  import opened Parting

  // ----- an answer finds its open

  /** The answer to x's open of c stands at the head of the wire. */
  lemma AnswerDue(x: Endpoint, y: Endpoint, xy: seq<Msg>, f: seq<Msg>, g: seq<Msg>, g': seq<Msg>, c: nat, m: Msg)
    requires LinksOk(x, y, xy, f, g) && Popped(g, g', m) && Has(m, Answers(c))
    ensures c < |x.chans| && x.chans[c].opener && Tokens(y, f, g, c) == 1 && Tokens(y, f, g', c) == 0
    ensures x.chans[c].openWait || (x.chans[c].spoiled && x.chans[c].peer.None?)
  {
    assert Count(g, Answers(c)) == CountOf(m, Answers(c)) + Count(g', Answers(c));
    assert TokenOk(x, c, Tokens(y, f, g, c));
  }

  /** Tokens of x's opens once the answer for c is taken off and c awaits nothing. */
  lemma AnswerTaken(x: Endpoint, x': Endpoint, y: Endpoint, f: seq<Msg>, g: seq<Msg>, g': seq<Msg>, c: nat, m: Msg)
    requires TokensOk(x, y, f, g) && Popped(g, g', m) && Has(m, Answers(c)) && |x'.chans| == |x.chans| && c < |x.chans|
    requires forall d :: 0 <= d < |x.chans| && d != c ==> x'.chans[d] == x.chans[d]
    requires x'.chans[c].opener == x.chans[c].opener && !x'.chans[c].openWait
    ensures TokensOk(x', y, f, g')
  {
    forall d: nat ensures TokenOk(x', d, Tokens(y, f, g', d)) {
      assert Count(g, Answers(d)) == CountOf(m, Answers(d)) + Count(g', Answers(d));
      assert TokenOk(x, d, Tokens(y, f, g, d));
    }
  }

  // ----- a refusal arrives

  lemma RejectOwn(x: Endpoint, x': Endpoint, y: Endpoint, xy: seq<Msg>, f: seq<Msg>, g: seq<Msg>, g': seq<Msg>, c: nat, m: Msg)
    requires LinksOk(x, y, xy, f, g) && Popped(g, g', m) && m.OpenReject? && m.opener == c
    requires OnlyChan(x, x', c) && x.chans[c].openWait && ChanOk(x.chans[c]) && x'.chans[c] == Fail(x.chans[c])
    ensures LinksOk(x', y, xy, f, g')
  {
    AnswerTaken(x, x', y, f, g, g', c, m);
    assert forall d: nat, q: nat :: Speaks(x', d, q) <==> Speaks(x, d, q);
    forall d: nat ensures Announced(x', d) == Announced(x, d) { }
    forall q: nat | Count(f, For(q)) > 0 ensures exists d: nat :: Speaks(x', d, q) {
      var d: nat :| Speaks(x, d, q);
      assert Speaks(x', d, q);
    }
    forall d | 0 <= d < |x'.chans| && x'.chans[d].peer.Some? ensures MateOk(x', y, d) {
      assert MateOk(x, y, d);
    }
  }

  /** The other side when an answer is taken off: fewer messages. */
  lemma AnswerFewer(y: Endpoint, x: Endpoint, x': Endpoint, g: seq<Msg>, g': seq<Msg>, f: seq<Msg>, m: Msg)
    requires TokensOk(y, x, g, f) && RoutesOk(y, g) && Popped(g, g', m) && (m.OpenOk? || m.OpenReject?)
    requires x'.dispatch == x.dispatch
    ensures TokensOk(y, x', g', f) && RoutesOk(y, g')
  {
    forall d: nat ensures TokenOk(y, d, Tokens(x', g', f, d)) {
      assert Count(g, Opens(d)) == CountOf(m, Opens(d)) + Count(g', Opens(d));
      assert TokenOk(y, d, Tokens(x, g, f, d));
    }
    forall q: nat | Count(g', For(q)) > 0 ensures exists d: nat :: Speaks(y, d, q) {
      assert Count(g, For(q)) == CountOf(m, For(q)) + Count(g', For(q));
    }
  }

  /** Greetings and closes once the answer for c is taken off and c awaits nothing. */
  lemma AnswerWire(y: Endpoint, x: Endpoint, x': Endpoint, yx: seq<Msg>, g: seq<Msg>, g': seq<Msg>, c: nat, m: Msg)
    requires GreetingsOk(y, x, yx) && ClosesOk(y, x, g) && yx != [] && m == yx[0] && Popped(g, g', m)
    requires (m.OpenOk? || m.OpenReject?) && m.opener == c && |x'.chans| == |x.chans| && c < |x.chans|
    requires forall d :: 0 <= d < |x.chans| && d != c ==> x'.chans[d] == x.chans[d]
    requires !x'.chans[c].openWait && x'.chans[c].spoiled == x.chans[c].spoiled
    ensures GreetingsOk(y, x', yx[1..]) && ClosesOk(y, x', g')
  {
    forall p: nat, q: nat | Speaks(y, p, q) && !y.chans[p].opener && q < |x'.chans| && x'.chans[q].openWait
      ensures OpenFirst(yx[1..], q) && Count(yx[1..], Answers(q)) > 0
    {
      assert !Has(m, Answers(q));
    }
    forall p: nat, q: nat | Speaks(y, p, q) && q < |x'.chans| && Count(g', Closes(q)) > 0
      ensures y.chans[p].spoiled || x'.chans[q].spoiled
    {
      assert Count(g, Closes(q)) == CountOf(m, Closes(q)) + Count(g', Closes(q));
    }
  }

  lemma RejectOther(x: Endpoint, x': Endpoint, y: Endpoint, yx: seq<Msg>, f: seq<Msg>, g: seq<Msg>, g': seq<Msg>, c: nat, m: Msg)
    requires LinksOk(y, x, yx, g, f) && yx != [] && m == yx[0] && Popped(g, g', m) && m.OpenReject? && m.opener == c
    requires OnlyChan(x, x', c) && x.chans[c].openWait && ChanOk(x.chans[c]) && x'.chans[c] == Fail(x.chans[c])
    requires x'.dispatch == x.dispatch
    ensures LinksOk(y, x', yx[1..], g', f)
  {
    AnswerFewer(y, x, x', g, g', f, m);
    AnswerWire(y, x, x', yx, g, g', c, m);
    forall q: nat ensures Count(g', Announces(q)) + CountPeer(x'.chans, q) <= Announced(y, q) {
      PeerSame(x'.chans, x.chans, q);
      assert Count(g, Announces(q)) == CountOf(m, Announces(q)) + Count(g', Announces(q));
    }
    forall d | 0 <= d < |y.chans| && y.chans[d].peer.Some? ensures MateOk(y, x', d) {
      assert MateOk(y, x, d);
    }
  }

  lemma RejectPairs(cfg: Config, x: Endpoint, x': Endpoint, y: Endpoint, f: seq<Msg>, g: seq<Msg>, g': seq<Msg>, c: nat, m: Msg)
    requires PairsOk(cfg, x, y, f, g) && RefusalsOk(y, g) && Popped(g, g', m) && m.OpenReject? && m.opener == c
    requires OnlyChan(x, x', c) && x.chans[c].opener
    ensures PairsOk(cfg, x', y, f, g')
  {
    MutePopAlike(g, g', m);
    SameAlike(f, f);
    forall p: nat ensures !Mated(x', y, c, p) {
      if p < |y.chans| && !y.chans[p].opener && y.chans[p].peer == Some(c) {
        assert y.chans[p].slot == NoSlot;
      }
    }
    PairsQuiet(cfg, x, x', y, f, f, g, g', c);
  }

  lemma RejectInv(cfg: Config, x: Endpoint, x': Endpoint, y: Endpoint, xy: seq<Msg>, yx: seq<Msg>,
                  f: seq<Msg>, g: seq<Msg>, g': seq<Msg>, c: nat, m: Msg)
    requires InvAt(cfg, x, y, xy, yx, f, g) && EndpointOk(cfg, x') && SameGlobals(x, x')
    requires yx != [] && m == yx[0] && Popped(g, g', m) && m.OpenReject? && m.opener == c
    requires OnlyChan(x, x', c) && x.chans[c].openWait && ChanOk(x.chans[c]) && x'.chans[c] == Fail(x.chans[c])
    ensures InvAt(cfg, x', y, xy, yx[1..], f, g')
  {
    RejectOwn(x, x', y, xy, f, g, g', c, m);
    RejectOther(x, x', y, yx, f, g, g', c, m);
    RejectPairs(cfg, x, x', y, f, g, g', c, m);
    PopGlobals(x, x', y, f, g, g', m);
  }

  lemma StepOpenReject(cfg: Config, n: Net)
    requires Inv(cfg, n) && n.rl != [] && n.rl[0].OpenReject? && RecvOpenReject(cfg, n.l, n.rl[0]).Ok?
    ensures Inv(cfg, n.(l := RecvOpenReject(cfg, n.l, n.rl[0]).next, rl := n.rl[1..]))
  {
    var m, c := n.rl[0], n.rl[0].opener;
    var l' := Remove(n.l, c, Fail(n.l.chans[c]));
    ChanFacts(cfg, n, c);
    NoTask(cfg, n.l, c);
    RemoveOk(cfg, n.l, c, Fail(n.l.chans[c]));
    WirePops(n.r, n.rl);
    RejectInv(cfg, n.l, l', n.r, n.lr, n.rl, Fly(n.l, n.lr), Fly(n.r, n.rl), Fly(n.r, n.rl[1..]), c, m);
  }

  // ----- a grant arrives

  /** Where x stands when the grant of y's channel p for x's open of c arrives. */
  ghost predicate AtGrant(cfg: Config, x: Endpoint, y: Endpoint, m: Msg) {
    && m.OpenOk? && StaticOk(cfg, m) && m.opener < |x.chans| && x.chans[m.opener] == NewOutgoing()
    && m.sender < |y.chans| && !y.chans[m.sender].opener && y.chans[m.sender].peer == Some(m.opener) && y.chans[m.sender].live
    && CountPeer(x.chans, m.sender) == 0
  }

  ghost predicate Established(cfg: Config, x: Endpoint, x': Endpoint, m: Msg) {
    && m.OpenOk? && m.opener < |x.chans| && |x'.chans| == |x.chans|
    && (forall d :: 0 <= d < |x.chans| && d != m.opener ==> x'.chans[d] == x.chans[d])
    && x'.chans[m.opener] == Establish(cfg, x.chans[m.opener], m)
  }

  lemma GrantFacts(cfg: Config, x: Endpoint, y: Endpoint, yx: seq<Msg>, f: seq<Msg>, g: seq<Msg>, g': seq<Msg>, m: Msg)
    requires LinksOk(y, x, yx, g, f) && AllStatic(cfg, g) && yx != [] && m == yx[0] && m.OpenOk? && Popped(g, g', m)
    requires m.opener < |x.chans| && x.chans[m.opener].openWait && ChanOk(x.chans[m.opener])
    ensures AtGrant(cfg, x, y, m)
  {
    assert m in yx && m in g;
    assert GrantOk(y, m);
    assert Count(g, Announces(m.sender)) == CountOf(m, Announces(m.sender)) + Count(g', Announces(m.sender));
    assert Count(g, Announces(m.sender)) + CountPeer(x.chans, m.sender) <= Announced(y, m.sender);
  }

  lemma EstablishOwn(cfg: Config, x: Endpoint, x': Endpoint, y: Endpoint, xy: seq<Msg>, f: seq<Msg>, g: seq<Msg>, g': seq<Msg>, m: Msg)
    requires LinksOk(x, y, xy, f, g) && Popped(g, g', m) && AtGrant(cfg, x, y, m) && Established(cfg, x, x', m)
    ensures LinksOk(x', y, xy, f, g')
  {
    var c, p := m.opener, m.sender;
    AnswerTaken(x, x', y, f, g, g', c, m);
    assert forall d: nat, q: nat :: Speaks(x', d, q) <==> Speaks(x, d, q) || (d == c && q == p);
    forall d: nat ensures Announced(x', d) == Announced(x, d) { }
    forall q: nat | Count(f, For(q)) > 0 ensures exists d: nat :: Speaks(x', d, q) {
      var d: nat :| Speaks(x, d, q);
      assert Speaks(x', d, q);
    }
    forall d | 0 <= d < |x'.chans| && x'.chans[d].peer.Some? ensures MateOk(x', y, d) {
      if d != c {
        assert MateOk(x, y, d);
      }
    }
    EstablishCloses(x, x', y, f, c, p);
  }

  lemma EstablishCloses(x: Endpoint, x': Endpoint, y: Endpoint, f: seq<Msg>, c: nat, p: nat)
    requires RoutesOk(x, f) && ClosesOk(x, y, f) && CountPeer(x.chans, p) == 0 && |x'.chans| == |x.chans|
    requires forall d :: 0 <= d < |x.chans| && d != c ==> x'.chans[d] == x.chans[d]
    requires forall d: nat, q: nat :: Speaks(x', d, q) <==> Speaks(x, d, q) || (d == c && q == p)
    requires c < |x.chans| && x'.chans[c].peer == Some(p)
    ensures ClosesOk(x', y, f)
  {
    NobodySpeaks(x, f, p);
    forall d: nat, q: nat | Speaks(x', d, q) && q < |y.chans| && Count(f, Closes(q)) > 0
      ensures x'.chans[d].spoiled || y.chans[q].spoiled
    {
      assert q != p && d != c;
      assert Speaks(x, d, q);
    }
  }

  /** No channel of x has p as its peer: nothing is under way to p. */
  lemma NobodySpeaks(x: Endpoint, f: seq<Msg>, p: nat)
    requires RoutesOk(x, f) && CountPeer(x.chans, p) == 0
    ensures Count(f, For(p)) == 0 && Count(f, Closes(p)) == 0
  {
    CloseIsFor(f, p);
    if Count(f, For(p)) > 0 {
      var d: nat :| Speaks(x, d, p);
      PeerFound(x.chans, d, p);
    }
  }

  lemma EstablishOther(cfg: Config, x: Endpoint, x': Endpoint, y: Endpoint, yx: seq<Msg>, f: seq<Msg>, g: seq<Msg>, g': seq<Msg>, m: Msg)
    requires LinksOk(y, x, yx, g, f) && AnnounceOk(x, y, f) && yx != [] && m == yx[0] && Popped(g, g', m)
    requires AtGrant(cfg, x, y, m) && Established(cfg, x, x', m) && x'.dispatch == x.dispatch
    ensures LinksOk(y, x', yx[1..], g', f)
  {
    var c := m.opener;
    AnswerFewer(y, x, x', g, g', f, m);
    AnswerWire(y, x, x', yx, g, g', c, m);
    EstablishAnnounced(cfg, x, x', y, g, g', m);
    assert Count(f, Announces(c)) + CountPeer(y.chans, c) <= Announced(x, c);
    forall d | 0 <= d < |y.chans| && y.chans[d].peer.Some? ensures MateOk(y, x', d) {
      assert MateOk(y, x, d);
      if y.chans[d].peer == Some(c) {
        PeerUnique(y.chans, d, m.sender, c);
      }
    }
  }

  lemma EstablishAnnounced(cfg: Config, x: Endpoint, x': Endpoint, y: Endpoint, g: seq<Msg>, g': seq<Msg>, m: Msg)
    requires AnnounceOk(y, x, g) && Popped(g, g', m) && AtGrant(cfg, x, y, m) && Established(cfg, x, x', m)
    ensures AnnounceOk(y, x', g')
  {
    assert x'.chans == x.chans[m.opener := x'.chans[m.opener]];
    forall q: nat ensures Count(g', Announces(q)) + CountPeer(x'.chans, q) <= Announced(y, q) {
      PeerUpdate(x.chans, m.opener, x'.chans[m.opener], q);
      assert Count(g, Announces(q)) == CountOf(m, Announces(q)) + Count(g', Announces(q));
    }
  }

  lemma EstablishDirs(cfg: Config, v: View, w: View, m: Msg)
    requires DirOk(cfg, v) && DirOk(cfg, w) && w.t == v.s && v.s == NewOutgoing() && m.OpenOk? && StaticOk(cfg, m)
    ensures DirOk(cfg, v.(s := Establish(cfg, v.s, m))) && DirOk(cfg, w.(t := Establish(cfg, v.s, m)))
  {
    EstablishedSame(cfg, v.s, m);
    FlowBySender(cfg, v, Establish(cfg, v.s, m));
    RequestsIdle(v, v.(s := Establish(cfg, v.s, m)));
    FlowByReceiver(cfg, w, Establish(cfg, v.s, m));
    RequestsIdle(w, w.(t := Establish(cfg, v.s, m)));
  }

  lemma EstablishedSame(cfg: Config, ch: Chan, m: Msg)
    requires ch == NewOutgoing() && m.OpenOk? && StaticOk(cfg, m)
    ensures var ch' := Establish(cfg, ch, m);
            && SenderOk(cfg, ch') && SameTxRequests(ch, ch') && SameRxRequests(ch, ch') && Window(cfg, ch') == Window(cfg, ch)
            && ch'.reserved == ch.reserved && ch'.sent == ch.sent && ch'.cancels == ch.cancels && !ch'.state.SentEof()
            && (0 < cfg.windowAdjustThreshold ==> WindowOk(cfg, ch')) && ch'.pendingWindow == ch.pendingWindow && ch'.frames == ch.frames
            && ch'.arrived == ch.arrived && !ch'.state.GotEof()
  {
  }

  lemma EstablishPairs(cfg: Config, x: Endpoint, x': Endpoint, y: Endpoint, f: seq<Msg>, g: seq<Msg>, g': seq<Msg>, m: Msg)
    requires PairsOk(cfg, x, y, f, g) && MatesOk(y, x) && AnnounceOk(x, y, f) && Popped(g, g', m)
    requires AtGrant(cfg, x, y, m) && Established(cfg, x, x', m)
    ensures PairsOk(cfg, x', y, f, g')
  {
    var c := m.opener;
    MutePopAlike(g, g', m);
    SameAlike(f, f);
    forall d: nat, p: nat | Mated(x', y, d, p) ensures PairOk(cfg, x', y, f, g', d, p) {
      assert Mated(x, y, d, p);
      if d != c {
        PairAlike(cfg, x, x', y, f, f, g, g', d, p);
      } else {
        EstablishPair(cfg, x, x', y, f, g, g', p, m);
      }
    }
  }

  lemma EstablishPair(cfg: Config, x: Endpoint, x': Endpoint, y: Endpoint, f: seq<Msg>, g: seq<Msg>, g': seq<Msg>, p: nat, m: Msg)
    requires PairsOk(cfg, x, y, f, g) && Alike(g, g') && AtGrant(cfg, x, y, m) && Established(cfg, x, x', m)
    requires Mated(x, y, m.opener, p)
    ensures PairOk(cfg, x', y, f, g', m.opener, p)
  {
    var c, ch := m.opener, x'.chans[m.opener];
    var v, w := Views(cfg, x, y, f, g, c, p);
    EstablishDirs(cfg, v, w, m);
    PairBy(cfg, x', y, f, g', c, p, v.(s := ch), w.(t := ch));
  }

  lemma EstablishPeers(e: Endpoint, e': Endpoint, c: nat, s: nat)
    requires PeersOk(e) && c < |e.chans| && e.chans[c].slot != NoSlot && e.chans[c].peer.None? && s !in e.peers
    requires |e'.chans| == |e.chans| && e'.peers == e.peers[s := c] && e'.chans[c].peer == Some(s) && e'.chans[c].slot != NoSlot
    requires forall d :: 0 <= d < |e.chans| && d != c ==> e'.chans[d] == e.chans[d]
    ensures PeersOk(e')
  {
    forall d: nat | InTable(e', d) && e'.chans[d].peer.Some?
      ensures e'.chans[d].peer.value in e'.peers && e'.peers[e'.chans[d].peer.value] == d
    {
      assert InTable(e, d);
    }
  }

  lemma EstablishEndpoint(cfg: Config, e: Endpoint, m: Msg)
    requires EndpointOk(cfg, e) && m.OpenOk? && StaticOk(cfg, m) && m.opener < |e.chans| && e.chans[m.opener] == NewOutgoing()
    requires m.sender !in e.peers
    ensures EndpointOk(cfg, SetChan(e.(peers := e.peers[m.sender := m.opener]), m.opener, Establish(cfg, e.chans[m.opener], m)))
  {
    var e' := SetChan(e.(peers := e.peers[m.sender := m.opener]), m.opener, Establish(cfg, e.chans[m.opener], m));
    EstablishPeers(e, e', m.opener, m.sender);
    forall i | 0 <= i < |e'.out| ensures WriteOk(e', e'.out[i]) {
      assert WriteOk(e, e.out[i]);
    }
    forall z | z in e'.dispatch && z.Open? ensures TaskOk(e', z.sender) {
      assert TaskOk(e, z.sender);
    }
  }

  lemma EstablishInv(cfg: Config, x: Endpoint, x': Endpoint, y: Endpoint, xy: seq<Msg>, yx: seq<Msg>,
                     f: seq<Msg>, g: seq<Msg>, g': seq<Msg>, m: Msg)
    requires InvAt(cfg, x, y, xy, yx, f, g) && EndpointOk(cfg, x') && SameGlobals(x, x')
    requires yx != [] && m == yx[0] && Popped(g, g', m) && AtGrant(cfg, x, y, m) && Established(cfg, x, x', m)
    ensures InvAt(cfg, x', y, xy, yx[1..], f, g')
  {
    EstablishOwn(cfg, x, x', y, xy, f, g, g', m);
    EstablishOther(cfg, x, x', y, yx, f, g, g', m);
    EstablishPairs(cfg, x, x', y, f, g, g', m);
    PopGlobals(x, x', y, f, g, g', m);
  }

  lemma StepOpenOk(cfg: Config, n: Net)
    requires Inv(cfg, n) && n.rl != [] && n.rl[0].OpenOk? && RecvOpenOk(cfg, n.l, n.rl[0]).Ok?
    ensures Inv(cfg, n.(l := RecvOpenOk(cfg, n.l, n.rl[0]).next, rl := n.rl[1..]))
  {
    var m, c := n.rl[0], n.rl[0].opener;
    var l' := RecvOpenOk(cfg, n.l, m).next;
    ChanFacts(cfg, n, c);
    WirePops(n.r, n.rl);
    GrantFacts(cfg, n.l, n.r, n.rl, Fly(n.l, n.lr), Fly(n.r, n.rl), Fly(n.r, n.rl[1..]), m);
    EstablishEndpoint(cfg, n.l, m);
    EstablishInv(cfg, n.l, l', n.r, n.lr, n.rl, Fly(n.l, n.lr), Fly(n.r, n.rl), Fly(n.r, n.rl[1..]), m);
  }
}
