/** Opening a channel, and the dispatcher's decision on an incoming open, keep the invariant. */
module Opening {
  import opened Types
  import opened SessionConfig
  import opened Envelope
  import opened Channel
  import opened Endpoint
  import opened Flight
  import opened Direction
  import opened PairEvents
  import opened Network
  import opened Links
  import opened Mates
  import opened Traffic
  import opened Control
  import opened Removal
  import opened Writer

  // ----- OpenChannel

  /** No channel of y has x's channel c as its peer when c does not exist yet. */
  lemma Unknown(x: Endpoint, y: Endpoint, c: nat)
    requires MatesOk(y, x) && c >= |x.chans|
    ensures forall p :: 0 <= p < |y.chans| ==> y.chans[p].peer != Some(c)
  {
    forall p | 0 <= p < |y.chans| ensures y.chans[p].peer != Some(c) {
      if y.chans[p].peer.Some? {
        assert MateOk(y, x, p);
      }
    }
  }

  lemma AppendPeers(chans: seq<Chan>, ch: Chan, q: nat)
    ensures CountPeer(chans + [ch], q) == CountPeer(chans, q) + (if ch.peer == Some(q) then 1 else 0)
  {
    PeerConcat(chans, [ch], q);
    assert [ch][1..] == [];
  }

  lemma OpenOwn(x: Endpoint, x': Endpoint, y: Endpoint, xy: seq<Msg>, f: seq<Msg>, f': seq<Msg>, g: seq<Msg>, m: Msg)
    requires LinksOk(x, y, xy, f, g) && x'.chans == x.chans + [NewOutgoing()]
    requires m.Open? && m.sender == |x.chans| && Grew(f, f', m)
    ensures LinksOk(x', y, xy, f', g)
  {
    assert forall d: nat, q: nat :: Speaks(x', d, q) <==> Speaks(x, d, q);
    forall d: nat ensures Count(f', Announces(d)) + CountPeer(y.chans, d) <= Announced(x', d) {
      assert Count(f', Announces(d)) == Count(f, Announces(d)) + CountOf(m, Announces(d));
      assert Count(f, Announces(d)) + CountPeer(y.chans, d) <= Announced(x, d);
    }
    forall d: nat ensures TokenOk(x', d, Tokens(y, f', g, d)) {
      assert Count(f', Opens(d)) == Count(f, Opens(d)) + CountOf(m, Opens(d));
      assert TokenOk(x, d, Tokens(y, f, g, d));
    }
    forall q: nat | Count(f', For(q)) > 0 ensures exists d: nat :: Speaks(x', d, q) {
      assert Count(f', For(q)) == Count(f, For(q)) + CountOf(m, For(q));
      var d: nat :| Speaks(x, d, q);
      assert Speaks(x', d, q);
    }
    forall d | 0 <= d < |x'.chans| && x'.chans[d].peer.Some? ensures MateOk(x', y, d) {
      assert MateOk(x, y, d);
    }
    forall d: nat, q: nat | Speaks(x', d, q) && q < |y.chans| && Count(f', Closes(q)) > 0
      ensures x'.chans[d].spoiled || y.chans[q].spoiled
    {
      assert Count(f', Closes(q)) == Count(f, Closes(q)) + CountOf(m, Closes(q));
    }
  }

  /** The other endpoint's side when x gains a channel that y does not know and no answer is under way. */
  lemma GainOther(x: Endpoint, x': Endpoint, y: Endpoint, yx: seq<Msg>, f: seq<Msg>, f': seq<Msg>, g: seq<Msg>, ch: Chan, m: Msg)
    requires LinksOk(y, x, yx, g, f) && x'.chans == x.chans + [ch] && ch.peer.None? && x'.dispatch == x.dispatch
    requires Grew(f, f', m) && forall d :: !Has(m, Answers(d))
    ensures LinksOk(y, x', yx, g, f')
  {
    Unknown(x, y, |x.chans|);
    forall q: nat ensures CountPeer(x'.chans, q) == CountPeer(x.chans, q) { AppendPeers(x.chans, ch, q); }
    forall d: nat ensures TokenOk(y, d, Tokens(x', g, f', d)) {
      assert Count(f', Answers(d)) == Count(f, Answers(d)) + CountOf(m, Answers(d));
      assert TokenOk(y, d, Tokens(x, g, f, d));
    }
    forall d | 0 <= d < |y.chans| && y.chans[d].peer.Some? ensures MateOk(y, x', d) {
      assert MateOk(y, x, d);
    }
  }

  lemma OpenPairs(cfg: Config, x: Endpoint, x': Endpoint, y: Endpoint, f: seq<Msg>, f': seq<Msg>, g: seq<Msg>)
    requires PairsOk(cfg, x, y, f, g) && x'.chans == x.chans + [NewOutgoing()] && MatesOk(y, x) && Alike(f, f')
    ensures PairsOk(cfg, x', y, f', g)
  {
    Unknown(x, y, |x.chans|);
    SameAlike(g, g);
    forall d: nat, p: nat | Mated(x', y, d, p) ensures PairOk(cfg, x', y, f', g, d, p) {
      assert d < |x.chans|;
      assert Mated(x, y, d, p);
      PairAlike(cfg, x, x', y, f, f', g, g, d, p);
    }
  }

  lemma OpenAlike(f: seq<Msg>, f': seq<Msg>, m: Msg)
    requires !Addressed(m) && Grew(f, f', m)
    ensures Alike(f, f')
  {
    forall p: nat
      ensures Stream(f', p) == Stream(f, p) && Adjusts(f', p) == Adjusts(f, p)
      ensures Asks(f', Some(p)) == Asks(f, Some(p)) && Replies(f', Some(p)) == Replies(f, Some(p))
    {
      GrewPast(f, f', m, p);
    }
  }

  /** An endpoint stays consistent when it gains a channel outside its tables, or an outgoing one. */
  lemma GainEndpoint(cfg: Config, e: Endpoint, ch: Chan)
    requires EndpointOk(cfg, e) && ChanOk(ch) && SendOk(cfg, ch) && (ch.slot == NoSlot || ch.peer.None?)
    ensures EndpointOk(cfg, e.(chans := e.chans + [ch]))
  {
    var e' := e.(chans := e.chans + [ch]);
    forall i | 0 <= i < |e'.out| ensures WriteOk(e', e'.out[i]) {
      assert WriteOk(e, e.out[i]);
    }
    assert PeersOk(e') by {
      forall d: nat | InTable(e', d) && e'.chans[d].peer.Some?
        ensures e'.chans[d].peer.value in e'.peers && e'.peers[e'.chans[d].peer.value] == d
      {
        assert InTable(e, d);
      }
    }
    forall m | m in e'.dispatch && m.Open? ensures TaskOk(e', m.sender) {
      assert TaskOk(e, m.sender);
    }
  }

  lemma OpenInv(cfg: Config, x: Endpoint, x': Endpoint, y: Endpoint, xy: seq<Msg>, yx: seq<Msg>,
                f: seq<Msg>, f': seq<Msg>, g: seq<Msg>, m: Msg)
    requires InvAt(cfg, x, y, xy, yx, f, g) && EndpointOk(cfg, x') && SameGlobals(x, x')
    requires x'.chans == x.chans + [NewOutgoing()] && m.Open? && m.sender == |x.chans| && StaticOk(cfg, m) && Grew(f, f', m)
    ensures InvAt(cfg, x', y, xy, yx, f', g)
  {
    OpenOwn(x, x', y, xy, f, f', g, m);
    GainOther(x, x', y, yx, f, f', g, NewOutgoing(), m);
    OpenAlike(f, f', m);
    OpenPairs(cfg, x, x', y, f, f', g);
    assert Asks(f', None) == Asks(f, None) + AskOf(m, None) && Replies(f', None) == Replies(f, None) + ReplyOf(m, None);
    GlobalsIdle(x, x', y, f, f', g);
  }

  lemma StepOpen(cfg: Config, n: Net, typ: string, payload: Bytes)
    requires Inv(cfg, n) && Enabled(cfg, n.l, OpenChannel(typ, payload))
    ensures Inv(cfg, n.(l := Next(cfg, n.l, OpenChannel(typ, payload))))
  {
    var l, l' := n.l, Next(cfg, n.l, OpenChannel(typ, payload));
    var m := Open(|l.chans|, cfg.initialWindow, cfg.maxPacketSize, typ, payload);
    var mid := l.(chans := l.chans + [NewOutgoing()]);
    GainEndpoint(cfg, l, NewOutgoing());
    PutOutOk(cfg, mid, m, Some(|l.chans|));
    OutGrows(mid, n.lr, m, Some(|l.chans|));
    assert Fly(mid, n.lr) == Fly(l, n.lr);
    OpenInv(cfg, l, l', n.r, n.lr, n.rl, Fly(l, n.lr), Fly(l', n.lr), Fly(n.r, n.rl), m);
  }

  // ----- an open refused by a limit spends its id

  lemma SpendOwn(x: Endpoint, x': Endpoint, y: Endpoint, xy: seq<Msg>, f: seq<Msg>, g: seq<Msg>)
    requires LinksOk(x, y, xy, f, g) && x'.chans == x.chans + [Fail(NewOutgoing())]
    ensures LinksOk(x', y, xy, f, g)
  {
    assert forall d: nat, q: nat :: Speaks(x', d, q) <==> Speaks(x, d, q);
    forall d: nat ensures Count(f, Announces(d)) + CountPeer(y.chans, d) <= Announced(x', d) {
      assert Count(f, Announces(d)) + CountPeer(y.chans, d) <= Announced(x, d);
    }
    forall d: nat ensures TokenOk(x', d, Tokens(y, f, g, d)) {
      assert TokenOk(x, d, Tokens(y, f, g, d));
    }
    forall q: nat | Count(f, For(q)) > 0 ensures exists d: nat :: Speaks(x', d, q) {
      var d: nat :| Speaks(x, d, q);
      assert Speaks(x', d, q);
    }
    forall d | 0 <= d < |x'.chans| && x'.chans[d].peer.Some? ensures MateOk(x', y, d) {
      assert MateOk(x, y, d);
    }
  }

  lemma SpendOther(x: Endpoint, x': Endpoint, y: Endpoint, yx: seq<Msg>, f: seq<Msg>, g: seq<Msg>)
    requires LinksOk(y, x, yx, g, f) && x'.chans == x.chans + [Fail(NewOutgoing())] && x'.dispatch == x.dispatch
    ensures LinksOk(y, x', yx, g, f)
  {
    Unknown(x, y, |x.chans|);
    forall q: nat ensures CountPeer(x'.chans, q) == CountPeer(x.chans, q) { AppendPeers(x.chans, Fail(NewOutgoing()), q); }
    forall d: nat ensures TokenOk(y, d, Tokens(x', g, f, d)) {
      assert TokenOk(y, d, Tokens(x, g, f, d));
    }
    forall d | 0 <= d < |y.chans| && y.chans[d].peer.Some? ensures MateOk(y, x', d) {
      assert MateOk(y, x, d);
    }
  }

  lemma SpendPairs(cfg: Config, x: Endpoint, x': Endpoint, y: Endpoint, f: seq<Msg>, g: seq<Msg>)
    requires PairsOk(cfg, x, y, f, g) && x'.chans == x.chans + [Fail(NewOutgoing())] && MatesOk(y, x)
    ensures PairsOk(cfg, x', y, f, g)
  {
    Unknown(x, y, |x.chans|);
    SameAlike(f, f);
    SameAlike(g, g);
    forall d: nat, p: nat | Mated(x', y, d, p) ensures PairOk(cfg, x', y, f, g, d, p) {
      assert d < |x.chans|;
      assert Mated(x, y, d, p);
      PairAlike(cfg, x, x', y, f, f, g, g, d, p);
    }
  }

  lemma StepSpendChannel(cfg: Config, n: Net)
    requires Inv(cfg, n) && Enabled(cfg, n.l, SpendChannelId)
    ensures Inv(cfg, n.(l := Next(cfg, n.l, SpendChannelId)))
  {
    var l, l' := n.l, Next(cfg, n.l, SpendChannelId);
    var f, g := Fly(l, n.lr), Fly(n.r, n.rl);
    GainEndpoint(cfg, l, Fail(NewOutgoing()));
    assert Fly(l', n.lr) == f;
    SpendOwn(l, l', n.r, n.lr, f, g);
    SpendOther(l, l', n.r, n.rl, f, g);
    SpendPairs(cfg, l, l', n.r, f, g);
    GlobalsIdle(l, l', n.r, f, f, g);
  }

  // ----- the dispatcher answers an open

  /** Answer m replaces the open of y's channel s at the head of x's dispatch queue. */
  lemma AnswerTokens(x: Endpoint, x': Endpoint, y: Endpoint, f: seq<Msg>, f': seq<Msg>, g: seq<Msg>, s: nat, m: Msg)
    requires TokensOk(y, x, g, f) && x.dispatch != [] && x.dispatch[0].Open? && x.dispatch[0].sender == s
    requires x'.dispatch == x.dispatch[1..] && Grew(f, f', m) && (m.OpenOk? || m.OpenReject?) && m.opener == s
    ensures TokensOk(y, x', g, f')
    ensures s < |y.chans| && y.chans[s].opener && Count(x'.dispatch, Opens(s)) == 0
  {
    forall d: nat ensures TokenOk(y, d, Tokens(x', g, f', d)) {
      assert Count(f', Answers(d)) == Count(f, Answers(d)) + CountOf(m, Answers(d));
      assert TokenOk(y, d, Tokens(x, g, f, d));
    }
    assert TokenOk(y, s, Tokens(x, g, f, s));
  }

  /** Where the dispatcher stands: channel c of x is the incoming open of y's channel s. */
  ghost predicate AtTask(x: Endpoint, c: nat, s: nat) {
    && x.dispatch != [] && x.dispatch[0].Open? && x.dispatch[0].sender == s
    && c < |x.chans| && !x.chans[c].opener && x.chans[c].peer == Some(s)
    && x.chans[c].slot == Pending && x.chans[c].state.Opening? && !x.chans[c].live
    && !x.chans[c].openWait
  }

  /** The dispatcher took its task and changed no global request. */
  ghost predicate Answering(x: Endpoint, x': Endpoint) {
    && x.dispatch != [] && x'.dispatch == x.dispatch[1..]
    && x'.pendingGlobal == x.pendingGlobal && x'.forsaken == x.forsaken && x'.nextGlobal == x.nextGlobal && x'.incomingGlobal == x.incomingGlobal
  }

  lemma TaskFacts(cfg: Config, e: Endpoint)
    requires EndpointOk(cfg, e) && e.dispatch != [] && e.dispatch[0].Open?
    ensures e.dispatch[0].sender in e.peers && AtTask(e, e.peers[e.dispatch[0].sender], e.dispatch[0].sender)
    ensures StaticOk(cfg, e.dispatch[0])
  {
    assert e.dispatch[0] in e.dispatch;
    assert TaskOk(e, e.dispatch[0].sender);
    var c := e.peers[e.dispatch[0].sender];
    assert ChanOk(e.chans[c]);
  }

  lemma AnswerOther(x: Endpoint, x': Endpoint, y: Endpoint, yx: seq<Msg>, f: seq<Msg>, f': seq<Msg>, g: seq<Msg>, c: nat, s: nat, m: Msg)
    requires LinksOk(y, x, yx, g, f) && AtTask(x, c, s)
    requires OnlyChan(x, x', c) && x'.chans[c].openWait == x.chans[c].openWait && x'.chans[c].spoiled == x.chans[c].spoiled
    requires x'.dispatch == x.dispatch[1..] && Grew(f, f', m) && (m.OpenOk? || m.OpenReject?) && m.opener == s
    ensures LinksOk(y, x', yx, g, f')
  {
    AnswerTokens(x, x', y, f, f', g, s, m);
    forall q: nat ensures CountPeer(x'.chans, q) == CountPeer(x.chans, q) { PeerSame(x'.chans, x.chans, q); }
    forall d | 0 <= d < |y.chans| && y.chans[d].peer.Some? ensures MateOk(y, x', d) {
      assert MateOk(y, x, d);
    }
  }

  lemma AnswerOwn(x: Endpoint, x': Endpoint, y: Endpoint, xy: seq<Msg>, f: seq<Msg>, f': seq<Msg>, g: seq<Msg>, c: nat, s: nat, m: Msg)
    requires LinksOk(x, y, xy, f, g) && AnnounceOk(y, x, g) && AtTask(x, c, s)
    requires OnlyChan(x, x', c) && !x'.chans[c].state.Opening? && !x'.chans[c].live && x'.chans[c].openWait == x.chans[c].openWait
    requires Grew(f, f', m) && (m.OpenOk? || m.OpenReject?) && m.opener == s
    requires (m.OpenOk? && m.sender == c && x'.chans[c].slot == Active) || (m.OpenReject? && x'.chans[c].slot == NoSlot)
    ensures LinksOk(x', y, xy, f', g)
  {
    assert Count(f, Announces(c)) + CountPeer(y.chans, c) <= Announced(x, c);
    assert forall d: nat, q: nat :: Speaks(x', d, q) <==> Speaks(x, d, q);
    AnswerCounts(x, x', y, f, f', g, c, m);
    assert GrantsOk(x', xy, f') by {
      CountZero(f, Announces(c));
      forall z | z in f' && z.OpenOk? ensures GrantOk(x', z) {
        if z != m {
          assert z in f && GrantOk(x, z) && !Has(z, Announces(c));
        }
      }
    }
    assert RefusalsOk(x', f') by {
      forall z, p | z in f' && z.OpenReject? && 0 <= p < |x'.chans| && !x'.chans[p].opener && x'.chans[p].peer == Some(z.opener)
        ensures x'.chans[p].slot == NoSlot && !x'.chans[p].live
      {
        RefusalAfter(x, x', y, f, f', g, c, s, m, z, p);
      }
    }
    forall d | 0 <= d < |x'.chans| && x'.chans[d].peer.Some? ensures MateOk(x', y, d) {
      assert MateOk(x, y, d);
    }
    forall d: nat, q: nat | Speaks(x', d, q) && q < |y.chans| && Count(f', Closes(q)) > 0
      ensures x'.chans[d].spoiled || y.chans[q].spoiled
    {
      assert Count(f', Closes(q)) == Count(f, Closes(q)) + CountOf(m, Closes(q));
    }
  }

  lemma RefusalAfter(x: Endpoint, x': Endpoint, y: Endpoint, f: seq<Msg>, f': seq<Msg>, g: seq<Msg>, c: nat, s: nat, m: Msg, z: Msg, p: nat)
    requires RefusalsOk(x, f) && AnnounceOk(y, x, g) && AtTask(x, c, s) && OnlyChan(x, x', c) && Grew(f, f', m)
    requires (m.OpenOk? && x'.chans[c].slot == Active) || (m.OpenReject? && m.opener == s && x'.chans[c].slot == NoSlot)
    requires z in f' && z.OpenReject? && p < |x.chans| && !x.chans[p].opener && x.chans[p].peer == Some(z.opener)
    requires !x'.chans[c].live
    ensures x'.chans[p].slot == NoSlot && !x'.chans[p].live
  {
    if z in f {
      assert x.chans[p].slot == NoSlot && !x.chans[p].live;
    } else {
      assert Count(g, Announces(s)) + CountPeer(x.chans, s) <= Announced(y, s);
      PeerUnique(x.chans, c, p, s);
    }
  }

  lemma AnswerCounts(x: Endpoint, x': Endpoint, y: Endpoint, f: seq<Msg>, f': seq<Msg>, g: seq<Msg>, c: nat, m: Msg)
    requires AnnounceOk(x, y, f) && TokensOk(x, y, f, g) && RoutesOk(x, f) && OnlyChan(x, x', c) && Grew(f, f', m)
    requires !x.chans[c].opener && x.chans[c].state.Opening? && !x'.chans[c].state.Opening?
    requires (m.OpenOk? && m.sender == c) || m.OpenReject?
    requires forall d: nat, q: nat :: Speaks(x', d, q) <==> Speaks(x, d, q)
    ensures AnnounceOk(x', y, f') && TokensOk(x', y, f', g) && RoutesOk(x', f')
  {
    forall d: nat ensures Count(f', Announces(d)) + CountPeer(y.chans, d) <= Announced(x', d) {
      assert Count(f', Announces(d)) == Count(f, Announces(d)) + CountOf(m, Announces(d));
      assert Count(f, Announces(d)) + CountPeer(y.chans, d) <= Announced(x, d);
    }
    forall d: nat ensures TokenOk(x', d, Tokens(y, f', g, d)) {
      assert Count(f', Opens(d)) == Count(f, Opens(d)) + CountOf(m, Opens(d));
      assert TokenOk(x, d, Tokens(y, f, g, d));
    }
    forall q: nat | Count(f', For(q)) > 0 ensures exists d: nat :: Speaks(x', d, q) {
      assert Count(f', For(q)) == Count(f, For(q)) + CountOf(m, For(q));
      var d: nat :| Speaks(x, d, q);
      assert Speaks(x', d, q);
    }
  }

  lemma AnswerGlobalsIdle(x: Endpoint, x': Endpoint, y: Endpoint, f: seq<Msg>, f': seq<Msg>, g: seq<Msg>, m: Msg)
    requires GlobalsOk(x, y, f, g) && GlobalsOk(y, x, g, f) && x.dispatch != [] && x.dispatch[0].Open?
    requires Answering(x, x') && Grew(f, f', m) && (m.OpenOk? || m.OpenReject?)
    ensures GlobalsOk(x', y, f', g) && GlobalsOk(y, x', g, f')
  {
    assert Asks(f', None) == Asks(f, None) + AskOf(m, None);
    assert Replies(f', None) == Replies(f, None) + ReplyOf(m, None);
    assert Asks(f', None) == Asks(f, None) && Replies(f', None) == Replies(f, None);
    assert Asks(x.dispatch, None) == multiset{} + Asks(x'.dispatch, None);
    assert Asks(x.dispatch, None) == Asks(x'.dispatch, None);
  }

  /** Channel c of x, asked for by y's channel s, is decided on: m says so. */
  ghost predicate Decided(x: Endpoint, x': Endpoint, c: nat, s: nat, m: Msg) {
    && AtTask(x, c, s) && Answering(x, x')
    && OnlyChan(x, x', c) && !x'.chans[c].state.Opening? && !x'.chans[c].live
    && x'.chans[c].openWait == x.chans[c].openWait && x'.chans[c].spoiled == x.chans[c].spoiled
    && (m.OpenOk? || m.OpenReject?) && m.opener == s
    && if m.OpenOk? then m.sender == c && x'.chans[c].slot == Active else x'.chans[c].slot == NoSlot
  }

  lemma AnswerLinks(x: Endpoint, x': Endpoint, y: Endpoint, xy: seq<Msg>, yx: seq<Msg>,
                    f: seq<Msg>, f': seq<Msg>, g: seq<Msg>, c: nat, s: nat, m: Msg)
    requires LinksOk(x, y, xy, f, g) && LinksOk(y, x, yx, g, f) && Decided(x, x', c, s, m) && Grew(f, f', m)
    ensures LinksOk(x', y, xy, f', g) && LinksOk(y, x', yx, g, f')
  {
    AnswerOwn(x, x', y, xy, f, f', g, c, s, m);
    AnswerOther(x, x', y, yx, f, f', g, c, s, m);
  }

  lemma AnswerInv(cfg: Config, x: Endpoint, x': Endpoint, y: Endpoint, xy: seq<Msg>, yx: seq<Msg>,
                  f: seq<Msg>, f': seq<Msg>, g: seq<Msg>, c: nat, s: nat, m: Msg)
    requires InvAt(cfg, x, y, xy, yx, f, g) && EndpointOk(cfg, x') && StaticOk(cfg, m)
    requires Decided(x, x', c, s, m) && Grew(f, f', m) && PairsOk(cfg, x', y, f', g)
    ensures InvAt(cfg, x', y, xy, yx, f', g)
  {
    AnswerLinks(x, x', y, xy, yx, f, f', g, c, s, m);
    AnswerGlobalsIdle(x, x', y, f, f', g, m);
  }

  lemma AnswerPairs(cfg: Config, x: Endpoint, x': Endpoint, y: Endpoint, f: seq<Msg>, f': seq<Msg>, g: seq<Msg>, c: nat, m: Msg)
    requires PairsOk(cfg, x, y, f, g) && OnlyChan(x, x', c) && Grew(f, f', m) && !Addressed(m)
    requires forall p: nat :: Mated(x', y, c, p) ==> PairOk(cfg, x', y, f', g, c, p)
    ensures PairsOk(cfg, x', y, f', g)
  {
    OpenAlike(f, f', m);
    SameAlike(g, g);
    PairsQuiet(cfg, x, x', y, f, f', g, g, c);
  }

  // ----- it refuses

  /** Once the dispatcher has taken its task, no other task concerns the channel. */
  lemma LastTask(cfg: Config, x: Endpoint, y: Endpoint, f: seq<Msg>, g: seq<Msg>, c: nat, s: nat)
    requires EndpointOk(cfg, x) && AtTask(x, c, s) && TokensOk(y, x, g, f)
    ensures var rest := x.(dispatch := x.dispatch[1..]);
            EndpointOk(cfg, rest) && forall z :: z in rest.dispatch && z.Open? ==> z.sender in rest.peers && rest.peers[z.sender] != c
  {
    var rest := x.(dispatch := x.dispatch[1..]);
    IdleEndpoint(cfg, x, rest);
    assert TokenOk(y, s, Tokens(x, g, f, s));
    CountZero(rest.dispatch, Opens(s));
    forall z | z in rest.dispatch && z.Open? ensures z.sender in rest.peers && rest.peers[z.sender] != c {
      assert TaskOk(rest, z.sender);
      assert !Has(z, Opens(s));
    }
  }

  lemma RefuseEndpoint(cfg: Config, x: Endpoint, y: Endpoint, f: seq<Msg>, g: seq<Msg>, c: nat, s: nat, m: Msg)
    requires EndpointOk(cfg, x) && AtTask(x, c, s) && TokensOk(y, x, g, f) && m.OpenReject?
    ensures EndpointOk(cfg, PutOut(Remove(x.(dispatch := x.dispatch[1..]), c, Fail(x.chans[c])), m, Some(c)))
  {
    var rest := x.(dispatch := x.dispatch[1..]);
    LastTask(cfg, x, y, f, g, c, s);
    RemoveOk(cfg, rest, c, Fail(x.chans[c]));
    PutOutOk(cfg, Remove(rest, c, Fail(x.chans[c])), m, Some(c));
  }

  lemma NoMateLeft(x: Endpoint, x': Endpoint, y: Endpoint, c: nat)
    requires MatesOk(y, x) && c < |x.chans| && !x.chans[c].opener && OnlyChan(x, x', c) && x'.chans[c].slot == NoSlot
    ensures forall p: nat :: !Mated(x', y, c, p)
  {
    forall p: nat ensures !Mated(x', y, c, p) {
      if p < |y.chans| && y.chans[p].peer.Some? {
        assert MateOk(y, x, p);
      }
    }
  }

  lemma RefuseNext(cfg: Config, e: Endpoint, c: nat, s: nat, r: Reject, m: Msg)
    requires AtTask(e, c, s) && s in e.peers && e.peers[s] == c && RejectOk(cfg, r)
    requires m == OpenReject(s, Normalize(r, "channel-open-rejected", "channel open rejected"))
    ensures Admit(cfg, e, Denied(r)) == Ok(PutOut(Remove(e.(dispatch := e.dispatch[1..]), c, Fail(e.chans[c])), m, Some(c)))
    ensures RoomForRejects(cfg) ==> StaticOk(cfg, m)
    ensures var e' := Admit(cfg, e, Denied(r)).next; Decided(e, e', c, s, m) && e'.chans[c].slot == NoSlot
  {
  }

  lemma StepRefuse(cfg: Config, n: Net, r: Reject)
    requires RoomForRejects(cfg) && Inv(cfg, n) && n.l.dispatch != [] && n.l.dispatch[0].Open? && RejectOk(cfg, r)
    ensures Admit(cfg, n.l, Denied(r)).Ok? && Inv(cfg, n.(l := Admit(cfg, n.l, Denied(r)).next))
  {
    var l := n.l;
    TaskFacts(cfg, l);
    var s := l.dispatch[0].sender;
    var c := l.peers[s];
    var m := OpenReject(s, Normalize(r, "channel-open-rejected", "channel open rejected"));
    var mid := Remove(l.(dispatch := l.dispatch[1..]), c, Fail(l.chans[c]));
    var l' := PutOut(mid, m, Some(c));
    RefuseNext(cfg, l, c, s, r, m);
    RefuseEndpoint(cfg, l, n.r, Fly(l, n.lr), Fly(n.r, n.rl), c, s, m);
    OutGrows(mid, n.lr, m, Some(c));
    assert Fly(mid, n.lr) == Fly(l, n.lr);
    NoMateLeft(l, l', n.r, c);
    AnswerPairs(cfg, l, l', n.r, Fly(l, n.lr), Fly(l', n.lr), Fly(n.r, n.rl), c, m);
    AnswerInv(cfg, l, l', n.r, n.lr, n.rl, Fly(l, n.lr), Fly(l', n.lr), Fly(n.r, n.rl), c, s, m);
  }

  // ----- it accepts

  function Accepted(ch: Chan): Chan {
    ch.(state := Opened, slot := Active)
  }

  lemma AcceptedSame(cfg: Config, ch: Chan)
    requires SenderOk(cfg, ch) && ch.state.Opening? && ch.peer.Some?
    ensures var ch' := Accepted(ch);
            && SenderOk(cfg, ch') && SameRx(ch, ch') && SameTxRequests(ch, ch') && Window(cfg, ch') == Window(cfg, ch)
            && ch'.reserved == ch.reserved && ch'.sent == ch.sent && ch'.cancels == ch.cancels && !ch'.state.SentEof()
  {
  }

  lemma AcceptDirs(cfg: Config, v: View, w: View)
    requires DirOk(cfg, v) && DirOk(cfg, w) && w.t == v.s && v.s.state.Opening? && v.s.peer.Some?
    ensures DirOk(cfg, v.(s := Accepted(v.s))) && DirOk(cfg, w.(t := Accepted(v.s)))
  {
    AcceptedSame(cfg, v.s);
    FlowBySender(cfg, v, Accepted(v.s));
    RequestsIdle(v, v.(s := Accepted(v.s)));
    RxIdle(cfg, w, Accepted(v.s));
  }

  lemma AcceptPair(cfg: Config, x: Endpoint, x': Endpoint, y: Endpoint, f: seq<Msg>, f': seq<Msg>, g: seq<Msg>, c: nat, p: nat)
    requires PairsOk(cfg, x, y, f, g) && Mated(x, y, c, p) && x.chans[c].state.Opening? && x.chans[c].peer.Some?
    requires c < |x'.chans| && x'.chans[c] == Accepted(x.chans[c]) && Alike(f, f')
    ensures PairOk(cfg, x', y, f', g, c, p)
  {
    var v, w := Views(cfg, x, y, f, g, c, p);
    AcceptDirs(cfg, v, w);
    PairBy(cfg, x', y, f', g, c, p, v.(s := x'.chans[c]), w.(t := x'.chans[c]));
  }

  lemma AcceptTable(cfg: Config, e: Endpoint, c: nat)
    requires EndpointOk(cfg, e) && c < |e.chans| && e.chans[c].slot == Pending && !e.chans[c].opener
    requires forall z :: z in e.dispatch && z.Open? ==> z.sender in e.peers && e.peers[z.sender] != c
    ensures EndpointOk(cfg, SetChan(e, c, Accepted(e.chans[c])))
  {
    var e' := SetChan(e, c, Accepted(e.chans[c]));
    assert ChanOk(e.chans[c]);
    forall i | 0 <= i < |e'.out| ensures WriteOk(e', e'.out[i]) {
      assert WriteOk(e, e.out[i]);
    }
    forall d: nat | InTable(e', d) && e'.chans[d].peer.Some?
      ensures e'.chans[d].peer.value in e'.peers && e'.peers[e'.chans[d].peer.value] == d
    {
      assert InTable(e, d);
    }
    forall z | z in e'.dispatch && z.Open? ensures TaskOk(e', z.sender) {
      assert TaskOk(e, z.sender);
    }
  }

  lemma AcceptEndpoint(cfg: Config, x: Endpoint, y: Endpoint, f: seq<Msg>, g: seq<Msg>, c: nat, s: nat, m: Msg)
    requires EndpointOk(cfg, x) && AtTask(x, c, s) && TokensOk(y, x, g, f) && m.OpenOk? && m.sender == c
    ensures EndpointOk(cfg, PutOut(SetChan(x.(dispatch := x.dispatch[1..]), c, Accepted(x.chans[c])), m, Some(c)))
  {
    var rest := x.(dispatch := x.dispatch[1..]);
    LastTask(cfg, x, y, f, g, c, s);
    AcceptTable(cfg, rest, c);
    PutOutOk(cfg, SetChan(rest, c, Accepted(x.chans[c])), m, Some(c));
  }

  lemma AcceptPairs(cfg: Config, x: Endpoint, x': Endpoint, y: Endpoint, f: seq<Msg>, f': seq<Msg>, g: seq<Msg>, c: nat, s: nat, m: Msg)
    requires PairsOk(cfg, x, y, f, g) && AtTask(x, c, s)
    requires OnlyChan(x, x', c) && x'.chans[c] == Accepted(x.chans[c]) && Grew(f, f', m) && !Addressed(m)
    ensures PairsOk(cfg, x', y, f', g)
  {
    OpenAlike(f, f', m);
    forall p: nat | Mated(x', y, c, p) ensures PairOk(cfg, x', y, f', g, c, p) {
      assert Mated(x, y, c, p);
      AcceptPair(cfg, x, x', y, f, f', g, c, p);
    }
    AnswerPairs(cfg, x, x', y, f, f', g, c, m);
  }

  lemma AcceptNext(cfg: Config, e: Endpoint, c: nat, s: nat, m: Msg)
    requires AtTask(e, c, s) && s in e.peers && e.peers[s] == c
    requires m.OpenOk? && m == OpenOk(s, c, cfg.initialWindow, cfg.maxPacketSize, m.payload)
    requires |m.payload| <= cfg.limits.maxControlPayload
    ensures Admit(cfg, e, Granted(m.payload))
         == Ok(PutOut(SetChan(e.(dispatch := e.dispatch[1..]), c, Accepted(e.chans[c])), m, Some(c)))
    ensures var e' := Admit(cfg, e, Granted(m.payload)).next;
            OnlyChan(e, e', c) && e'.chans[c] == Accepted(e.chans[c]) && Answering(e, e')
  {
  }

  lemma StepAccept(cfg: Config, n: Net, payload: Bytes)
    requires Inv(cfg, n) && n.l.dispatch != [] && n.l.dispatch[0].Open? && |payload| <= cfg.limits.maxControlPayload
    ensures Admit(cfg, n.l, Granted(payload)).Ok? && Inv(cfg, n.(l := Admit(cfg, n.l, Granted(payload)).next))
  {
    var l := n.l;
    TaskFacts(cfg, l);
    var s := l.dispatch[0].sender;
    var c := l.peers[s];
    var m := OpenOk(s, c, cfg.initialWindow, cfg.maxPacketSize, payload);
    var mid := SetChan(l.(dispatch := l.dispatch[1..]), c, Accepted(l.chans[c]));
    var l' := PutOut(mid, m, Some(c));
    AcceptNext(cfg, l, c, s, m);
    AcceptEndpoint(cfg, l, n.r, Fly(l, n.lr), Fly(n.r, n.rl), c, s, m);
    OutGrows(mid, n.lr, m, Some(c));
    assert Fly(mid, n.lr) == Fly(l, n.lr);
    AcceptPairs(cfg, l, l', n.r, Fly(l, n.lr), Fly(l', n.lr), Fly(n.r, n.rl), c, s, m);
    AnswerInv(cfg, l, l', n.r, n.lr, n.rl, Fly(l, n.lr), Fly(l', n.lr), Fly(n.r, n.rl), c, s, m);
  }
}
