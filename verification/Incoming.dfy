/** Handling the peer's opens keeps the invariant. */
module Incoming {
  import opened Types
  import opened SessionConfig
  import opened Envelope
  import opened Channel
  import opened Endpoint
  import opened Flight
  import opened Direction
  import opened PairEvents
  import opened Network
  import opened Links
  import opened Mates
  import opened Traffic
  import opened Control
  import opened Removal
  import opened Writer
  import opened Opening
  import opened Receiving
  import opened Parting
  import opened Greeting

  /** Where x stands when y's open of its channel s arrives: x knows nothing of s. */
  ghost predicate AtOpen(x: Endpoint, y: Endpoint, f: seq<Msg>, m: Msg) {
    && m.Open? && m.sender < |y.chans| && y.chans[m.sender].opener && y.chans[m.sender].peer.None?
    && (y.chans[m.sender].spoiled || y.chans[m.sender] == NewOutgoing())
    && CountPeer(x.chans, m.sender) == 0 && Count(f, Answers(m.sender)) == 0
  }

  lemma OpenFacts(cfg: Config, x: Endpoint, y: Endpoint, yx: seq<Msg>, f: seq<Msg>, g: seq<Msg>, g': seq<Msg>, m: Msg)
    requires LinksOk(y, x, yx, g, f) && EndpointOk(cfg, y) && m.Open? && Popped(g, g', m)
    ensures AtOpen(x, y, f, m)
  {
    var s := m.sender;
    assert Count(g, Opens(s)) == CountOf(m, Opens(s)) + Count(g', Opens(s));
    assert TokenOk(y, s, Tokens(x, g, f, s));
    assert ChanOk(y.chans[s]);
    OpenUnderWay(y, x, yx, g, f, s, m);
  }

  /** x gained channel ch for y's open m: admitted (queued for the dispatcher) or refused by `no`. */
  ghost predicate Gained(x: Endpoint, x': Endpoint, f: seq<Msg>, f': seq<Msg>, m: Msg, no: Msg) {
    && m.Open? && |x'.chans| == |x.chans| + 1 && x'.chans[..|x.chans|] == x.chans
    && var ch := x'.chans[|x.chans|];
       && !ch.opener && ch.peer == Some(m.sender) && !ch.live && !ch.openWait && !ch.spoiled
       && if ch.slot == NoSlot
          then no.OpenReject? && no.opener == m.sender && Grew(f, f', no) && x'.dispatch == x.dispatch
          else f' == f && Grew(x.dispatch, x'.dispatch, m)
  }

  lemma GainPrefix(x: Endpoint, x': Endpoint)
    requires |x'.chans| == |x.chans| + 1 && x'.chans[..|x.chans|] == x.chans
    ensures forall d :: 0 <= d < |x.chans| ==> x'.chans[d] == x.chans[d]
  {
    forall d | 0 <= d < |x.chans| ensures x'.chans[d] == x.chans[d] {
      assert x'.chans[..|x.chans|][d] == x'.chans[d];
    }
  }

  lemma IncomingCounts(x: Endpoint, x': Endpoint, y: Endpoint, f: seq<Msg>, f': seq<Msg>, g: seq<Msg>, g': seq<Msg>, m: Msg, no: Msg)
    requires AnnounceOk(x, y, f) && TokensOk(x, y, f, g) && RoutesOk(x, f) && ClosesOk(x, y, f)
    requires Gained(x, x', f, f', m, no) && Popped(g, g', m)
    ensures AnnounceOk(x', y, f') && TokensOk(x', y, f', g') && RoutesOk(x', f') && ClosesOk(x', y, f')
  {
    GainPrefix(x, x');
    assert forall d: nat, q: nat :: Speaks(x', d, q) <==> Speaks(x, d, q);
    assert forall k: Key :: (k.Announces? || k.Opens? || k.For? || k.Closes?) ==> Count(f', k) == Count(f, k);
    forall d: nat ensures Count(f', Announces(d)) + CountPeer(y.chans, d) <= Announced(x', d) {
      assert Count(f, Announces(d)) + CountPeer(y.chans, d) <= Announced(x, d);
    }
    forall d: nat ensures TokenOk(x', d, Tokens(y, f', g', d)) {
      assert Count(g, Answers(d)) == CountOf(m, Answers(d)) + Count(g', Answers(d));
      assert TokenOk(x, d, Tokens(y, f, g, d));
    }
    forall q: nat | Count(f', For(q)) > 0 ensures exists d: nat :: Speaks(x', d, q) {
      var d: nat :| Speaks(x, d, q);
      assert Speaks(x', d, q);
    }
  }

  lemma IncomingRefusals(x: Endpoint, x': Endpoint, y: Endpoint, f: seq<Msg>, f': seq<Msg>, m: Msg, no: Msg)
    requires RefusalsOk(x, f) && Gained(x, x', f, f', m, no) && AtOpen(x, y, f, m)
    ensures RefusalsOk(x', f')
  {
    GainPrefix(x, x');
    CountZero(f, Answers(m.sender));
    forall z, p | z in f' && z.OpenReject? && 0 <= p < |x'.chans| && !x'.chans[p].opener && x'.chans[p].peer == Some(z.opener)
      ensures x'.chans[p].slot == NoSlot && !x'.chans[p].live
    {
      if p < |x.chans| {
        if z !in f {
          PeerFound(x.chans, p, m.sender);
        }
      } else if z in f {
        assert !Has(z, Answers(m.sender));
      }
    }
  }

  lemma IncomingOwn(x: Endpoint, x': Endpoint, y: Endpoint, xy: seq<Msg>, f: seq<Msg>, f': seq<Msg>, g: seq<Msg>, g': seq<Msg>, m: Msg, no: Msg)
    requires LinksOk(x, y, xy, f, g) && Gained(x, x', f, f', m, no) && Popped(g, g', m) && AtOpen(x, y, f, m)
    ensures LinksOk(x', y, xy, f', g')
  {
    GainPrefix(x, x');
    IncomingCounts(x, x', y, f, f', g, g', m, no);
    IncomingRefusals(x, x', y, f, f', m, no);
    forall z | z in f' && z.OpenOk? ensures GrantOk(x', z) {
      assert z in f && GrantOk(x, z);
    }
    forall d | 0 <= d < |x'.chans| && x'.chans[d].peer.Some? ensures MateOk(x', y, d) {
      if d < |x.chans| {
        assert MateOk(x, y, d);
      }
    }
    assert forall d: nat, q: nat :: Speaks(x', d, q) <==> Speaks(x, d, q);
  }

  lemma IncomingTokens(x: Endpoint, x': Endpoint, y: Endpoint, f: seq<Msg>, f': seq<Msg>, g: seq<Msg>, g': seq<Msg>, m: Msg, no: Msg)
    requires TokensOk(y, x, g, f) && Gained(x, x', f, f', m, no) && Popped(g, g', m)
    ensures TokensOk(y, x', g', f')
  {
    forall d: nat ensures TokenOk(y, d, Tokens(x', g', f', d)) {
      assert Count(g, Opens(d)) == CountOf(m, Opens(d)) + Count(g', Opens(d));
      if x'.chans[|x.chans|].slot == NoSlot {
        assert Count(f', Answers(d)) == Count(f, Answers(d)) + CountOf(no, Answers(d));
      } else {
        assert Count(x'.dispatch, Opens(d)) == Count(x.dispatch, Opens(d)) + CountOf(m, Opens(d));
      }
      assert TokenOk(y, d, Tokens(x, g, f, d));
    }
  }

  lemma IncomingAnnounced(x: Endpoint, x': Endpoint, y: Endpoint, g: seq<Msg>, g': seq<Msg>, m: Msg)
    requires AnnounceOk(y, x, g) && Popped(g, g', m) && m.Open?
    requires |x'.chans| == |x.chans| + 1 && x'.chans[..|x.chans|] == x.chans && x'.chans[|x.chans|].peer == Some(m.sender)
    ensures AnnounceOk(y, x', g')
  {
    assert x'.chans == x.chans + [x'.chans[|x.chans|]];
    forall q: nat ensures Count(g', Announces(q)) + CountPeer(x'.chans, q) <= Announced(y, q) {
      AppendPeers(x.chans, x'.chans[|x.chans|], q);
      assert Count(g, Announces(q)) == CountOf(m, Announces(q)) + Count(g', Announces(q));
    }
  }

  lemma IncomingOther(x: Endpoint, x': Endpoint, y: Endpoint, yx: seq<Msg>, f: seq<Msg>, f': seq<Msg>, g: seq<Msg>, g': seq<Msg>, m: Msg, no: Msg)
    requires LinksOk(y, x, yx, g, f) && Gained(x, x', f, f', m, no) && yx != [] && m == yx[0] && Popped(g, g', m)
    ensures LinksOk(y, x', yx[1..], g', f')
  {
    GainPrefix(x, x');
    Unknown(x, y, |x.chans|);
    IncomingTokens(x, x', y, f, f', g, g', m, no);
    IncomingAnnounced(x, x', y, g, g', m);
    forall q: nat | Count(g', For(q)) > 0 ensures exists d: nat :: Speaks(y, d, q) {
      assert Count(g, For(q)) == CountOf(m, For(q)) + Count(g', For(q));
    }
    forall d | 0 <= d < |y.chans| && y.chans[d].peer.Some? ensures MateOk(y, x', d) {
      assert MateOk(y, x, d);
    }
    IncomingGreets(x, x', y, yx, g, g', m);
  }

  lemma IncomingGreets(x: Endpoint, x': Endpoint, y: Endpoint, yx: seq<Msg>, g: seq<Msg>, g': seq<Msg>, m: Msg)
    requires GreetingsOk(y, x, yx) && ClosesOk(y, x, g) && yx != [] && m == yx[0] && m.Open? && Popped(g, g', m)
    requires |x'.chans| == |x.chans| + 1 && forall d :: 0 <= d < |x.chans| ==> x'.chans[d] == x.chans[d]
    requires !x'.chans[|x.chans|].openWait
    requires forall p :: 0 <= p < |y.chans| ==> y.chans[p].peer != Some(|x.chans|)
    ensures GreetingsOk(y, x', yx[1..]) && ClosesOk(y, x', g')
  {
    forall p: nat, q: nat | Speaks(y, p, q) && q < |x'.chans| && Count(g', Closes(q)) > 0
      ensures y.chans[p].spoiled || x'.chans[q].spoiled
    {
      assert Count(g, Closes(q)) == CountOf(m, Closes(q)) + Count(g', Closes(q));
    }
  }

  // ----- the new pair

  lemma {:induction false} NothingFor(ms: seq<Msg>, q: nat)
    requires Count(ms, For(q)) == 0
    ensures Stream(ms, q) == [] && Adjusts(ms, q) == 0 && Asks(ms, Some(q)) == multiset{} && Replies(ms, Some(q)) == multiset{}
  {
    if ms != [] {
      NothingFor(ms[1..], q);
    }
  }

  lemma FreshDirs(cfg: Config, m: Msg)
    requires Checked(cfg) && m.Open? && StaticOk(cfg, m)
    ensures DirOk(cfg, View(NewIncoming(cfg, m, Pending), NewOutgoing(), [], 0, multiset{}, multiset{}))
    ensures DirOk(cfg, View(NewOutgoing(), NewIncoming(cfg, m, Pending), [], 0, multiset{}, multiset{}))
  {
  }

  lemma FreshPair(cfg: Config, x: Endpoint, x': Endpoint, y: Endpoint, f: seq<Msg>, g: seq<Msg>, m: Msg)
    requires Checked(cfg) && AtOpen(x, y, f, m) && StaticOk(cfg, m) && RoutesOk(x, f) && RoutesOk(y, g) && CountPeer(y.chans, |x.chans|) == 0
    requires |x'.chans| == |x.chans| + 1 && x'.chans[|x.chans|] == NewIncoming(cfg, m, Pending) && !y.chans[m.sender].spoiled
    ensures PairOk(cfg, x', y, f, g, |x.chans|, m.sender)
  {
    var c, s := |x.chans|, m.sender;
    NobodySpeaks(x, f, s);
    NobodySpeaks(y, g, c);
    NothingFor(f, s);
    NothingFor(g, c);
    FreshDirs(cfg, m);
    PairBy(cfg, x', y, f, g, c, s, View(x'.chans[c], y.chans[s], [], 0, multiset{}, multiset{}),
           View(y.chans[s], x'.chans[c], [], 0, multiset{}, multiset{}));
  }

  lemma {:induction false} NoPeers(chans: seq<Chan>, q: nat)
    requires forall p :: 0 <= p < |chans| ==> chans[p].peer != Some(q)
    ensures CountPeer(chans, q) == 0
  {
    if chans != [] {
      NoPeers(chans[1..], q);
    }
  }

  lemma GainAlike(x: Endpoint, x': Endpoint, f: seq<Msg>, f': seq<Msg>, m: Msg, no: Msg)
    requires Gained(x, x', f, f', m, no)
    ensures Alike(f, f')
  {
    if x'.chans[|x.chans|].slot == NoSlot {
      OpenAlike(f, f', no);
    }
  }

  /** The only mate the new channel can have is the one that asked for it. */
  lemma NewMate(x: Endpoint, x': Endpoint, y: Endpoint, f: seq<Msg>, f': seq<Msg>, m: Msg, no: Msg, d: nat, p: nat)
    requires MatesOk(y, x) && Gained(x, x', f, f', m, no) && Mated(x', y, d, p)
    ensures d < |x.chans| ==> x'.chans[d] == x.chans[d] && Mated(x, y, d, p)
    ensures d >= |x.chans| ==> d == |x.chans| && p == m.sender && x'.chans[d].slot != NoSlot && !y.chans[p].spoiled
  {
    GainPrefix(x, x');
    Unknown(x, y, |x.chans|);
  }

  lemma IncomingPairs(cfg: Config, x: Endpoint, x': Endpoint, y: Endpoint, f: seq<Msg>, f': seq<Msg>, g: seq<Msg>, g': seq<Msg>, m: Msg, no: Msg)
    requires PairsOk(cfg, x, y, f, g) && MatesOk(y, x) && Gained(x, x', f, f', m, no) && Alike(f, f') && Alike(g, g')
    requires x'.chans[|x.chans|].slot != NoSlot && m.sender < |y.chans| && !y.chans[m.sender].spoiled ==>
               PairOk(cfg, x', y, f', g', |x.chans|, m.sender)
    ensures PairsOk(cfg, x', y, f', g')
  {
    forall d: nat, p: nat | Mated(x', y, d, p) ensures PairOk(cfg, x', y, f', g', d, p) {
      NewMate(x, x', y, f, f', m, no, d, p);
      if d < |x.chans| {
        PairAlike(cfg, x, x', y, f, f', g, g', d, p);
      }
    }
  }

  lemma IncomingNewPair(cfg: Config, x: Endpoint, x': Endpoint, y: Endpoint, f: seq<Msg>, g: seq<Msg>, g': seq<Msg>, m: Msg)
    requires Checked(cfg) && MatesOk(y, x) && RoutesOk(x, f) && RoutesOk(y, g') && AtOpen(x, y, f, m) && StaticOk(cfg, m)
    requires |x'.chans| == |x.chans| + 1 && x'.chans[|x.chans|] == NewIncoming(cfg, m, Pending)
    ensures !y.chans[m.sender].spoiled ==> PairOk(cfg, x', y, f, g', |x.chans|, m.sender)
  {
    Unknown(x, y, |x.chans|);
    NoPeers(y.chans, |x.chans|);
    if !y.chans[m.sender].spoiled {
      FreshPair(cfg, x, x', y, f, g', m);
    }
  }

  lemma GainedAlike(x: Endpoint, x': Endpoint, f: seq<Msg>, f': seq<Msg>, g: seq<Msg>, g': seq<Msg>, m: Msg, no: Msg)
    requires Gained(x, x', f, f', m, no) && Popped(g, g', m)
    ensures Alike(f, f') && Alike(g, g')
  {
    GainAlike(x, x', f, f', m, no);
    MutePopAlike(g, g', m);
  }

  lemma NewPairIf(cfg: Config, x: Endpoint, x': Endpoint, y: Endpoint, f: seq<Msg>, f': seq<Msg>, g: seq<Msg>, g': seq<Msg>, m: Msg, no: Msg)
    requires Checked(cfg) && MatesOk(y, x) && RoutesOk(x, f) && RoutesOk(y, g')
    requires AtOpen(x, y, f, m) && StaticOk(cfg, m) && Gained(x, x', f, f', m, no)
    requires x'.chans[|x.chans|].slot != NoSlot ==> x'.chans[|x.chans|] == NewIncoming(cfg, m, Pending)
    ensures x'.chans[|x.chans|].slot != NoSlot && !y.chans[m.sender].spoiled ==> PairOk(cfg, x', y, f', g', |x.chans|, m.sender)
  {
    if x'.chans[|x.chans|].slot != NoSlot {
      IncomingNewPair(cfg, x, x', y, f, g, g', m);
    }
  }

  lemma AllPairs(cfg: Config, x: Endpoint, x': Endpoint, y: Endpoint, f: seq<Msg>, f': seq<Msg>, g: seq<Msg>, g': seq<Msg>, m: Msg, no: Msg)
    requires Checked(cfg) && PairsOk(cfg, x, y, f, g) && MatesOk(y, x) && RoutesOk(x, f) && RoutesOk(y, g')
    requires AtOpen(x, y, f, m) && StaticOk(cfg, m) && Gained(x, x', f, f', m, no) && Popped(g, g', m)
    requires x'.chans[|x.chans|].slot != NoSlot ==> x'.chans[|x.chans|] == NewIncoming(cfg, m, Pending)
    ensures PairsOk(cfg, x', y, f', g')
  {
    NewPairIf(cfg, x, x', y, f, f', g, g', m, no);
    GainedAlike(x, x', f, f', g, g', m, no);
    IncomingPairs(cfg, x, x', y, f, f', g, g', m, no);
  }

  lemma IncomingGlobals(x: Endpoint, x': Endpoint, y: Endpoint, f: seq<Msg>, f': seq<Msg>, g: seq<Msg>, g': seq<Msg>, m: Msg, no: Msg)
    requires GlobalsOk(x, y, f, g) && GlobalsOk(y, x, g, f) && Gained(x, x', f, f', m, no) && Popped(g, g', m)
    requires x'.pendingGlobal == x.pendingGlobal && x'.forsaken == x.forsaken && x'.nextGlobal == x.nextGlobal && x'.incomingGlobal == x.incomingGlobal
    ensures GlobalsOk(x', y, f', g') && GlobalsOk(y, x', g', f')
  {
    PopGlobals(x, x, y, f, g, g', m);
    if x'.chans[|x.chans|].slot == NoSlot {
      GlobalsPast(x, x', y, f, f', g', no);
    } else {
      assert Asks(x'.dispatch, None) == Asks(x.dispatch, None) + AskOf(m, None);
      assert Asks(x'.dispatch, None) == Asks(x.dispatch, None);
    }
  }

  lemma IncomingInv(cfg: Config, x: Endpoint, x': Endpoint, y: Endpoint, xy: seq<Msg>, yx: seq<Msg>,
                    f: seq<Msg>, f': seq<Msg>, g: seq<Msg>, g': seq<Msg>, m: Msg, no: Msg)
    requires Checked(cfg) && InvAt(cfg, x, y, xy, yx, f, g) && EndpointOk(cfg, x')
    requires x'.pendingGlobal == x.pendingGlobal && x'.forsaken == x.forsaken && x'.nextGlobal == x.nextGlobal && x'.incomingGlobal == x.incomingGlobal
    requires yx != [] && m == yx[0] && m.Open? && Popped(g, g', m) && Gained(x, x', f, f', m, no) && StaticOk(cfg, no)
    requires x'.chans[|x.chans|].slot != NoSlot ==> x'.chans[|x.chans|] == NewIncoming(cfg, m, Pending)
    ensures InvAt(cfg, x', y, xy, yx[1..], f', g')
  {
    OpenFacts(cfg, x, y, yx, f, g, g', m);
    IncomingOwn(x, x', y, xy, f, f', g, g', m, no);
    IncomingOther(x, x', y, yx, f, f', g, g', m, no);
    assert m in g;
    AllPairs(cfg, x, x', y, f, f', g, g', m, no);
    IncomingGlobals(x, x', y, f, f', g, g', m, no);
  }

  // ----- the three ways it goes

  lemma RefusedOpen(cfg: Config, n: Net, ch: Chan, m: Msg, no: Msg)
    requires Checked(cfg) && Inv(cfg, n) && n.rl != [] && m == n.rl[0] && m.Open? && no.OpenReject? && no.opener == m.sender && StaticOk(cfg, no)
    requires ch == NewIncoming(cfg, m, NoSlot) || ch == Fail(NewIncoming(cfg, m, Pending))
    ensures Inv(cfg, n.(l := PutCtrl(n.l.(chans := n.l.chans + [ch]), no), rl := n.rl[1..]))
  {
    var mid := n.l.(chans := n.l.chans + [ch]);
    var l' := PutCtrl(mid, no);
    WirePops(n.r, n.rl);
    assert StaticOk(cfg, m);
    GainEndpoint(cfg, n.l, ch);
    PutCtrlOk(cfg, mid, no);
    CtrlGrows(mid, n.lr, no);
    assert Fly(mid, n.lr) == Fly(n.l, n.lr);
    assert Gained(n.l, l', Fly(n.l, n.lr), Fly(l', n.lr), m, no);
    IncomingInv(cfg, n.l, l', n.r, n.lr, n.rl, Fly(n.l, n.lr), Fly(l', n.lr), Fly(n.r, n.rl), Fly(n.r, n.rl[1..]), m, no);
  }

  function Admitted(cfg: Config, e: Endpoint, m: Msg): Endpoint
    requires m.Open?
  {
    e.(chans := e.chans + [NewIncoming(cfg, m, Pending)], peers := e.peers[m.sender := |e.chans|], dispatch := e.dispatch + [m])
  }

  lemma AdmitPeers(cfg: Config, e: Endpoint, m: Msg)
    requires PeersOk(e) && m.Open? && m.sender !in e.peers
    ensures PeersOk(Admitted(cfg, e, m))
  {
    var e' := Admitted(cfg, e, m);
    forall d: nat | InTable(e', d) && e'.chans[d].peer.Some?
      ensures e'.chans[d].peer.value in e'.peers && e'.peers[e'.chans[d].peer.value] == d
    {
      if d < |e.chans| {
        assert InTable(e, d);
      }
    }
  }

  lemma AdmitEndpoint(cfg: Config, e: Endpoint, m: Msg)
    requires EndpointOk(cfg, e) && m.Open? && StaticOk(cfg, m) && m.sender !in e.peers
    ensures EndpointOk(cfg, Admitted(cfg, e, m))
  {
    var e' := Admitted(cfg, e, m);
    forall i | 0 <= i < |e'.out| ensures WriteOk(e', e'.out[i]) {
      assert WriteOk(e, e.out[i]);
    }
    AdmitPeers(cfg, e, m);
    forall z | z in e'.dispatch && z.Open? ensures TaskOk(e', z.sender) {
      if z in e.dispatch {
        assert TaskOk(e, z.sender);
      }
    }
  }

  lemma AdmitShape(cfg: Config, e: Endpoint, f: seq<Msg>, m: Msg, no: Msg)
    requires m.Open?
    ensures Gained(e, Admitted(cfg, e, m), f, f, m, no)
  {
    AppendGrows(e.dispatch, m);
    assert (e.chans + [NewIncoming(cfg, m, Pending)])[..|e.chans|] == e.chans;
  }

  lemma AdmittedOpen(cfg: Config, n: Net, m: Msg)
    requires Checked(cfg) && RoomForRejects(cfg) && Inv(cfg, n) && n.rl != [] && m == n.rl[0] && m.Open? && m.sender !in n.l.peers
    ensures Inv(cfg, n.(l := Admitted(cfg, n.l, m), rl := n.rl[1..]))
  {
    var l' := Admitted(cfg, n.l, m);
    var none := OpenReject(m.sender, Reject("", "", []));
    WirePops(n.r, n.rl);
    assert StaticOk(cfg, m);
    AdmitEndpoint(cfg, n.l, m);
    assert Fly(l', n.lr) == Fly(n.l, n.lr);
    AdmitShape(cfg, n.l, Fly(n.l, n.lr), m, none);
    IncomingInv(cfg, n.l, l', n.r, n.lr, n.rl, Fly(n.l, n.lr), Fly(l', n.lr), Fly(n.r, n.rl), Fly(n.r, n.rl[1..]), m, none);
  }

  lemma StepOpened(cfg: Config, n: Net, luck: Luck)
    requires Checked(cfg) && RoomForRejects(cfg) && Inv(cfg, n) && n.rl != [] && n.rl[0].Open? && RecvOpen(cfg, n.l, n.rl[0], luck).Ok?
    ensures Inv(cfg, n.(l := RecvOpen(cfg, n.l, n.rl[0], luck).next, rl := n.rl[1..]))
  {
    var m := n.rl[0];
    if !luck.admit {
      RefusedOpen(cfg, n, NewIncoming(cfg, m, NoSlot), m, OpenReject(m.sender, LimitReject("channel limit reached")));
    } else if !luck.queue {
      RefusedOpen(cfg, n, Fail(NewIncoming(cfg, m, Pending)), m, OpenReject(m.sender, LimitReject("channel queue limit reached")));
    } else {
      AdmittedOpen(cfg, n, m);
    }
  }
}
