/** The writer and global requests keep the invariant. */
module Writer {
  import opened Types
  import opened SessionConfig
  import opened Envelope
  import opened Channel
  import opened Endpoint
  import opened Flight
  import opened Direction
  import opened PairEvents
  import opened Network
  import opened Links
  import opened Mates
  import opened Traffic
  import opened Control

  lemma SameAlike(f: seq<Msg>, f': seq<Msg>)
    requires Same(f, f')
    ensures Alike(f, f')
  {
  }

  /** A message went from a queue onto the wire, or nothing did. */
  lemma WrittenInv(cfg: Config, x: Endpoint, x': Endpoint, y: Endpoint, xy: seq<Msg>, emitted: seq<Msg>, yx: seq<Msg>,
                   f: seq<Msg>, f': seq<Msg>, g: seq<Msg>)
    requires InvAt(cfg, x, y, xy, yx, f, g) && EndpointOk(cfg, x') && SameGlobals(x, x') && x'.chans == x.chans
    requires Same(f, f') && |emitted| <= 1 && (emitted != [] && emitted[0].OpenOk? ==> Granted(x, emitted[0]))
    ensures InvAt(cfg, x', y, xy + emitted, yx, f', g)
  {
    WrittenLinks(x, x', y, xy, emitted, yx, f, f', g);
    SameAlike(f, f');
    SameAlike(g, g);
    PairsAlike(cfg, x, x', y, f, f', g, g);
    GlobalsIdle(x, x', y, f, f', g);
  }

  predicate Granted(x: Endpoint, m: Msg) {
    m.OpenOk? && m.sender < |x.chans| && x.chans[m.sender].live
  }

  lemma WrittenLinks(x: Endpoint, x': Endpoint, y: Endpoint, xy: seq<Msg>, emitted: seq<Msg>, yx: seq<Msg>,
                     f: seq<Msg>, f': seq<Msg>, g: seq<Msg>)
    requires LinksOk(x, y, xy, f, g) && LinksOk(y, x, yx, g, f) && x'.chans == x.chans && x'.dispatch == x.dispatch
    requires Same(f, f') && |emitted| <= 1 && (emitted != [] && emitted[0].OpenOk? ==> Granted(x, emitted[0]))
    ensures LinksOk(x', y, xy + emitted, f', g) && LinksOk(y, x', yx, g, f')
  {
    assert AllCalm(x, x', y);
    CalmOwn(x, x', y, xy, f, g);
    CalmOther(x, x', y, yx, f, g);
    SameOwn(x', y, xy, f, f', g);
    SameOther(x', y, yx, f, f', g);
    if emitted == [] {
      assert xy + emitted == xy;
    } else {
      assert emitted == [emitted[0]];
      WireAppend(x', y, xy, f', g, emitted[0]);
    }
  }

  lemma OutTailOk(cfg: Config, e: Endpoint)
    requires EndpointOk(cfg, e) && e.out != []
    ensures EndpointOk(cfg, e.(out := e.out[1..]))
  {
    var e' := e.(out := e.out[1..]);
    forall i | 0 <= i < |e'.out| ensures WriteOk(e', e'.out[i]) {
      assert WriteOk(e, e.out[i + 1]);
    }
  }

  lemma StepWriteControl(cfg: Config, n: Net)
    requires Inv(cfg, n) && n.l.ctrl != []
    ensures Inv(cfg, n.(l := n.l.(ctrl := n.l.ctrl[1..]), lr := n.lr + [n.l.ctrl[0]]))
  {
    var l' := n.l.(ctrl := n.l.ctrl[1..]);
    assert n.l.ctrl[0] in n.l.ctrl;
    assert EndpointOk(cfg, l') by {
      forall i | 0 <= i < |l'.out| ensures WriteOk(l', l'.out[i]) {
        assert WriteOk(n.l, n.l.out[i]);
      }
    }
    WriteControlSame(n.l, n.lr);
    WrittenInv(cfg, n.l, l', n.r, n.lr, [n.l.ctrl[0]], n.rl, Fly(n.l, n.lr), Fly(l', n.lr + [n.l.ctrl[0]]), Fly(n.r, n.rl));
  }

  // ----- the writer hands an accepted channel to its application

  lemma {:induction false} CloseIsFor(ms: seq<Msg>, q: nat)
    ensures Count(ms, Closes(q)) <= Count(ms, For(q))
  {
    if ms != [] {
      CloseIsFor(ms[1..], q);
    }
  }

  /** Before its grant is on the wire, nobody speaks to the opener. */
  lemma SilentBefore(x: Endpoint, y: Endpoint, xy: seq<Msg>, f: seq<Msg>, g: seq<Msg>, c: nat, q: nat)
    requires RoutesOk(x, f) && AnnounceOk(y, x, g)
    requires c < |x.chans| && x.chans[c].peer == Some(q) && !x.chans[c].live
    ensures Count(f, For(q)) == 0 && Count(f, Closes(q)) == 0
  {
    CloseIsFor(f, q);
    if Count(f, For(q)) > 0 {
      var d: nat :| Speaks(x, d, q);
      assert Count(g, Announces(q)) + CountPeer(x.chans, q) <= Announced(y, q);
      PeerUnique(x.chans, c, d, q);
    }
  }

  lemma GrantOwn(x: Endpoint, x': Endpoint, y: Endpoint, xy: seq<Msg>, f: seq<Msg>, g: seq<Msg>, c: nat, q: nat, m: Msg)
    requires LinksOk(x, y, xy, f, g) && AnnounceOk(y, x, g) && TokensOk(y, x, g, f) && m in f
    requires m.OpenOk? && m.sender == c && m.opener == q && GrantOk(x, m) && !x.chans[c].live
    requires Count(xy, For(q)) == 0
    requires OnlyChan(x, x', c) && x'.chans[c] == x.chans[c].(live := true)
    ensures LinksOk(x', y, xy + [m], f, g)
  {
    SilentBefore(x, y, xy, f, g, c, q);
    assert forall d: nat, p: nat :: Speaks(x', d, p) <==> Speaks(x, d, p) || (d == c && p == q);
    forall d: nat ensures Announced(x', d) == Announced(x, d) { }
    forall d: nat ensures TokenOk(x', d, Tokens(y, f, g, d)) {
      assert TokenOk(x, d, Tokens(y, f, g, d));
    }
    assert RoutesOk(x', f) by {
      forall p: nat | Count(f, For(p)) > 0 ensures exists d: nat :: Speaks(x', d, p) {
        var d: nat :| Speaks(x, d, p);
        assert Speaks(x', d, p);
      }
    }
    assert MatesOk(x', y) by {
      OpenerWaits(x, y, f, g, q, m);
      forall d | 0 <= d < |x'.chans| && x'.chans[d].peer.Some? ensures MateOk(x', y, d) {
        assert MateOk(x, y, d);
      }
    }
    GrantGreets(x, x', y, xy, c, q, m);
  }

  /** While the grant for y's channel q is under way, q's owner waits for it or gave up. */
  lemma OpenerWaits(x: Endpoint, y: Endpoint, f: seq<Msg>, g: seq<Msg>, q: nat, m: Msg)
    requires TokensOk(y, x, g, f) && m in f && Has(m, Answers(q))
    ensures q < |y.chans| && (y.chans[q].openWait || y.chans[q].spoiled)
  {
    CountZero(f, Answers(q));
    assert TokenOk(y, q, Tokens(x, g, f, q));
  }

  lemma GrantGreets(x: Endpoint, x': Endpoint, y: Endpoint, xy: seq<Msg>, c: nat, q: nat, m: Msg)
    requires GreetingsOk(x, y, xy) && OnlyChan(x, x', c) && x'.chans[c] == x.chans[c].(live := true)
    requires m.OpenOk? && m.opener == q && x.chans[c].peer == Some(q) && Count(xy, For(q)) == 0
    ensures GreetingsOk(x', y, xy + [m])
  {
    forall d: nat, p: nat | Speaks(x', d, p) && !x'.chans[d].opener && p < |y.chans| && y.chans[p].openWait
      ensures OpenFirst(xy + [m], p) && Count(xy + [m], Answers(p)) > 0
    {
      CountConcat(xy, [m], Answers(p));
      Single(m);
      if d == c {
        OpenFirstQuiet(xy, m, q);
      } else {
        assert Speaks(x, d, p);
        OpenFirstAppend(xy, m, p);
      }
    }
  }

  lemma GrantOther(x: Endpoint, x': Endpoint, y: Endpoint, yx: seq<Msg>, f: seq<Msg>, g: seq<Msg>, c: nat)
    requires LinksOk(y, x, yx, g, f) && OnlyChan(x, x', c) && x'.chans[c] == x.chans[c].(live := true)
    requires x'.dispatch == x.dispatch
    ensures LinksOk(y, x', yx, g, f)
  {
    forall q: nat ensures CountPeer(x'.chans, q) == CountPeer(x.chans, q) { PeerSame(x'.chans, x.chans, q); }
    forall d: nat ensures TokenOk(y, d, Tokens(x', g, f, d)) {
      assert TokenOk(y, d, Tokens(x, g, f, d));
    }
    forall d | 0 <= d < |y.chans| && y.chans[d].peer.Some? ensures MateOk(y, x', d) {
      assert MateOk(y, x, d);
    }
  }

  lemma LivePairs(cfg: Config, x: Endpoint, x': Endpoint, y: Endpoint, f: seq<Msg>, f': seq<Msg>, g: seq<Msg>, c: nat)
    requires PairsOk(cfg, x, y, f, g) && OnlyChan(x, x', c) && x'.chans[c] == x.chans[c].(live := true) && Same(f, f')
    ensures PairsOk(cfg, x', y, f', g)
  {
    SameAlike(f, f');
    SameAlike(g, g);
    forall p: nat | Mated(x', y, c, p) ensures PairOk(cfg, x', y, f', g, c, p) {
      assert Mated(x, y, c, p);
      LivePair(cfg, x, x', y, f, f', g, c, p);
    }
    PairsQuiet(cfg, x, x', y, f, f', g, g, c);
  }

  lemma LivePair(cfg: Config, x: Endpoint, x': Endpoint, y: Endpoint, f: seq<Msg>, f': seq<Msg>, g: seq<Msg>, c: nat, p: nat)
    requires c < |x.chans| && c < |x'.chans| && p < |y.chans| && PairOk(cfg, x, y, f, g, c, p)
    requires x'.chans[c] == x.chans[c].(live := true) && Alike(f, f')
    ensures PairOk(cfg, x', y, f', g, c, p)
  {
    var v := ViewOf(x.chans[c], y.chans[p], c, p, f, g);
    var w := ViewOf(y.chans[p], x.chans[c], p, c, g, f);
    TxIdle(cfg, v, x'.chans[c]);
    RxIdle(cfg, w, x'.chans[c]);
    PairBy(cfg, x', y, f', g, c, p, v.(s := x'.chans[c]), w.(t := x'.chans[c]));
  }

  lemma GrantInv(cfg: Config, x: Endpoint, x': Endpoint, y: Endpoint, xy: seq<Msg>, yx: seq<Msg>,
                 f: seq<Msg>, f': seq<Msg>, g: seq<Msg>, c: nat, m: Msg)
    requires InvAt(cfg, x, y, xy, yx, f, g) && EndpointOk(cfg, x') && SameGlobals(x, x') && Same(f, f')
    requires m.OpenOk? && m.sender == c && m in f && GrantOk(x, m) && !x.chans[c].live
    requires Count(xy, For(m.opener)) <= Count(f, For(m.opener))
    requires OnlyChan(x, x', c) && x'.chans[c] == x.chans[c].(live := true)
    ensures InvAt(cfg, x', y, xy + [m], yx, f', g)
  {
    SilentBefore(x, y, xy, f, g, c, m.opener);
    GrantOwn(x, x', y, xy, f, g, c, m.opener, m);
    SameOwn(x', y, xy + [m], f, f', g);
    GrantOther(x, x', y, yx, f, g, c);
    SameOther(x', y, yx, f, f', g);
    LivePairs(cfg, x, x', y, f, f', g, c);
    GlobalsIdle(x, x', y, f, f', g);
  }

  lemma WireBelow(e: Endpoint, wire: seq<Msg>, k: Key)
    ensures Count(wire, k) <= Count(Fly(e, wire), k)
  {
    assert Fly(e, wire) == wire + (Live(e.out) + e.ctrl);
    CountConcat(wire, Live(e.out) + e.ctrl, k);
  }

  lemma HeadFlies(e: Endpoint, wire: seq<Msg>)
    requires e.out != [] && !e.out[0].cancelled
    ensures e.out[0].msg in Fly(e, wire)
  {
    assert Live(e.out)[0] == e.out[0].msg;
    assert e.out[0].msg in Live(e.out);
  }

  lemma GrantEndpoint(cfg: Config, e: Endpoint, c: nat)
    requires EndpointOk(cfg, e) && e.out != [] && c < |e.chans| && e.chans[c].peer.Some? && !e.chans[c].state.Opening?
    ensures EndpointOk(cfg, SetChan(e.(out := e.out[1..]), c, e.chans[c].(live := true)))
  {
    OutTailOk(cfg, e);
    SetChanOk(cfg, e.(out := e.out[1..]), c, e.chans[c].(live := true));
  }

  lemma StepWriteGrant(cfg: Config, n: Net)
    requires Inv(cfg, n) && n.l.out != [] && !n.l.out[0].cancelled && n.l.out[0].msg.OpenOk?
    requires n.l.out[0].msg.sender < |n.l.chans| && !n.l.chans[n.l.out[0].msg.sender].live
    ensures Inv(cfg, n.(l := AfterWrite(n.l), lr := n.lr + Emits(n.l, WriteOutbound)))
  {
    var l, m, l' := n.l, n.l.out[0].msg, AfterWrite(n.l);
    var c := m.sender;
    assert Emits(l, WriteOutbound) == [m];
    assert WriteOk(l, l.out[0]);
    ChanFacts(cfg, n, c);
    HeadFlies(l, n.lr);
    assert GrantOk(l, m);
    GrantEndpoint(cfg, l, c);
    WireBelow(l, n.lr, For(m.opener));
    WriteOutboundSame(l, l', n.lr);
    GrantInv(cfg, l, l', n.r, n.lr, n.rl, Fly(l, n.lr), Fly(l', n.lr + [m]), Fly(n.r, n.rl), c, m);
  }

  lemma StepWritePlain(cfg: Config, n: Net)
    requires Inv(cfg, n) && n.l.out != []
    requires !n.l.out[0].cancelled && n.l.out[0].msg.OpenOk? ==> Granted(n.l, n.l.out[0].msg)
    ensures Inv(cfg, n.(l := AfterWrite(n.l), lr := n.lr + Emits(n.l, WriteOutbound)))
  {
    var l, l', em := n.l, AfterWrite(n.l), Emits(n.l, WriteOutbound);
    assert WriteOk(l, l.out[0]);
    OutTailOk(cfg, l);
    assert l'.chans == l.chans && l' == l.(out := l.out[1..]);
    WriteOutboundSame(l, l', n.lr);
    WrittenInv(cfg, l, l', n.r, n.lr, em, n.rl, Fly(l, n.lr), Fly(l', n.lr + em), Fly(n.r, n.rl));
  }

  lemma HeadKnown(cfg: Config, n: Net)
    requires Inv(cfg, n) && n.l.out != []
    ensures n.l.out[0].msg.OpenOk? ==> n.l.out[0].msg.sender < |n.l.chans|
  {
    assert WriteOk(n.l, n.l.out[0]);
  }

  lemma StepWrite(cfg: Config, n: Net)
    requires Inv(cfg, n) && n.l.out != []
    ensures Inv(cfg, n.(l := AfterWrite(n.l), lr := n.lr + Emits(n.l, WriteOutbound)))
  {
    HeadKnown(cfg, n);
    if !n.l.out[0].cancelled && n.l.out[0].msg.OpenOk? && !n.l.chans[n.l.out[0].msg.sender].live {
      StepWriteGrant(cfg, n);
    } else {
      StepWritePlain(cfg, n);
    }
  }

  // ----- global requests

  /** A message that concerns no channel joins the direction. */
  lemma MuteLinks(x: Endpoint, x': Endpoint, y: Endpoint, xy: seq<Msg>, yx: seq<Msg>, f: seq<Msg>, f': seq<Msg>, g: seq<Msg>, m: Msg)
    requires LinksOk(x, y, xy, f, g) && LinksOk(y, x, yx, g, f)
    requires x'.chans == x.chans && (forall d: nat :: Count(x'.dispatch, Opens(d)) == Count(x.dispatch, Opens(d)))
    requires Grew(f, f', m) && (m.GlobalRequest? || m.GlobalReply?)
    ensures LinksOk(x', y, xy, f', g) && LinksOk(y, x', yx, g, f')
  {
    forall k ensures Count(f', k) == Count(f, k) {
      assert Count(f', k) == Count(f, k) + CountOf(m, k);
    }
    IdleLinks(x, x', y, xy, yx, f, f', g);
  }

  lemma IdleLinks(x: Endpoint, x': Endpoint, y: Endpoint, xy: seq<Msg>, yx: seq<Msg>, f: seq<Msg>, f': seq<Msg>, g: seq<Msg>)
    requires LinksOk(x, y, xy, f, g) && LinksOk(y, x, yx, g, f)
    requires x'.chans == x.chans && (forall d: nat :: Count(x'.dispatch, Opens(d)) == Count(x.dispatch, Opens(d)))
    requires forall k :: Count(f', k) == Count(f, k)
    requires forall m :: m in f' && (m.OpenOk? || m.OpenReject?) ==> m in f
    ensures LinksOk(x', y, xy, f', g) && LinksOk(y, x', yx, g, f')
  {
    forall d: nat ensures TokenOk(x', d, Tokens(y, f', g, d)) {
      assert TokenOk(x, d, Tokens(y, f, g, d));
    }
    forall d: nat ensures TokenOk(y, d, Tokens(x', g, f', d)) {
      assert TokenOk(y, d, Tokens(x, g, f, d));
    }
    assert forall d: nat, q: nat :: Speaks(x', d, q) <==> Speaks(x, d, q);
    forall q: nat | Count(f', For(q)) > 0 ensures exists d: nat :: Speaks(x', d, q) {
      var d: nat :| Speaks(x, d, q);
      assert Speaks(x', d, q);
    }
    forall d: nat ensures Announced(x', d) == Announced(x, d) { }
    forall d | 0 <= d < |x'.chans| && x'.chans[d].peer.Some? ensures MateOk(x', y, d) {
      assert MateOk(x, y, d);
    }
    forall d | 0 <= d < |y.chans| && y.chans[d].peer.Some? ensures MateOk(y, x', d) {
      assert MateOk(y, x, d);
    }
  }

  lemma MuteAlike(f: seq<Msg>, f': seq<Msg>, m: Msg)
    requires Grew(f, f', m) && (m.GlobalRequest? || m.GlobalReply?)
    ensures Alike(f, f')
  {
    forall p: nat
      ensures Stream(f', p) == Stream(f, p) && Adjusts(f', p) == Adjusts(f, p)
      ensures Asks(f', Some(p)) == Asks(f, Some(p)) && Replies(f', Some(p)) == Replies(f, Some(p))
    {
      GrewPast(f, f', m, p);
    }
  }

  lemma MuteInv(cfg: Config, x: Endpoint, x': Endpoint, y: Endpoint, xy: seq<Msg>, yx: seq<Msg>,
                f: seq<Msg>, f': seq<Msg>, g: seq<Msg>, m: Msg)
    requires InvAt(cfg, x, y, xy, yx, f, g) && EndpointOk(cfg, x') && x'.chans == x.chans
    requires forall d: nat :: Count(x'.dispatch, Opens(d)) == Count(x.dispatch, Opens(d))
    requires Grew(f, f', m) && (m.GlobalRequest? || m.GlobalReply?) && StaticOk(cfg, m)
    requires GlobalsOk(x', y, f', g) && GlobalsOk(y, x', g, f')
    ensures InvAt(cfg, x', y, xy, yx, f', g)
  {
    MuteLinks(x, x', y, xy, yx, f, f', g, m);
    MuteAlike(f, f', m);
    SameAlike(g, g);
    PairsAlike(cfg, x, x', y, f, f', g, g);
  }

  lemma AskBag(asks: multiset<nat>, tasks: multiset<nat>, replies: multiset<nat>, pending: set<nat>, id: nat)
    requires asks + tasks + replies == multiset(pending) && id !in pending
    ensures asks + multiset{id} + tasks + replies == multiset(pending + {id})
  {
    assert multiset(pending + {id}) == multiset(pending) + multiset{id};
  }

  /** The books of the endpoint that asks. */
  lemma AskBooks(asks: multiset<nat>, asks': multiset<nat>, tasks: multiset<nat>, replies: multiset<nat>,
                 pending: set<nat>, pending': set<nat>, id: nat, want: bool)
    requires asks + tasks + replies == multiset(pending) && id !in pending
    requires asks' == asks + (if want then multiset{id} else multiset{}) && pending' == (if want then pending + {id} else pending)
    ensures asks' + tasks + replies == multiset(pending')
  {
    if want {
      AskBag(asks, tasks, replies, pending, id);
    }
  }

  lemma AskGlobals(x: Endpoint, x': Endpoint, y: Endpoint, f: seq<Msg>, f': seq<Msg>, g: seq<Msg>, m: Msg)
    requires GlobalsOk(x, y, f, g) && GlobalsOk(y, x, g, f) && m.GlobalRequest? && m.id == x.nextGlobal
    requires Asks(f', None) == Asks(f, None) + AskOf(m, None) && Replies(f', None) == Replies(f, None) + ReplyOf(m, None)
    requires x'.nextGlobal == m.id + 1 && x'.dispatch == x.dispatch && x'.incomingGlobal == x.incomingGlobal
    requires x'.pendingGlobal == (if m.want then x.pendingGlobal + {m.id} else x.pendingGlobal) && x'.forsaken == x.forsaken
    ensures GlobalsOk(x', y, f', g) && GlobalsOk(y, x', g, f')
  {
    assert Replies(f', None) == Replies(f, None);
    AskOwed(x, x', y, f, f', g, m);
  }

  lemma AskOwed(x: Endpoint, x': Endpoint, y: Endpoint, f: seq<Msg>, f': seq<Msg>, g: seq<Msg>, m: Msg)
    requires GlobalsOk(x, y, f, g) && m.GlobalRequest? && m.id == x.nextGlobal && x'.nextGlobal == m.id + 1
    requires Asks(f', None) == Asks(f, None) + AskOf(m, None)
    requires x'.pendingGlobal == (if m.want then x.pendingGlobal + {m.id} else x.pendingGlobal) && x'.forsaken == x.forsaken
    ensures GlobalsOk(x', y, f', g)
  {
    assert m.id !in Owed(x) && m.id !in y.incomingGlobal;
    assert Owed(x') == if m.want then Owed(x) + {m.id} else Owed(x);
    AskBooks(Asks(f, None), Asks(f', None), Asks(y.dispatch, None), Replies(g, None), Owed(x), Owed(x'), m.id, m.want);
  }

  lemma StepSendGlobal(cfg: Config, n: Net, typ: string, payload: Bytes, want: bool)
    requires Inv(cfg, n) && Enabled(cfg, n.l, SendGlobal(typ, payload, want))
    ensures Inv(cfg, n.(l := Next(cfg, n.l, SendGlobal(typ, payload, want))))
  {
    var l, l' := n.l, Next(cfg, n.l, SendGlobal(typ, payload, want));
    var m := GlobalRequest(l.nextGlobal, typ, want, payload);
    var mid := l.(nextGlobal := m.id + 1, pendingGlobal := if want then l.pendingGlobal + {m.id} else l.pendingGlobal);
    IdleEndpoint(cfg, l, mid);
    PutOutOk(cfg, mid, m, None);
    OutGrows(mid, n.lr, m, None);
    assert Fly(mid, n.lr) == Fly(l, n.lr);
    AskGlobals(l, l', n.r, Fly(l, n.lr), Fly(l', n.lr), Fly(n.r, n.rl), m);
    MuteInv(cfg, l, l', n.r, n.lr, n.rl, Fly(l, n.lr), Fly(l', n.lr), Fly(n.r, n.rl), m);
  }

  lemma IdleEndpoint(cfg: Config, e: Endpoint, e': Endpoint)
    requires EndpointOk(cfg, e) && e'.chans == e.chans && e'.peers == e.peers && e'.ctrl == e.ctrl && e'.out == e.out
    requires forall m :: m in e'.dispatch ==> m in e.dispatch
    ensures EndpointOk(cfg, e')
  {
    forall i | 0 <= i < |e'.out| ensures WriteOk(e', e'.out[i]) {
      assert WriteOk(e, e.out[i]);
    }
    forall c: nat | InTable(e', c) && e'.chans[c].peer.Some?
      ensures e'.chans[c].peer.value in e'.peers && e'.peers[e'.chans[c].peer.value] == c
    {
      assert InTable(e, c);
    }
    forall m | m in e'.dispatch && m.Open? ensures TaskOk(e', m.sender) {
      assert TaskOk(e, m.sender);
    }
  }

  lemma AnswerGlobals(x: Endpoint, x': Endpoint, y: Endpoint, f: seq<Msg>, f': seq<Msg>, g: seq<Msg>, m: Msg)
    requires GlobalsOk(x, y, f, g) && GlobalsOk(y, x, g, f) && Grew(f, f', m) && m.GlobalReply?
    requires x.dispatch != [] && x.dispatch[0].GlobalRequest? && x.dispatch[0].want && x.dispatch[0].id == m.id
    requires x'.dispatch == x.dispatch[1..] && x'.pendingGlobal == x.pendingGlobal && x'.forsaken == x.forsaken && x'.nextGlobal == x.nextGlobal
    requires x'.incomingGlobal == x.incomingGlobal
    ensures GlobalsOk(x', y, f', g) && GlobalsOk(y, x', g, f')
  {
    assert Asks(f', None) == Asks(f, None) + AskOf(m, None);
    assert Replies(f', None) == Replies(f, None) + ReplyOf(m, None);
    assert Asks(x.dispatch, None) == multiset{m.id} + Asks(x'.dispatch, None);
  }

  lemma AnswerEndpoint(cfg: Config, e: Endpoint, m: Msg)
    requires EndpointOk(cfg, e) && e.dispatch != [] && m.GlobalReply?
    ensures EndpointOk(cfg, PutOut(e.(dispatch := e.dispatch[1..]), m, None))
  {
    IdleEndpoint(cfg, e, e.(dispatch := e.dispatch[1..]));
    PutOutOk(cfg, e.(dispatch := e.dispatch[1..]), m, None);
  }

  lemma OpensKept(dispatch: seq<Msg>)
    requires dispatch != [] && dispatch[0].GlobalRequest?
    ensures forall d: nat :: Count(dispatch[1..], Opens(d)) == Count(dispatch, Opens(d))
  {
  }

  lemma HandleWantShape(cfg: Config, e: Endpoint, wire: seq<Msg>, v: Verdict, m: Msg)
    requires RoomForRejects(cfg) && EndpointOk(cfg, e) && Enabled(cfg, e, HandleGlobal(v)) && e.dispatch[0].want
    requires m == GlobalReply(e.dispatch[0].id, Answer(v, "global-request-rejected", "global request rejected"))
    ensures var e' := Next(cfg, e, HandleGlobal(v));
            && e' == PutOut(e.(dispatch := e.dispatch[1..]), m, None) && StaticOk(cfg, m)
            && EndpointOk(cfg, e') && Grew(Fly(e, wire), Fly(e', wire), m)
  {
    var mid := e.(dispatch := e.dispatch[1..]);
    AnswerEndpoint(cfg, e, m);
    OutGrows(mid, wire, m, None);
    assert Fly(mid, wire) == Fly(e, wire);
  }

  lemma StepHandleGlobalWant(cfg: Config, n: Net, v: Verdict)
    requires RoomForRejects(cfg) && Inv(cfg, n) && Enabled(cfg, n.l, HandleGlobal(v)) && n.l.dispatch[0].want
    ensures Inv(cfg, n.(l := Next(cfg, n.l, HandleGlobal(v))))
  {
    var l, l' := n.l, Next(cfg, n.l, HandleGlobal(v));
    var m := GlobalReply(l.dispatch[0].id, Answer(v, "global-request-rejected", "global request rejected"));
    HandleWantShape(cfg, l, n.lr, v, m);
    OpensKept(l.dispatch);
    AnswerGlobals(l, l', n.r, Fly(l, n.lr), Fly(l', n.lr), Fly(n.r, n.rl), m);
    MuteInv(cfg, l, l', n.r, n.lr, n.rl, Fly(l, n.lr), Fly(l', n.lr), Fly(n.r, n.rl), m);
  }

  /** A change that no direction and no channel sees. */
  lemma IdleInv(cfg: Config, x: Endpoint, x': Endpoint, y: Endpoint, xy: seq<Msg>, yx: seq<Msg>, f: seq<Msg>, g: seq<Msg>)
    requires InvAt(cfg, x, y, xy, yx, f, g) && EndpointOk(cfg, x') && x'.chans == x.chans
    requires forall d: nat :: Count(x'.dispatch, Opens(d)) == Count(x.dispatch, Opens(d))
    requires GlobalsOk(x', y, f, g) && GlobalsOk(y, x', g, f)
    ensures InvAt(cfg, x', y, xy, yx, f, g)
  {
    IdleLinks(x, x', y, xy, yx, f, f, g);
    SameAlike(f, f);
    SameAlike(g, g);
    PairsAlike(cfg, x, x', y, f, f, g, g);
  }

  lemma StepHandleGlobalPlain(cfg: Config, n: Net, v: Verdict)
    requires Inv(cfg, n) && Enabled(cfg, n.l, HandleGlobal(v)) && !n.l.dispatch[0].want
    ensures Inv(cfg, n.(l := Next(cfg, n.l, HandleGlobal(v))))
  {
    var l, l' := n.l, n.l.(dispatch := n.l.dispatch[1..]);
    IdleEndpoint(cfg, l, l');
    assert Asks(l.dispatch, None) == multiset{} + Asks(l'.dispatch, None);
    IdleInv(cfg, l, l', n.r, n.lr, n.rl, Fly(l, n.lr), Fly(n.r, n.rl));
  }

  lemma StepFinishGlobal(cfg: Config, n: Net, id: nat)
    requires Inv(cfg, n) && Enabled(cfg, n.l, FinishGlobal(id))
    ensures Inv(cfg, n.(l := Next(cfg, n.l, FinishGlobal(id))))
  {
    var l, l' := n.l, Next(cfg, n.l, FinishGlobal(id));
    IdleEndpoint(cfg, l, l');
    IdleInv(cfg, l, l', n.r, n.lr, n.rl, Fly(l, n.lr), Fly(n.r, n.rl));
  }

  /** A caller gives up: the reply is still owed. */
  lemma StepAbandonGlobal(cfg: Config, n: Net, id: nat)
    requires Inv(cfg, n) && Enabled(cfg, n.l, AbandonGlobal(id))
    ensures Inv(cfg, n.(l := Next(cfg, n.l, AbandonGlobal(id))))
  {
    var l, l' := n.l, Next(cfg, n.l, AbandonGlobal(id));
    assert Owed(l') == Owed(l);
    IdleEndpoint(cfg, l, l');
    IdleInv(cfg, l, l', n.r, n.lr, n.rl, Fly(l, n.lr), Fly(n.r, n.rl));
  }

  /** A global request that is taken out of the queue leaves everything about channels as it was. */
  lemma LostMute(f: seq<Msg>, f': seq<Msg>, m: Msg)
    requires Lost(f, f', m) && m.GlobalRequest?
    ensures Alike(f, f') && forall k :: Count(f', k) == Count(f, k)
  {
    forall p: nat
      ensures Stream(f', p) == Stream(f, p) && Adjusts(f', p) == Adjusts(f, p)
      ensures Asks(f', Some(p)) == Asks(f, Some(p)) && Replies(f', Some(p)) == Replies(f, Some(p))
    {
      NoCut(Stream(f, p), Stream(f', p));
      assert Asks(f, Some(p)) == Asks(f', Some(p)) + AskOf(m, Some(p)) && Replies(f, Some(p)) == Replies(f', Some(p)) + ReplyOf(m, Some(p));
    }
    forall k ensures Count(f', k) == Count(f, k) {
      assert Count(f, k) == Count(f', k) + CountOf(m, k);
    }
  }

  lemma UnaskBag(asks: multiset<nat>, asks': multiset<nat>, tasks: multiset<nat>, replies: multiset<nat>, owed: set<nat>, id: nat)
    requires asks + tasks + replies == multiset(owed) && asks == asks' + multiset{id}
    ensures asks' + tasks + replies == multiset(owed - {id})
  {
    assert (asks + tasks + replies)[id] >= 1;
    assert multiset(owed)[id] >= 1;
    assert multiset(owed - {id}) == multiset(owed) - multiset{id};
  }

  lemma UnaskGlobals(x: Endpoint, x': Endpoint, y: Endpoint, f: seq<Msg>, f': seq<Msg>, g: seq<Msg>, m: Msg)
    requires GlobalsOk(x, y, f, g) && GlobalsOk(y, x, g, f) && Lost(f, f', m) && m.GlobalRequest?
    requires x'.dispatch == x.dispatch && x'.incomingGlobal == x.incomingGlobal && x'.nextGlobal == x.nextGlobal
    requires var gone := if m.want then {m.id} else {}; x'.pendingGlobal == x.pendingGlobal - gone && x'.forsaken == x.forsaken - gone
    ensures GlobalsOk(x', y, f', g) && GlobalsOk(y, x', g, f')
  {
    assert Replies(f, None) == Replies(f', None) + ReplyOf(m, None);
    assert Replies(f', None) == Replies(f, None);
    UnaskBooks(x, x', y, f, f', g, m);
  }

  lemma UnaskBooks(x: Endpoint, x': Endpoint, y: Endpoint, f: seq<Msg>, f': seq<Msg>, g: seq<Msg>, m: Msg)
    requires GlobalsOk(x, y, f, g) && Lost(f, f', m) && m.GlobalRequest? && x'.nextGlobal == x.nextGlobal
    requires var gone := if m.want then {m.id} else {}; x'.pendingGlobal == x.pendingGlobal - gone && x'.forsaken == x.forsaken - gone
    ensures GlobalsOk(x', y, f', g)
  {
    assert Asks(f, None) == Asks(f', None) + AskOf(m, None);
    if m.want {
      UnaskBag(Asks(f, None), Asks(f', None), Asks(y.dispatch, None), Replies(g, None), Owed(x), m.id);
      assert Owed(x') == Owed(x) - {m.id};
    } else {
      assert Asks(f', None) == Asks(f, None) && Owed(x') == Owed(x);
    }
  }

  lemma StepCancelGlobal(cfg: Config, n: Net, i: nat)
    requires Inv(cfg, n) && Enabled(cfg, n.l, CancelGlobal(i))
    ensures Inv(cfg, n.(l := Next(cfg, n.l, CancelGlobal(i))))
  {
    var l, m, l' := n.l, n.l.out[i].msg, AfterUnasked(n.l, i);
    var mid := l.(out := l.out[i := l.out[i].(cancelled := true)]);
    var f, f', g := Fly(l, n.lr), Fly(l', n.lr), Fly(n.r, n.rl);
    MarkOk(cfg, l, i);
    IdleEndpoint(cfg, mid, l');
    CancelLoses(l, l', n.lr, i);
    LostMute(f, f', m);
    UnaskGlobals(l, l', n.r, f, f', g, m);
    UnaskInv(cfg, l, l', n.r, n.lr, n.rl, f, f', g, m);
  }

  lemma UnaskInv(cfg: Config, x: Endpoint, x': Endpoint, y: Endpoint, xy: seq<Msg>, yx: seq<Msg>,
                 f: seq<Msg>, f': seq<Msg>, g: seq<Msg>, m: Msg)
    requires InvAt(cfg, x, y, xy, yx, f, g) && EndpointOk(cfg, x') && x'.chans == x.chans && x'.dispatch == x.dispatch
    requires Lost(f, f', m) && Alike(f, f') && forall k :: Count(f', k) == Count(f, k)
    requires GlobalsOk(x', y, f', g) && GlobalsOk(y, x', g, f')
    ensures InvAt(cfg, x', y, xy, yx, f', g)
  {
    IdleLinks(x, x', y, xy, yx, f, f', g);
    SameAlike(g, g);
    PairsAlike(cfg, x, x', y, f, f', g, g);
  }

  lemma StepSpendGlobal(cfg: Config, n: Net)
    requires Inv(cfg, n) && Enabled(cfg, n.l, SpendGlobalId)
    ensures Inv(cfg, n.(l := Next(cfg, n.l, SpendGlobalId)))
  {
    var l, l' := n.l, Next(cfg, n.l, SpendGlobalId);
    IdleEndpoint(cfg, l, l');
    IdleInv(cfg, l, l', n.r, n.lr, n.rl, Fly(l, n.lr), Fly(n.r, n.rl));
  }
}
