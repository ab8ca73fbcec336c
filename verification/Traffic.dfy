/** The application's and the workers' moves on channels that are open keep the invariant. */
module Traffic {
  import opened Types
  import opened SessionConfig
  import opened Envelope
  import opened Channel
  import opened Endpoint
  import opened Flight
  import opened Direction
  import opened PairEvents
  import opened Network
  import opened Links
  import opened Mates

  predicate ReqMono(a: Chan, b: Chan) {
    a.nextRequest <= b.nextRequest && forall id :: id in b.pending ==> id in a.pending || id >= a.nextRequest
  }

  predicate SameLink(a: Chan, b: Chan) {
    && b.opener == a.opener && b.peer == a.peer && b.slot == a.slot && b.openWait == a.openWait
    && b.live == a.live && b.spoiled == a.spoiled && (b.state.Opening? <==> a.state.Opening?)
  }

  /** b is a after ordinary traffic. */
  predicate Kept(cfg: Config, a: Chan, b: Chan) {
    SameLink(a, b) && ReqMono(a, b) && ChanOk(b) && SendOk(cfg, b)
  }

  lemma SetChanOk(cfg: Config, e: Endpoint, c: nat, ch: Chan)
    requires EndpointOk(cfg, e) && c < |e.chans| && ChanOk(ch) && SendOk(cfg, ch)
    requires ch.opener == e.chans[c].opener && ch.peer == e.chans[c].peer && ch.slot == e.chans[c].slot
    requires e.chans[c].live ==> ch.live
    requires ReqMono(e.chans[c], ch)
    ensures EndpointOk(cfg, SetChan(e, c, ch))
  {
    var e' := SetChan(e, c, ch);
    forall i | 0 <= i < |e'.out| ensures WriteOk(e', e'.out[i]) {
      assert WriteOk(e, e.out[i]);
    }
    assert PeersOk(e') by {
      forall d: nat | InTable(e', d) && e'.chans[d].peer.Some?
        ensures e'.chans[d].peer.value in e'.peers && e'.peers[e'.chans[d].peer.value] == d
      {
        assert InTable(e, d);
      }
    }
  }

  lemma PutOutOk(cfg: Config, e: Endpoint, m: Msg, from: Option<nat>)
    requires EndpointOk(cfg, e) && WriteOk(e, Write(m, from, false))
    ensures EndpointOk(cfg, PutOut(e, m, from))
  {
    var e' := PutOut(e, m, from);
    forall i | 0 <= i < |e'.out| ensures WriteOk(e', e'.out[i]) {
      if i < |e.out| {
        assert WriteOk(e, e.out[i]);
      }
    }
  }

  lemma GlobalsIdle(x: Endpoint, x': Endpoint, y: Endpoint, f: seq<Msg>, f': seq<Msg>, g: seq<Msg>)
    requires GlobalsOk(x, y, f, g) && GlobalsOk(y, x, g, f)
    requires Asks(f', None) == Asks(f, None) && Replies(f', None) == Replies(f, None)
    requires x'.pendingGlobal == x.pendingGlobal && x'.forsaken == x.forsaken && x'.nextGlobal == x.nextGlobal
    requires x'.incomingGlobal == x.incomingGlobal && x'.dispatch == x.dispatch
    ensures GlobalsOk(x', y, f', g) && GlobalsOk(y, x', g, f')
  {
  }

  /** The pair of c and q once channel c of x is ch and m is under way to y. */
  ghost predicate PairAfter(cfg: Config, x: Endpoint, y: Endpoint, f: seq<Msg>, g: seq<Msg>, c: nat, q: nat, ch: Chan, m: Msg)
    requires c < |x.chans| && q < |y.chans|
  {
    var v := ViewOf(x.chans[c], y.chans[q], c, q, f, g);
    var w := ViewOf(y.chans[q], x.chans[c], q, c, g, f);
    && DirOk(cfg, v.(s := ch, items := v.items + StreamOf(m, q), asks := v.asks + AskOf(m, Some(q))))
    && DirOk(cfg, w.(t := ch, credit := w.credit + AdjustOf(m, q), replies := w.replies + ReplyOf(m, Some(q))))
  }

  lemma TrafficPairs(cfg: Config, x: Endpoint, x': Endpoint, y: Endpoint, f: seq<Msg>, f': seq<Msg>, g: seq<Msg>,
                     c: nat, q: nat, m: Msg)
    requires PairsOk(cfg, x, y, f, g) && Linked(x, y, f, g)
    requires OnlyChan(x, x', c) && SameLink(x.chans[c], x'.chans[c]) && x.chans[c].peer == Some(q) && q < |y.chans|
    requires Addressed(m) && m.to == q && Grew(f, f', m)
    requires Mated(x, y, c, q) ==> PairAfter(cfg, x, y, f, g, c, q, x'.chans[c], m)
    ensures PairsOk(cfg, x', y, f', g)
  {
    GrewOnly(f, f', m);
    SameOnly(g, g, c);
    if Mated(x', y, c, q) {
      assert Mated(x, y, c, q);
      ViewGrew(x.chans[c], x'.chans[c], y.chans[q], f, f', g, c, q, m);
      PairBy(cfg, x', y, f', g, c, q, ViewOf(x'.chans[c], y.chans[q], c, q, f', g), ViewOf(y.chans[q], x'.chans[c], q, c, g, f'));
    }
    PairsFrame(cfg, x, x', y, f, f', g, g, c, q);
  }

  /** The pair whose directions look like v and w. */
  lemma PairBy(cfg: Config, x: Endpoint, y: Endpoint, f: seq<Msg>, g: seq<Msg>, c: nat, q: nat, v: View, w: View)
    requires c < |x.chans| && q < |y.chans| && DirOk(cfg, v) && DirOk(cfg, w)
    requires v == ViewOf(x.chans[c], y.chans[q], c, q, f, g) && w == ViewOf(y.chans[q], x.chans[c], q, c, g, f)
    ensures PairOk(cfg, x, y, f, g, c, q)
  {
  }

  lemma ViewGrew(s: Chan, s': Chan, t: Chan, f: seq<Msg>, f': seq<Msg>, g: seq<Msg>, c: nat, q: nat, m: Msg)
    requires Grew(f, f', m)
    ensures var v := ViewOf(s, t, c, q, f, g);
            ViewOf(s', t, c, q, f', g) == v.(s := s', items := v.items + StreamOf(m, q), asks := v.asks + AskOf(m, Some(q)))
    ensures var w := ViewOf(t, s, q, c, g, f);
            ViewOf(t, s', q, c, g, f') == w.(t := s', credit := w.credit + AdjustOf(m, q), replies := w.replies + ReplyOf(m, Some(q)))
  {
  }

  lemma TrafficLinks(x: Endpoint, x': Endpoint, y: Endpoint, xy: seq<Msg>, yx: seq<Msg>,
                     f: seq<Msg>, f': seq<Msg>, g: seq<Msg>, c: nat, m: Msg)
    requires LinksOk(x, y, xy, f, g) && LinksOk(y, x, yx, g, f) && AllCalm(x, x', y)
    requires Addressed(m) && !m.Close? && Speaks(x, c, m.to) && Grew(f, f', m)
    ensures LinksOk(x', y, xy, f', g) && LinksOk(y, x', yx, g, f')
  {
    CalmOwn(x, x', y, xy, f, g);
    CalmSpeaks(x, x', y);
    GrewOwn(x', y, xy, f, f', g, m, c);
    CalmOther(x, x', y, yx, f, g);
    GrewOther(x', y, yx, f, f', g, m);
  }

  lemma OnlyCalm(x: Endpoint, x': Endpoint, y: Endpoint, c: nat)
    requires OnlyChan(x, x', c) && SameLink(x.chans[c], x'.chans[c]) && x'.dispatch == x.dispatch
    ensures AllCalm(x, x', y)
  {
  }

  /** Any update of a held channel that queues a message for its mate. */
  lemma TrafficOut(cfg: Config, n: Net, c: nat, q: nat, ch: Chan, m: Msg)
    requires Inv(cfg, n) && Speaks(n.l, c, q)
    requires Addressed(m) && !m.Close? && m.to == q && StaticOk(cfg, m)
    requires Kept(cfg, n.l.chans[c], ch)
    requires m.Request? && !m.want ==> m.id !in ch.pending && m.id < ch.nextRequest
    requires q < |n.r.chans|
    requires Mated(n.l, n.r, c, q) ==> PairAfter(cfg, n.l, n.r, Fly(n.l, n.lr), Fly(n.r, n.rl), c, q, ch, m)
    ensures Inv(cfg, n.(l := PutOut(SetChan(n.l, c, ch), m, Some(c))))
  {
    var l, r := n.l, n.r;
    var l' := PutOut(SetChan(l, c, ch), m, Some(c));
    var f, f', g := Fly(l, n.lr), Fly(l', n.lr), Fly(r, n.rl);
    TrafficEndpoint(cfg, l, c, ch, m);
    OutGrows(SetChan(l, c, ch), n.lr, m, Some(c));
    assert Fly(SetChan(l, c, ch), n.lr) == f;
    TrafficInv(cfg, l, l', r, n.lr, n.rl, f, f', g, c, q, m);
  }

  lemma TrafficEndpoint(cfg: Config, e: Endpoint, c: nat, ch: Chan, m: Msg)
    requires EndpointOk(cfg, e) && c < |e.chans| && e.chans[c].live && e.chans[c].peer.Some?
    requires Addressed(m) && !m.Close? && m.to == e.chans[c].peer.value
    requires Kept(cfg, e.chans[c], ch)
    requires m.Request? && !m.want ==> m.id !in ch.pending && m.id < ch.nextRequest
    ensures EndpointOk(cfg, PutOut(SetChan(e, c, ch), m, Some(c)))
  {
    SetChanOk(cfg, e, c, ch);
    PutOutOk(cfg, SetChan(e, c, ch), m, Some(c));
  }

  lemma TrafficInv(cfg: Config, x: Endpoint, x': Endpoint, y: Endpoint, xy: seq<Msg>, yx: seq<Msg>,
                   f: seq<Msg>, f': seq<Msg>, g: seq<Msg>, c: nat, q: nat, m: Msg)
    requires InvAt(cfg, x, y, xy, yx, f, g) && EndpointOk(cfg, x')
    requires OnlyChan(x, x', c) && SameLink(x.chans[c], x'.chans[c]) && Speaks(x, c, q) && q < |y.chans|
    requires x'.dispatch == x.dispatch && x'.pendingGlobal == x.pendingGlobal && x'.forsaken == x.forsaken && x'.nextGlobal == x.nextGlobal
    requires x'.incomingGlobal == x.incomingGlobal
    requires Addressed(m) && !m.Close? && m.to == q && StaticOk(cfg, m) && Grew(f, f', m)
    requires Mated(x, y, c, q) ==> PairAfter(cfg, x, y, f, g, c, q, x'.chans[c], m)
    ensures InvAt(cfg, x', y, xy, yx, f', g)
  {
    OnlyCalm(x, x', y, c);
    TrafficLinks(x, x', y, xy, yx, f, f', g, c, m);
    TrafficPairs(cfg, x, x', y, f, f', g, c, q, m);
    GlobalsIdle(x, x', y, f, f', g);
  }

  /** Any update of a channel that sends nothing. */
  lemma TrafficQuiet(cfg: Config, n: Net, c: nat, ch: Chan)
    requires Inv(cfg, n) && c < |n.l.chans|
    requires Kept(cfg, n.l.chans[c], ch)
    requires PairsWith(cfg, n.l, n.r, Fly(n.l, n.lr), Fly(n.r, n.rl), c, ch)
    ensures Inv(cfg, n.(l := SetChan(n.l, c, ch)))
  {
    var l' := SetChan(n.l, c, ch);
    var f, g := Fly(n.l, n.lr), Fly(n.r, n.rl);
    assert Fly(l', n.lr) == f;
    SetChanOk(cfg, n.l, c, ch);
    WithPairs(cfg, n.l, n.r, f, g, c, ch);
    QuietInv(cfg, n.l, l', n.r, n.lr, n.rl, f, g, c);
  }

  lemma WithPairs(cfg: Config, x: Endpoint, y: Endpoint, f: seq<Msg>, g: seq<Msg>, c: nat, ch: Chan)
    requires c < |x.chans| && SameLink(x.chans[c], ch) && PairsWith(cfg, x, y, f, g, c, ch)
    ensures forall q: nat :: Mated(SetChan(x, c, ch), y, c, q) ==> PairOk(cfg, SetChan(x, c, ch), y, f, g, c, q)
  {
    forall q: nat | Mated(SetChan(x, c, ch), y, c, q) ensures PairOk(cfg, SetChan(x, c, ch), y, f, g, c, q) {
      assert Mated(x, y, c, q);
      assert PairWith(cfg, x, y, f, g, c, q, ch);
    }
  }

  lemma QuietInv(cfg: Config, x: Endpoint, x': Endpoint, y: Endpoint, xy: seq<Msg>, yx: seq<Msg>,
                 f: seq<Msg>, g: seq<Msg>, c: nat)
    requires InvAt(cfg, x, y, xy, yx, f, g) && EndpointOk(cfg, x')
    requires OnlyChan(x, x', c) && SameLink(x.chans[c], x'.chans[c])
    requires x'.dispatch == x.dispatch && x'.pendingGlobal == x.pendingGlobal && x'.forsaken == x.forsaken && x'.nextGlobal == x.nextGlobal
    requires x'.incomingGlobal == x.incomingGlobal
    requires forall q: nat :: Mated(x', y, c, q) ==> PairOk(cfg, x', y, f, g, c, q)
    ensures InvAt(cfg, x', y, xy, yx, f, g)
  {
    OnlyCalm(x, x', y, c);
    CalmOwn(x, x', y, xy, f, g);
    CalmOther(x, x', y, yx, f, g);
    PairsQuiet(cfg, x, x', y, f, f, g, g, c);
    GlobalsIdle(x, x', y, f, f, g);
  }

  /** The pair of c and q with channel c of x replaced by ch. */
  ghost predicate PairWith(cfg: Config, x: Endpoint, y: Endpoint, f: seq<Msg>, g: seq<Msg>, c: nat, q: nat, ch: Chan)
    requires q < |y.chans|
  {
    DirOk(cfg, ViewOf(ch, y.chans[q], c, q, f, g)) && DirOk(cfg, ViewOf(y.chans[q], ch, q, c, g, f))
  }

  ghost predicate PairsWith(cfg: Config, x: Endpoint, y: Endpoint, f: seq<Msg>, g: seq<Msg>, c: nat, ch: Chan) {
    forall q: nat :: Mated(x, y, c, q) ==> PairWith(cfg, x, y, f, g, c, q, ch)
  }

  /** The two directions of a pair. */
  lemma Views(cfg: Config, x: Endpoint, y: Endpoint, f: seq<Msg>, g: seq<Msg>, c: nat, q: nat) returns (v: View, w: View)
    requires PairsOk(cfg, x, y, f, g) && Mated(x, y, c, q)
    ensures v == ViewOf(x.chans[c], y.chans[q], c, q, f, g) && DirOk(cfg, v)
    ensures w == ViewOf(y.chans[q], x.chans[c], q, c, g, f) && DirOk(cfg, w)
  {
    v := ViewOf(x.chans[c], y.chans[q], c, q, f, g);
    w := ViewOf(y.chans[q], x.chans[c], q, c, g, f);
    assert PairOk(cfg, x, y, f, g, c, q);
  }

  /** A held channel with a mate is open, and its mate is the peer it knows. */
  lemma HeldOpen(x: Endpoint, y: Endpoint, c: nat, q: nat)
    requires MatesOk(x, y) && MatesOk(y, x) && Mated(x, y, c, q)
    requires x.chans[c].live && ChanOk(x.chans[c]) && x.chans[c].peer.Some?
    ensures x.chans[c].state.AllowsRequests() && x.chans[c].slot == Active && x.chans[c].peer == Some(q)
  {
    assert MateOk(x, y, c);
    if !y.chans[q].opener && y.chans[q].peer == Some(c) {
      assert MateOk(y, x, q);
    }
  }

  lemma ChanFacts(cfg: Config, n: Net, c: nat)
    requires Inv(cfg, n) && c < |n.l.chans|
    ensures ChanOk(n.l.chans[c]) && SendOk(cfg, n.l.chans[c])
    ensures n.l.chans[c].peer.Some? ==> n.l.chans[c].peer.value < |n.r.chans|
  {
    if n.l.chans[c].peer.Some? {
      assert MateOk(n.l, n.r, c);
    }
  }

  // ----- Send

  lemma ReserveKept(cfg: Config, ch: Chan, frame: Bytes)
    requires ChanOk(ch) && SendOk(cfg, ch) && ch.peer.Some? && CanReserve(ch, frame)
    ensures Kept(cfg, ch, Reserve(ch, frame))
  {
  }

  lemma ReservePairs(cfg: Config, x: Endpoint, y: Endpoint, f: seq<Msg>, g: seq<Msg>, c: nat, frame: Bytes)
    requires PairsOk(cfg, x, y, f, g) && c < |x.chans| && x.chans[c].peer.Some? && CanReserve(x.chans[c], frame)
    ensures PairsWith(cfg, x, y, f, g, c, Reserve(x.chans[c], frame))
  {
    forall q: nat | Mated(x, y, c, q) ensures PairWith(cfg, x, y, f, g, c, q, Reserve(x.chans[c], frame)) {
      var v, w := Views(cfg, x, y, f, g, c, q);
      Reserving(cfg, v, w, frame);
    }
  }

  lemma StepReserve(cfg: Config, n: Net, c: nat, frame: Bytes)
    requires Inv(cfg, n) && Enabled(cfg, n.l, ReserveSend(c, frame))
    ensures Inv(cfg, n.(l := Next(cfg, n.l, ReserveSend(c, frame))))
  {
    ChanFacts(cfg, n, c);
    ReserveKept(cfg, n.l.chans[c], frame);
    ReservePairs(cfg, n.l, n.r, Fly(n.l, n.lr), Fly(n.r, n.rl), c, frame);
    TrafficQuiet(cfg, n, c, Reserve(n.l.chans[c], frame));
  }

  lemma QueueKept(cfg: Config, ch: Chan, i: nat)
    requires ChanOk(ch) && SendOk(cfg, ch) && i < |ch.reserved|
    ensures Kept(cfg, ch, Queued(ch, i))
  {
  }

  lemma QueuePair(cfg: Config, x: Endpoint, y: Endpoint, f: seq<Msg>, g: seq<Msg>, c: nat, q: nat, i: nat)
    requires PairsOk(cfg, x, y, f, g) && c < |x.chans| && q < |y.chans| && i < |x.chans[c].reserved| && !x.chans[c].state.SentEof()
    ensures Mated(x, y, c, q) ==> PairAfter(cfg, x, y, f, g, c, q, Queued(x.chans[c], i), Data(q, x.chans[c].reserved[i]))
  {
    if Mated(x, y, c, q) {
      var v, w := Views(cfg, x, y, f, g, c, q);
      Queueing(cfg, v, w, i);
      DataEffect(v, w, q, x.chans[c].reserved[i]);
    }
  }

  lemma DataEffect(v: View, w: View, q: nat, data: Bytes)
    ensures var m := Data(q, data);
            && v.items + StreamOf(m, q) == v.items + [Frame(data)]
            && v.asks + AskOf(m, Some(q)) == v.asks
            && w.credit + AdjustOf(m, q) == w.credit
            && w.replies + ReplyOf(m, Some(q)) == w.replies
  {
  }

  lemma StepQueue(cfg: Config, n: Net, c: nat, i: nat)
    requires Inv(cfg, n) && Enabled(cfg, n.l, QueueSend(c, i)) && !n.l.chans[c].state.SentEof()
    ensures Inv(cfg, n.(l := Next(cfg, n.l, QueueSend(c, i))))
  {
    var q := n.l.chans[c].peer.value;
    ChanFacts(cfg, n, c);
    QueueKept(cfg, n.l.chans[c], i);
    QueuePair(cfg, n.l, n.r, Fly(n.l, n.lr), Fly(n.r, n.rl), c, q, i);
    TrafficOut(cfg, n, c, q, Queued(n.l.chans[c], i), Data(q, n.l.chans[c].reserved[i]));
  }

  function Refunded(ch: Chan, i: nat): Chan
    requires i < |ch.reserved|
  {
    Refund(ch, |ch.reserved[i]|).(reserved := Drop(ch.reserved, i))
  }

  lemma FailKept(cfg: Config, ch: Chan, i: nat)
    requires ChanOk(ch) && SendOk(cfg, ch) && i < |ch.reserved|
    ensures Kept(cfg, ch, Refunded(ch, i))
  {
  }

  lemma FailPairs(cfg: Config, x: Endpoint, y: Endpoint, f: seq<Msg>, g: seq<Msg>, c: nat, i: nat)
    requires Checked(cfg) && PairsOk(cfg, x, y, f, g) && c < |x.chans| && x.chans[c].peer.Some? && i < |x.chans[c].reserved|
    ensures PairsWith(cfg, x, y, f, g, c, Refunded(x.chans[c], i))
  {
    forall q: nat | Mated(x, y, c, q) ensures PairWith(cfg, x, y, f, g, c, q, Refunded(x.chans[c], i)) {
      var v, w := Views(cfg, x, y, f, g, c, q);
      Refunding(cfg, v, w, i, Refunded(x.chans[c], i));
    }
  }

  lemma StepFailSend(cfg: Config, n: Net, c: nat, i: nat)
    requires Checked(cfg) && Inv(cfg, n) && Enabled(cfg, n.l, FailSend(c, i))
    ensures Inv(cfg, n.(l := Next(cfg, n.l, FailSend(c, i))))
  {
    ChanFacts(cfg, n, c);
    FailKept(cfg, n.l.chans[c], i);
    FailPairs(cfg, n.l, n.r, Fly(n.l, n.lr), Fly(n.r, n.rl), c, i);
    TrafficQuiet(cfg, n, c, Refunded(n.l.chans[c], i));
  }

  // ----- Recv

  lemma TakeKept(cfg: Config, ch: Chan)
    requires ChanOk(ch) && SendOk(cfg, ch) && ch.frames != []
    ensures Kept(cfg, ch, Take(cfg, ch))
  {
  }

  lemma TakeViews(cfg: Config, x: Endpoint, y: Endpoint, f: seq<Msg>, g: seq<Msg>, c: nat, q: nat, ch: Chan, k: nat)
    requires Checked(cfg) && PairsOk(cfg, x, y, f, g) && Mated(x, y, c, q)
    requires x.chans[c].frames != [] && x.chans[c].peer.Some? && ch == Take(cfg, x.chans[c]) && k == Credit(cfg, x.chans[c])
    ensures DirOk(cfg, ViewOf(x.chans[c], y.chans[q], c, q, f, g).(s := ch))
    ensures var w := ViewOf(y.chans[q], x.chans[c], q, c, g, f); DirOk(cfg, w.(t := ch, credit := w.credit + k))
  {
    var v, w := Views(cfg, x, y, f, g, c, q);
    TakeDirs(cfg, v, w, ch, k);
  }

  lemma TakeDirs(cfg: Config, v: View, w: View, ch: Chan, k: nat)
    requires Checked(cfg) && DirOk(cfg, v) && DirOk(cfg, w) && w.t == v.s && w.t.frames != [] && w.t.peer.Some?
    requires ch == Take(cfg, w.t) && k == Credit(cfg, w.t)
    ensures DirOk(cfg, v.(s := ch)) && DirOk(cfg, w.(t := ch, credit := w.credit + k))
  {
    Taking(cfg, v, w);
  }

  lemma AdjustAfter(cfg: Config, x: Endpoint, y: Endpoint, f: seq<Msg>, g: seq<Msg>, c: nat, q: nat, ch: Chan, k: nat)
    requires c < |x.chans| && q < |y.chans|
    requires DirOk(cfg, ViewOf(x.chans[c], y.chans[q], c, q, f, g).(s := ch))
    requires var w := ViewOf(y.chans[q], x.chans[c], q, c, g, f); DirOk(cfg, w.(t := ch, credit := w.credit + k))
    ensures PairAfter(cfg, x, y, f, g, c, q, ch, Adjust(q, k))
  {
    var v, w := ViewOf(x.chans[c], y.chans[q], c, q, f, g), ViewOf(y.chans[q], x.chans[c], q, c, g, f);
    AdjustViews(v, w, q, k, ch);
    PairAfterBy(cfg, x, y, f, g, c, q, ch, Adjust(q, k), v.(s := ch), w.(t := ch, credit := w.credit + k));
  }

  lemma AdjustViews(v: View, w: View, q: nat, k: nat, ch: Chan)
    ensures var m := Adjust(q, k);
            && v.(s := ch) == v.(s := ch, items := v.items + StreamOf(m, q), asks := v.asks + AskOf(m, Some(q)))
            && w.(t := ch, credit := w.credit + k) == w.(t := ch, credit := w.credit + AdjustOf(m, q), replies := w.replies + ReplyOf(m, Some(q)))
  {
    AdjustEffect(v, w, q, k);
  }

  lemma PairAfterBy(cfg: Config, x: Endpoint, y: Endpoint, f: seq<Msg>, g: seq<Msg>, c: nat, q: nat, ch: Chan, m: Msg, v': View, w': View)
    requires c < |x.chans| && q < |y.chans| && DirOk(cfg, v') && DirOk(cfg, w')
    requires var v := ViewOf(x.chans[c], y.chans[q], c, q, f, g);
             v' == v.(s := ch, items := v.items + StreamOf(m, q), asks := v.asks + AskOf(m, Some(q)))
    requires var w := ViewOf(y.chans[q], x.chans[c], q, c, g, f);
             w' == w.(t := ch, credit := w.credit + AdjustOf(m, q), replies := w.replies + ReplyOf(m, Some(q)))
    ensures PairAfter(cfg, x, y, f, g, c, q, ch, m)
  {
  }

  lemma NoAdjustAfter(cfg: Config, x: Endpoint, y: Endpoint, f: seq<Msg>, g: seq<Msg>, c: nat, q: nat, ch: Chan)
    requires c < |x.chans| && q < |y.chans|
    ensures var w := ViewOf(y.chans[q], x.chans[c], q, c, g, f);
            DirOk(cfg, ViewOf(x.chans[c], y.chans[q], c, q, f, g).(s := ch)) && DirOk(cfg, w.(t := ch, credit := w.credit + 0))
            ==> PairWith(cfg, x, y, f, g, c, q, ch)
  {
    WithEffect(x.chans[c], y.chans[q], c, q, f, g, ch);
  }

  lemma WithEffect(s: Chan, t: Chan, c: nat, q: nat, f: seq<Msg>, g: seq<Msg>, ch: Chan)
    ensures ViewOf(s, t, c, q, f, g).(s := ch) == ViewOf(ch, t, c, q, f, g)
    ensures var w := ViewOf(t, s, q, c, g, f); w.(t := ch, credit := w.credit + 0) == ViewOf(t, ch, q, c, g, f)
  {
  }

  lemma TakePair(cfg: Config, x: Endpoint, y: Endpoint, f: seq<Msg>, g: seq<Msg>, c: nat, q: nat, ch: Chan, k: nat)
    requires Checked(cfg) && PairsOk(cfg, x, y, f, g) && Mated(x, y, c, q)
    requires x.chans[c].frames != [] && x.chans[c].peer.Some? && ch == Take(cfg, x.chans[c]) && k == Credit(cfg, x.chans[c])
    ensures PairAfter(cfg, x, y, f, g, c, q, ch, Adjust(q, k))
  {
    TakeViews(cfg, x, y, f, g, c, q, ch, k);
    AdjustAfter(cfg, x, y, f, g, c, q, ch, k);
  }

  lemma TakeQuietPair(cfg: Config, x: Endpoint, y: Endpoint, f: seq<Msg>, g: seq<Msg>, c: nat, q: nat, ch: Chan)
    requires Checked(cfg) && PairsOk(cfg, x, y, f, g) && Mated(x, y, c, q)
    requires x.chans[c].frames != [] && x.chans[c].peer.Some? && ch == Take(cfg, x.chans[c]) && Credit(cfg, x.chans[c]) == 0
    ensures PairWith(cfg, x, y, f, g, c, q, ch)
  {
    TakeViews(cfg, x, y, f, g, c, q, ch, 0);
    NoAdjustAfter(cfg, x, y, f, g, c, q, ch);
  }

  lemma AdjustEffect(v: View, w: View, q: nat, bytes: nat)
    ensures var m := Adjust(q, bytes);
            && v.items + StreamOf(m, q) == v.items
            && v.asks + AskOf(m, Some(q)) == v.asks
            && w.credit + AdjustOf(m, q) == w.credit + bytes
            && w.replies + ReplyOf(m, Some(q)) == w.replies
  {
  }

  lemma StepRecv(cfg: Config, n: Net, c: nat)
    requires Checked(cfg) && Inv(cfg, n) && Enabled(cfg, n.l, RecvFrame(c))
    ensures Inv(cfg, n.(l := Next(cfg, n.l, RecvFrame(c))))
  {
    var ch := n.l.chans[c];
    ChanFacts(cfg, n, c);
    TakeKept(cfg, ch);
    var taken, k, f, g := Take(cfg, ch), Credit(cfg, ch), Fly(n.l, n.lr), Fly(n.r, n.rl);
    if k > 0 {
      forall q: nat | Mated(n.l, n.r, c, q) ensures PairAfter(cfg, n.l, n.r, f, g, c, q, taken, Adjust(q, k)) {
        TakePair(cfg, n.l, n.r, f, g, c, q, taken, k);
      }
      TrafficOut(cfg, n, c, ch.peer.value, taken, Adjust(ch.peer.value, k));
    } else {
      forall q: nat | Mated(n.l, n.r, c, q) ensures PairWith(cfg, n.l, n.r, f, g, c, q, taken) {
        TakeQuietPair(cfg, n.l, n.r, f, g, c, q, taken);
      }
      TrafficQuiet(cfg, n, c, taken);
    }
  }

  // ----- SendRequest

  lemma RequestKept(cfg: Config, ch: Chan, want: bool)
    requires ChanOk(ch) && SendOk(cfg, ch) && ch.live
    ensures Kept(cfg, ch, Asking(ch, want))
  {
  }

  lemma RequestPair(cfg: Config, x: Endpoint, y: Endpoint, f: seq<Msg>, g: seq<Msg>, c: nat, q: nat, m: Msg)
    requires PairsOk(cfg, x, y, f, g) && c < |x.chans| && q < |y.chans| && x.chans[c].state.AllowsRequests()
    requires m.Request? && m.to == q && m.id == x.chans[c].nextRequest
    ensures Mated(x, y, c, q) ==> PairAfter(cfg, x, y, f, g, c, q, Asking(x.chans[c], m.want), m)
  {
    if Mated(x, y, c, q) {
      var v, w := Views(cfg, x, y, f, g, c, q);
      Requesting(cfg, v, w, m.want);
      RequestEffect(v, w, q, m);
    }
  }

  lemma RequestEffect(v: View, w: View, q: nat, m: Msg)
    requires m.Request? && m.to == q
    ensures && v.items + StreamOf(m, q) == v.items
            && v.asks + AskOf(m, Some(q)) == v.asks + (if m.want then multiset{m.id} else multiset{})
            && w.credit + AdjustOf(m, q) == w.credit
            && w.replies + ReplyOf(m, Some(q)) == w.replies
  {
  }

  lemma StepRequest(cfg: Config, n: Net, c: nat, typ: string, payload: Bytes, want: bool)
    requires Inv(cfg, n) && Enabled(cfg, n.l, SendRequest(c, typ, payload, want))
    ensures Inv(cfg, n.(l := Next(cfg, n.l, SendRequest(c, typ, payload, want))))
  {
    var q := n.l.chans[c].peer.value;
    var m := Request(q, n.l.chans[c].nextRequest, typ, want, payload);
    ChanFacts(cfg, n, c);
    RequestKept(cfg, n.l.chans[c], want);
    RequestPair(cfg, n.l, n.r, Fly(n.l, n.lr), Fly(n.r, n.rl), c, q, m);
    RequestNext(cfg, n.l, c, typ, payload, want);
    TrafficOut(cfg, n, c, q, Asking(n.l.chans[c], want), m);
  }

  lemma RequestNext(cfg: Config, e: Endpoint, c: nat, typ: string, payload: Bytes, want: bool)
    requires Enabled(cfg, e, SendRequest(c, typ, payload, want))
    ensures Next(cfg, e, SendRequest(c, typ, payload, want))
         == PutOut(SetChan(e, c, Asking(e.chans[c], want)),
                   Request(e.chans[c].peer.value, e.chans[c].nextRequest, typ, want, payload), Some(c))
  {
  }

  /** A request refused by a limit spends its id. */
  lemma SpendPairs(cfg: Config, x: Endpoint, y: Endpoint, f: seq<Msg>, g: seq<Msg>, c: nat)
    requires PairsOk(cfg, x, y, f, g) && c < |x.chans| && x.chans[c].state.AllowsRequests()
    ensures PairsWith(cfg, x, y, f, g, c, Asking(x.chans[c], false))
  {
    forall q: nat | Mated(x, y, c, q) ensures PairWith(cfg, x, y, f, g, c, q, Asking(x.chans[c], false)) {
      var v, w := Views(cfg, x, y, f, g, c, q);
      Requesting(cfg, v, w, false);
      assert v.asks + multiset{} == v.asks;
    }
  }

  lemma StepSpendRequest(cfg: Config, n: Net, c: nat)
    requires Inv(cfg, n) && Enabled(cfg, n.l, SpendRequestId(c))
    ensures Inv(cfg, n.(l := Next(cfg, n.l, SpendRequestId(c))))
  {
    ChanFacts(cfg, n, c);
    RequestKept(cfg, n.l.chans[c], false);
    SpendPairs(cfg, n.l, n.r, Fly(n.l, n.lr), Fly(n.r, n.rl), c);
    SpendNext(cfg, n.l, c);
    TrafficQuiet(cfg, n, c, Asking(n.l.chans[c], false));
  }

  lemma SpendNext(cfg: Config, e: Endpoint, c: nat)
    requires Enabled(cfg, e, SpendRequestId(c))
    ensures Next(cfg, e, SpendRequestId(c)) == SetChan(e, c, Asking(e.chans[c], false))
  {
  }

  // ----- CloseWrite

  function AfterEof(ch: Chan): Chan
    requires ch.state.CanSendData()
  {
    ch.(state := SendEofState(ch.state))
  }

  lemma EofKept(cfg: Config, ch: Chan)
    requires ChanOk(ch) && SendOk(cfg, ch) && ch.state.CanSendData()
    ensures Kept(cfg, ch, AfterEof(ch))
  {
  }

  lemma EofPair(cfg: Config, x: Endpoint, y: Endpoint, f: seq<Msg>, g: seq<Msg>, c: nat, q: nat)
    requires PairsOk(cfg, x, y, f, g) && c < |x.chans| && q < |y.chans|
    requires x.chans[c].state.CanSendData() && x.chans[c].peer.Some?
    ensures Mated(x, y, c, q) ==> PairAfter(cfg, x, y, f, g, c, q, AfterEof(x.chans[c]), Eof(q))
  {
    if Mated(x, y, c, q) {
      var v, w := Views(cfg, x, y, f, g, c, q);
      Ending(cfg, v, w, AfterEof(x.chans[c]));
      EofEffect(v, w, q);
    }
  }

  lemma EofEffect(v: View, w: View, q: nat)
    ensures var m := Eof(q);
            && v.items + StreamOf(m, q) == v.items + [End]
            && v.asks + AskOf(m, Some(q)) == v.asks
            && w.credit + AdjustOf(m, q) == w.credit
            && w.replies + ReplyOf(m, Some(q)) == w.replies
  {
  }

  lemma StepCloseWrite(cfg: Config, n: Net, c: nat)
    requires Inv(cfg, n) && Enabled(cfg, n.l, CloseWrite(c))
    ensures Inv(cfg, n.(l := Next(cfg, n.l, CloseWrite(c))))
  {
    var q := n.l.chans[c].peer.value;
    ChanFacts(cfg, n, c);
    EofKept(cfg, n.l.chans[c]);
    EofPair(cfg, n.l, n.r, Fly(n.l, n.lr), Fly(n.r, n.rl), c, q);
    TrafficOut(cfg, n, c, q, AfterEof(n.l.chans[c]), Eof(q));
  }

  // ----- the channel worker

  function PopEvent(ch: Chan): Chan
    requires ch.events != []
  {
    ch.(events := ch.events[1..])
  }

  lemma PopKept(cfg: Config, ch: Chan)
    requires ChanOk(ch) && SendOk(cfg, ch) && ch.events != []
    ensures Kept(cfg, ch, PopEvent(ch)) && Kept(cfg, ch, PopEvent(ch).(pending := {}))
  {
  }

  lemma ReplyPair(cfg: Config, x: Endpoint, y: Endpoint, f: seq<Msg>, g: seq<Msg>, c: nat, q: nat, m: Msg)
    requires PairsOk(cfg, x, y, f, g) && c < |x.chans| && q < |y.chans| && x.chans[c].events != []
    requires m.Reply? && m.to == q && EventId(x.chans[c].events[0]) == multiset{m.id}
    ensures Mated(x, y, c, q) ==> PairAfter(cfg, x, y, f, g, c, q, PopEvent(x.chans[c]), m)
  {
    if Mated(x, y, c, q) {
      var v, w := Views(cfg, x, y, f, g, c, q);
      Handling(cfg, v, w, PopEvent(x.chans[c]));
      ReplyEffect(v, w, q, m);
    }
  }

  lemma ReplyEffect(v: View, w: View, q: nat, m: Msg)
    requires m.Reply? && m.to == q
    ensures && v.items + StreamOf(m, q) == v.items
            && v.asks + AskOf(m, Some(q)) == v.asks
            && w.credit + AdjustOf(m, q) == w.credit
            && w.replies + ReplyOf(m, Some(q)) == w.replies + multiset{m.id}
  {
  }

  lemma PopPairs(cfg: Config, x: Endpoint, y: Endpoint, f: seq<Msg>, g: seq<Msg>, c: nat)
    requires PairsOk(cfg, x, y, f, g) && c < |x.chans| && x.chans[c].events != []
    requires EventId(x.chans[c].events[0]) == multiset{}
    ensures PairsWith(cfg, x, y, f, g, c, PopEvent(x.chans[c]))
  {
    forall q: nat | Mated(x, y, c, q) ensures PairWith(cfg, x, y, f, g, c, q, PopEvent(x.chans[c])) {
      var v, w := Views(cfg, x, y, f, g, c, q);
      Handling(cfg, v, w, PopEvent(x.chans[c]));
      assert w.replies + multiset{} == w.replies;
    }
  }

  /** A channel whose peer has closed it has no mate left. */
  lemma ClosedAlone(cfg: Config, n: Net, c: nat)
    requires Inv(cfg, n) && Held(n.l, c) && CloseEvent in n.l.chans[c].events
    ensures forall q: nat :: !Mated(n.l, n.r, c, q)
  {
    ChanFacts(cfg, n, c);
    forall q: nat ensures !Mated(n.l, n.r, c, q) {
      if Mated(n.l, n.r, c, q) {
        HeldOpen(n.l, n.r, c, q);
      }
    }
  }

  lemma StepReply(cfg: Config, n: Net, c: nat, verdict: Verdict, ev: Event)
    requires RoomForRejects(cfg) && Inv(cfg, n) && Held(n.l, c) && n.l.chans[c].events != [] && VerdictOk(cfg, verdict)
    requires ev == n.l.chans[c].events[0] && ev.RequestEvent? && ev.want
    ensures Inv(cfg, n.(l := AfterEvent(n.l, c, verdict)))
  {
    var ch := n.l.chans[c];
    var m := Reply(ch.peer.value, ev.id, Answer(verdict, "channel-request-rejected", "channel request rejected"));
    ChanFacts(cfg, n, c);
    PopKept(cfg, ch);
    ReplyPair(cfg, n.l, n.r, Fly(n.l, n.lr), Fly(n.r, n.rl), c, ch.peer.value, m);
    TrafficOut(cfg, n, c, ch.peer.value, PopEvent(ch), m);
  }

  lemma StepEvent(cfg: Config, n: Net, c: nat, verdict: Verdict)
    requires RoomForRejects(cfg) && Inv(cfg, n) && Enabled(cfg, n.l, HandleEvent(c, verdict))
    ensures Inv(cfg, n.(l := Next(cfg, n.l, HandleEvent(c, verdict))))
  {
    var ch := n.l.chans[c];
    var ev := ch.events[0];
    if ev.RequestEvent? && ev.want {
      StepReply(cfg, n, c, verdict, ev);
    } else {
      ChanFacts(cfg, n, c);
      PopKept(cfg, ch);
      if ev.CloseEvent? {
        ClosedAlone(cfg, n, c);
        TrafficQuiet(cfg, n, c, PopEvent(ch).(pending := {}));
      } else {
        PopPairs(cfg, n.l, n.r, Fly(n.l, n.lr), Fly(n.r, n.rl), c);
        TrafficQuiet(cfg, n, c, PopEvent(ch));
      }
    }
  }

  function Finished(ch: Chan, id: nat): Chan {
    ch.(incoming := ch.incoming - {id})
  }

  lemma FinishPairs(cfg: Config, x: Endpoint, y: Endpoint, f: seq<Msg>, g: seq<Msg>, c: nat, id: nat)
    requires PairsOk(cfg, x, y, f, g) && c < |x.chans|
    ensures PairsWith(cfg, x, y, f, g, c, Finished(x.chans[c], id))
  {
    forall q: nat | Mated(x, y, c, q) ensures PairWith(cfg, x, y, f, g, c, q, Finished(x.chans[c], id)) {
      var v, w := Views(cfg, x, y, f, g, c, q);
      Finishing(cfg, v, w, id, Finished(x.chans[c], id));
    }
  }

  lemma StepFinish(cfg: Config, n: Net, c: nat, id: nat)
    requires Inv(cfg, n) && Enabled(cfg, n.l, FinishRequest(c, id))
    ensures Inv(cfg, n.(l := Next(cfg, n.l, FinishRequest(c, id))))
  {
    ChanFacts(cfg, n, c);
    FinishPairs(cfg, n.l, n.r, Fly(n.l, n.lr), Fly(n.r, n.rl), c, id);
    TrafficQuiet(cfg, n, c, Finished(n.l.chans[c], id));
  }
}
