/** Cancelled writes, closing, abandoned calls, global requests and the writer keep the invariant. */
module Control {
  import opened Types
  import opened SessionConfig
  import opened Envelope
  import opened Channel
  import opened Endpoint
  import opened Flight
  import opened Direction
  import opened PairEvents
  import opened Network
  import opened Links
  import opened Mates
  import opened Traffic

  ghost predicate SameGlobals(x: Endpoint, x': Endpoint) {
    && x'.pendingGlobal == x.pendingGlobal && x'.forsaken == x.forsaken && x'.nextGlobal == x.nextGlobal
    && x'.incomingGlobal == x.incomingGlobal && x'.dispatch == x.dispatch
  }

  // ----- a queued data frame or request is taken back

  lemma MarkOk(cfg: Config, e: Endpoint, i: nat)
    requires EndpointOk(cfg, e) && i < |e.out|
    ensures EndpointOk(cfg, e.(out := e.out[i := e.out[i].(cancelled := true)]))
  {
    var e' := e.(out := e.out[i := e.out[i].(cancelled := true)]);
    forall j | 0 <= j < |e'.out| ensures WriteOk(e', e'.out[j]) {
      assert WriteOk(e, e.out[j]);
    }
  }

  lemma LostGlobals(x: Endpoint, x': Endpoint, y: Endpoint, f: seq<Msg>, f': seq<Msg>, g: seq<Msg>, m: Msg)
    requires GlobalsOk(x, y, f, g) && GlobalsOk(y, x, g, f) && SameGlobals(x, x')
    requires Lost(f, f', m) && !m.GlobalRequest? && !m.GlobalReply?
    ensures GlobalsOk(x', y, f', g) && GlobalsOk(y, x', g, f')
  {
    assert Asks(f, None) == Asks(f', None) + AskOf(m, None);
    assert Replies(f, None) == Replies(f', None) + ReplyOf(m, None);
    assert AskOf(m, None) == multiset{} && ReplyOf(m, None) == multiset{};
  }

  lemma LostInv(cfg: Config, x: Endpoint, x': Endpoint, y: Endpoint, xy: seq<Msg>, yx: seq<Msg>,
                f: seq<Msg>, f': seq<Msg>, g: seq<Msg>, c: nat, m: Msg)
    requires InvAt(cfg, x, y, xy, yx, f, g) && EndpointOk(cfg, x') && SameGlobals(x, x')
    requires OnlyChan(x, x', c) && SameLink(x.chans[c], x'.chans[c])
    requires Addressed(m) && x.chans[c].peer == Some(m.to) && Lost(f, f', m)
    requires Mated(x', y, c, m.to) ==> PairOk(cfg, x', y, f', g, c, m.to)
    ensures InvAt(cfg, x', y, xy, yx, f', g)
  {
    OnlyCalm(x, x', y, c);
    LostLinks(x, x', y, xy, yx, f, f', g, m);
    LostOnly(f, f', m);
    SameOnly(g, g, c);
    PairsFrame(cfg, x, x', y, f, f', g, g, c, m.to);
    LostGlobals(x, x', y, f, f', g, m);
  }

  lemma LostLinks(x: Endpoint, x': Endpoint, y: Endpoint, xy: seq<Msg>, yx: seq<Msg>,
                  f: seq<Msg>, f': seq<Msg>, g: seq<Msg>, m: Msg)
    requires LinksOk(x, y, xy, f, g) && LinksOk(y, x, yx, g, f) && AllCalm(x, x', y)
    requires Addressed(m) && Lost(f, f', m)
    ensures LinksOk(x', y, xy, f', g) && LinksOk(y, x', yx, g, f')
  {
    CalmOwn(x, x', y, xy, f, g);
    LostOwn(x', y, xy, f, f', g, m);
    CalmOther(x, x', y, yx, f, g);
    FewerOther(x', y, yx, f, f', g, m);
  }

  function DataCancelled(ch: Chan, size: nat): Chan {
    Refund(ch, size).(cancels := ch.cancels + 1)
  }

  lemma CancelDataPair(cfg: Config, x: Endpoint, x': Endpoint, y: Endpoint,
                       f: seq<Msg>, f': seq<Msg>, g: seq<Msg>, c: nat, q: nat, m: Msg)
    requires Checked(cfg) && PairsOk(cfg, x, y, f, g) && Mated(x, y, c, q) && x.chans[c].peer.Some?
    requires m.Data? && m.to == q && Lost(f, f', m)
    requires c < |x'.chans| && x'.chans[c] == DataCancelled(x.chans[c], |m.data|)
    ensures PairOk(cfg, x', y, f', g, c, q)
  {
    var v, w := Views(cfg, x, y, f, g, c, q);
    LoseAt(f, f', m, q);
    DataLost(x.chans[c], x'.chans[c], y.chans[q], c, q, f, f', g, m);
    Cancelling(cfg, v, w, Stream(f', q), m.data, x'.chans[c]);
    PairBy(cfg, x', y, f', g, c, q, v.(s := x'.chans[c], items := Stream(f', q)), w.(t := x'.chans[c]));
  }

  lemma DataGone(f: seq<Msg>, f': seq<Msg>, m: Msg, q: nat)
    requires LostAt(f, f', m, q) && m.Data? && m.to == q
    ensures Cut(Stream(f, q), Stream(f', q), [Frame(m.data)]) && Adjusts(f', q) == Adjusts(f, q)
    ensures Asks(f', Some(q)) == Asks(f, Some(q)) && Replies(f', Some(q)) == Replies(f, Some(q))
  {
    assert StreamOf(m, q) == [Frame(m.data)] && AskOf(m, Some(q)) == multiset{} && ReplyOf(m, Some(q)) == multiset{};
  }

  lemma DataLost(s: Chan, s': Chan, t: Chan, c: nat, q: nat, f: seq<Msg>, f': seq<Msg>, g: seq<Msg>, m: Msg)
    requires m.Data? && m.to == q && LostAt(f, f', m, q)
    ensures Cut(Stream(f, q), Stream(f', q), [Frame(m.data)])
    ensures ViewOf(s', t, c, q, f', g) == ViewOf(s, t, c, q, f, g).(s := s', items := Stream(f', q))
    ensures ViewOf(t, s', q, c, g, f') == ViewOf(t, s, q, c, g, f).(t := s')
  {
    DataGone(f, f', m, q);
  }

  lemma DataCancelKept(cfg: Config, ch: Chan, size: nat)
    requires ChanOk(ch) && SendOk(cfg, ch) && ch.live
    ensures Kept(cfg, ch, DataCancelled(ch, size))
  {
  }

  function RequestCancelled(ch: Chan, id: nat): Chan {
    ch.(pending := ch.pending - {id})
  }

  lemma CancelRequestPair(cfg: Config, x: Endpoint, x': Endpoint, y: Endpoint,
                          f: seq<Msg>, f': seq<Msg>, g: seq<Msg>, c: nat, q: nat, m: Msg)
    requires PairsOk(cfg, x, y, f, g) && Mated(x, y, c, q) && x.chans[c].state.AllowsRequests()
    requires m.Request? && m.to == q && Lost(f, f', m) && (!m.want ==> m.id !in x.chans[c].pending)
    requires c < |x'.chans| && x'.chans[c] == RequestCancelled(x.chans[c], m.id)
    ensures PairOk(cfg, x', y, f', g, c, q)
  {
    var v, w := Views(cfg, x, y, f, g, c, q);
    LoseAt(f, f', m, q);
    RequestLost(x.chans[c], x'.chans[c], y.chans[q], c, q, f, f', g, m);
    Unasking(cfg, v, w, m.id, m.want, Asks(f', Some(q)), x'.chans[c]);
    PairBy(cfg, x', y, f', g, c, q, v.(s := x'.chans[c], asks := Asks(f', Some(q))), w.(t := x'.chans[c]));
  }

  lemma RequestGone(f: seq<Msg>, f': seq<Msg>, m: Msg, q: nat)
    requires LostAt(f, f', m, q) && m.Request? && m.to == q
    ensures Asks(f, Some(q)) == Asks(f', Some(q)) + (if m.want then multiset{m.id} else multiset{})
    ensures Stream(f', q) == Stream(f, q) && Adjusts(f', q) == Adjusts(f, q) && Replies(f', Some(q)) == Replies(f, Some(q))
  {
    assert StreamOf(m, q) == [] && ReplyOf(m, Some(q)) == multiset{};
    NoCut(Stream(f, q), Stream(f', q));
  }

  lemma RequestLost(s: Chan, s': Chan, t: Chan, c: nat, q: nat, f: seq<Msg>, f': seq<Msg>, g: seq<Msg>, m: Msg)
    requires m.Request? && m.to == q && LostAt(f, f', m, q)
    ensures Asks(f, Some(q)) == Asks(f', Some(q)) + (if m.want then multiset{m.id} else multiset{})
    ensures ViewOf(s', t, c, q, f', g) == ViewOf(s, t, c, q, f, g).(s := s', asks := Asks(f', Some(q)))
    ensures ViewOf(t, s', q, c, g, f') == ViewOf(t, s, q, c, g, f).(t := s')
  {
    RequestGone(f, f', m, q);
  }

  /** What cancelling a queued data frame or request does to the endpoint. */
  lemma CancelShape(e: Endpoint, i: nat, c: nat, ch: Chan)
    requires Cancellable(e, i) && c == e.out[i].from.value && SameLink(e.chans[c], ch)
    requires e.out[i].msg.Data? ==> ch == DataCancelled(e.chans[c], |e.out[i].msg.data|)
    requires e.out[i].msg.Request? ==> ch == RequestCancelled(e.chans[c], e.out[i].msg.id)
    requires !e.out[i].msg.Open?
    ensures AfterCancel(e, i) == SetChan(e.(out := e.out[i := e.out[i].(cancelled := true)]), c, ch)
    ensures OnlyChan(e, AfterCancel(e, i), c) && SameGlobals(e, AfterCancel(e, i))
  {
  }

  lemma CancelInv(cfg: Config, n: Net, i: nat, c: nat, ch: Chan)
    requires Inv(cfg, n) && Cancellable(n.l, i) && c == n.l.out[i].from.value && Kept(cfg, n.l.chans[c], ch)
    requires var m := n.l.out[i].msg;
             && (m.Data? || m.Request?)
             && (m.Data? ==> ch == DataCancelled(n.l.chans[c], |m.data|))
             && (m.Request? ==> ch == RequestCancelled(n.l.chans[c], m.id))
             && n.l.chans[c].peer == Some(m.to)
             && m.to < |n.r.chans|
             && (Mated(AfterCancel(n.l, i), n.r, c, m.to) ==>
                   PairOk(cfg, AfterCancel(n.l, i), n.r, Fly(AfterCancel(n.l, i), n.lr), Fly(n.r, n.rl), c, m.to))
    ensures Inv(cfg, n.(l := AfterCancel(n.l, i)))
  {
    var l, m, l' := n.l, n.l.out[i].msg, AfterCancel(n.l, i);
    CancelShape(l, i, c, ch);
    CancelLoses(l, l', n.lr, i);
    CancelEndpoint(cfg, l, i, c, ch);
    LostInv(cfg, l, l', n.r, n.lr, n.rl, Fly(l, n.lr), Fly(l', n.lr), Fly(n.r, n.rl), c, m);
  }

  lemma CancelEndpoint(cfg: Config, e: Endpoint, i: nat, c: nat, ch: Chan)
    requires EndpointOk(cfg, e) && i < |e.out| && c < |e.chans| && Kept(cfg, e.chans[c], ch)
    ensures EndpointOk(cfg, SetChan(e.(out := e.out[i := e.out[i].(cancelled := true)]), c, ch))
  {
    MarkOk(cfg, e, i);
    SetChanOk(cfg, e.(out := e.out[i := e.out[i].(cancelled := true)]), c, ch);
  }

  lemma StepCancelData(cfg: Config, n: Net, i: nat)
    requires Checked(cfg) && Inv(cfg, n) && Cancellable(n.l, i) && n.l.out[i].msg.Data?
    ensures Inv(cfg, n.(l := AfterCancel(n.l, i)))
  {
    var l, m, c, l' := n.l, n.l.out[i].msg, n.l.out[i].from.value, AfterCancel(n.l, i);
    var ch := DataCancelled(l.chans[c], |m.data|);
    assert WriteOk(l, l.out[i]);
    ChanFacts(cfg, n, c);
    DataCancelKept(cfg, l.chans[c], |m.data|);
    CancelShape(l, i, c, ch);
    CancelLoses(l, l', n.lr, i);
    if Mated(l', n.r, c, m.to) {
      assert Mated(l, n.r, c, m.to);
      CancelDataPair(cfg, l, l', n.r, Fly(l, n.lr), Fly(l', n.lr), Fly(n.r, n.rl), c, m.to, m);
    }
    CancelInv(cfg, n, i, c, ch);
  }

  lemma StepCancelRequest(cfg: Config, n: Net, i: nat)
    requires Inv(cfg, n) && Cancellable(n.l, i) && n.l.out[i].msg.Request?
    ensures Inv(cfg, n.(l := AfterCancel(n.l, i)))
  {
    var l, m, c, l' := n.l, n.l.out[i].msg, n.l.out[i].from.value, AfterCancel(n.l, i);
    var ch := RequestCancelled(l.chans[c], m.id);
    assert WriteOk(l, l.out[i]);
    ChanFacts(cfg, n, c);
    CancelShape(l, i, c, ch);
    CancelLoses(l, l', n.lr, i);
    if Mated(l', n.r, c, m.to) {
      assert Mated(l, n.r, c, m.to);
      HeldOpen(l, n.r, c, m.to);
      CancelRequestPair(cfg, l, l', n.r, Fly(l, n.lr), Fly(l', n.lr), Fly(n.r, n.rl), c, m.to, m);
    }
    CancelInv(cfg, n, i, c, ch);
  }
}
