/** Handling refused requests, closes and global requests that arrive keeps the invariant. */
module Parting {
  import opened Types
  import opened SessionConfig
  import opened Envelope
  import opened Channel
  import opened Endpoint
  import opened Flight
  import opened Direction
  import opened PairEvents
  import opened Network
  import opened Links
  import opened Mates
  import opened Traffic
  import opened Control
  import opened Removal
  import opened Writer
  import opened Receiving

  /** An envelope for channel c comes from c's mate, and both applications hold their ends. */
  lemma MetMate(x: Endpoint, y: Endpoint, g: seq<Msg>, c: nat, q: nat)
    requires RoutesOk(y, g) && MatesOk(y, x) && Count(g, For(c)) > 0
    requires c < |x.chans| && x.chans[c].peer == Some(q) && ChanOk(x.chans[c])
    ensures Speaks(y, q, c) && Speaks(x, c, q) && q < |y.chans|
  {
    var o: nat :| Speaks(y, o, c);
    assert MateOk(y, x, o);
  }

  lemma HeadFor(g: seq<Msg>, g': seq<Msg>, m: Msg)
    requires Popped(g, g', m) && Addressed(m)
    ensures Count(g, For(m.to)) > 0 && (m.Close? ==> Count(g, Closes(m.to)) > 0)
  {
    assert Count(g, For(m.to)) == CountOf(m, For(m.to)) + Count(g', For(m.to));
    assert Count(g, Closes(m.to)) == CountOf(m, Closes(m.to)) + Count(g', Closes(m.to));
  }

  // ----- a request that finds its queue full

  lemma RefusedViews(s: Chan, t: Chan, s': Chan, c: nat, q: nat, f: seq<Msg>, f': seq<Msg>, g: seq<Msg>, g': seq<Msg>, id: nat)
    requires Stream(f', q) == Stream(f, q) && Adjusts(f', q) == Adjusts(f, q) && Asks(f', Some(q)) == Asks(f, Some(q))
    requires Replies(f', Some(q)) == Replies(f, Some(q)) + multiset{id}
    requires Stream(g', c) == Stream(g, c) && Adjusts(g', c) == Adjusts(g, c) && Replies(g', Some(c)) == Replies(g, Some(c))
    ensures ViewOf(s', t, c, q, f', g') == ViewOf(s, t, c, q, f, g).(s := s')
    ensures var w := ViewOf(t, s, q, c, g, f);
            ViewOf(t, s', q, c, g', f') == w.(t := s', asks := Asks(g', Some(c)), replies := w.replies + multiset{id})
  {
  }

  lemma RequestShift(g: seq<Msg>, g': seq<Msg>, m: Msg, c: nat)
    requires PoppedAt(g, g', m, c) && m.Request? && m.to == c
    ensures Stream(g', c) == Stream(g, c) && Adjusts(g', c) == Adjusts(g, c) && Replies(g', Some(c)) == Replies(g, Some(c))
    ensures Asks(g, Some(c)) == (if m.want then multiset{m.id} else multiset{}) + Asks(g', Some(c))
  {
    PopShifted(g, g', m, c);
  }

  lemma ReplyGrew(f: seq<Msg>, f': seq<Msg>, m: Msg)
    requires Grew(f, f', m) && m.Reply?
    ensures Stream(f', m.to) == Stream(f, m.to) && Adjusts(f', m.to) == Adjusts(f, m.to)
    ensures Asks(f', Some(m.to)) == Asks(f, Some(m.to)) && Replies(f', Some(m.to)) == Replies(f, Some(m.to)) + multiset{m.id}
  {
    var s, a := Stream(f', m.to), Asks(f', Some(m.to));
    assert s == Stream(f, m.to) + StreamOf(m, m.to) && a == Asks(f, Some(m.to)) + AskOf(m, Some(m.to));
  }

  lemma RefusedPair(cfg: Config, x: Endpoint, y: Endpoint, f: seq<Msg>, f': seq<Msg>, g: seq<Msg>, g': seq<Msg>, c: nat, q: nat, m: Msg, no: Msg)
    requires PairsOk(cfg, x, y, f, g) && Mated(x, y, c, q)
    requires PoppedAt(g, g', m, c) && m.Request? && m.to == c && m.want
    requires Grew(f, f', no) && no.Reply? && no.to == q && no.id == m.id
    ensures PairWith(cfg, x, y, f', g', c, q, Noted(x.chans[c], m.id, true, None))
  {
    var v, w := Views(cfg, x, y, f, g, c, q);
    var ch := Noted(x.chans[c], m.id, true, None);
    RequestShift(g, g', m, c);
    ReplyGrew(f, f', no);
    RefusedViews(x.chans[c], y.chans[q], ch, c, q, f, f', g, g', m.id);
    Noting(cfg, v, w, m.id, true, Asks(g', Some(c)), None);
    PairWithBy(cfg, x, y, f', g', c, q, ch, v.(s := ch),
               w.(t := ch, asks := Asks(g', Some(c)), replies := w.replies + multiset{m.id}));
  }

  lemma RefusedLinks(x: Endpoint, x': Endpoint, y: Endpoint, xy: seq<Msg>, yx: seq<Msg>,
                     f: seq<Msg>, f': seq<Msg>, g: seq<Msg>, g': seq<Msg>, c: nat, m: Msg, no: Msg)
    requires LinksOk(x, y, xy, f, g) && LinksOk(y, x, yx, g, f) && AllCalm(x, x', y)
    requires Addressed(m) && yx != [] && m == yx[0] && Popped(g, g', m)
    requires no.Reply? && Grew(f, f', no) && Speaks(x', c, no.to)
    ensures LinksOk(x', y, xy, f', g') && LinksOk(y, x', yx[1..], g', f')
  {
    PopLinks(x, x', y, xy, yx, f, g, g', m);
    GrewOwn(x', y, xy, f, f', g', no, c);
    GrewOther(x', y, yx[1..], f, f', g', no);
  }

  lemma RefusedInv(cfg: Config, x: Endpoint, x': Endpoint, y: Endpoint, xy: seq<Msg>, yx: seq<Msg>,
                   f: seq<Msg>, f': seq<Msg>, g: seq<Msg>, g': seq<Msg>, c: nat, q: nat, m: Msg, no: Msg)
    requires InvAt(cfg, x, y, xy, yx, f, g) && EndpointOk(cfg, x') && SameGlobals(x, x')
    requires OnlyChan(x, x', c) && SameLink(x.chans[c], x'.chans[c]) && Speaks(x, c, q)
    requires Addressed(m) && m.to == c && yx != [] && m == yx[0] && Popped(g, g', m) && m.Request?
    requires no.Reply? && no.to == q && StaticOk(cfg, no) && Grew(f, f', no)
    requires Mated(x', y, c, q) ==> PairWith(cfg, x, y, f', g', c, q, x'.chans[c])
    ensures InvAt(cfg, x', y, xy, yx[1..], f', g')
  {
    OnlyCalm(x, x', y, c);
    RefusedLinks(x, x', y, xy, yx, f, f', g, g', c, m, no);
    GrewOnly(f, f', no);
    Receiving.PopPairs(cfg, x, x', y, f, f', g, g', c, q, m);
    PopGlobals(x, x', y, f, g, g', m);
    GlobalsPast(x', x', y, f, f', g', no);
  }

  function RefusedRequest(e: Endpoint, c: nat, q: nat, id: nat, no: Msg): Endpoint
    requires c < |e.chans|
  {
    PutCtrl(SetChan(e, c, Noted(e.chans[c], id, true, None)), no)
  }

  lemma RefusedShape(cfg: Config, e: Endpoint, m: Msg, luck: Luck, c: nat, q: nat, no: Msg)
    requires RoomForRejects(cfg) && m.Request? && m.to == c && !luck.queue && RecvRequest(cfg, e, m, luck).Ok?
    requires no == Reply(q, m.id, Denied(LimitReject("channel request queue limit reached"))) && e.chans[c].peer == Some(q)
    ensures RecvRequest(cfg, e, m, luck) == Ok(RefusedRequest(e, c, q, m.id, no)) && m.want && StaticOk(cfg, no)
    ensures var e' := RefusedRequest(e, c, q, m.id, no);
            OnlyChan(e, e', c) && SameGlobals(e, e') && e'.chans[c] == Noted(e.chans[c], m.id, true, None)
  {
  }

  lemma RefusedEndpoint(cfg: Config, e: Endpoint, wire: seq<Msg>, c: nat, q: nat, id: nat, no: Msg)
    requires EndpointOk(cfg, e) && c < |e.chans| && e.chans[c].state.AllowsRequests() && no.Reply?
    ensures var e' := RefusedRequest(e, c, q, id, no);
            EndpointOk(cfg, e') && Grew(Fly(e, wire), Fly(e', wire), no) && SameLink(e.chans[c], e'.chans[c])
  {
    var ch := Noted(e.chans[c], id, true, None);
    NotedKept(cfg, e.chans[c], id, true, None);
    SetChanOk(cfg, e, c, ch);
    PutCtrlOk(cfg, SetChan(e, c, ch), no);
    CtrlGrows(SetChan(e, c, ch), wire, no);
    assert Fly(SetChan(e, c, ch), wire) == Fly(e, wire);
  }

  lemma StepRequestRefused(cfg: Config, n: Net, luck: Luck)
    requires RoomForRejects(cfg) && Inv(cfg, n) && n.rl != [] && n.rl[0].Request? && !luck.queue
    requires RecvRequest(cfg, n.l, n.rl[0], luck).Ok?
    ensures Inv(cfg, n.(l := RecvRequest(cfg, n.l, n.rl[0], luck).next, rl := n.rl[1..]))
  {
    var m, c := n.rl[0], n.rl[0].to;
    var q := n.l.chans[c].peer.value;
    var no := Reply(q, m.id, Denied(LimitReject("channel request queue limit reached")));
    ChanFacts(cfg, n, c);
    RefusedShape(cfg, n.l, m, luck, c, q, no);
    var l' := RefusedRequest(n.l, c, q, m.id, no);
    var f, f', g, g' := Fly(n.l, n.lr), Fly(l', n.lr), Fly(n.r, n.rl), Fly(n.r, n.rl[1..]);
    RefusedEndpoint(cfg, n.l, n.lr, c, q, m.id, no);
    WirePops(n.r, n.rl);
    HeadFor(g, g', m);
    MetMate(n.l, n.r, g, c, q);
    if Mated(n.l, n.r, c, q) {
      PopAt(g, g', m, c);
      RefusedPair(cfg, n.l, n.r, f, f', g, g', c, q, m, no);
    }
    RefusedInv(cfg, n.l, l', n.r, n.lr, n.rl, f, f', g, g', c, q, m, no);
  }

  // ----- close

  function ClosedBy(ch: Chan): Chan {
    ch.(state := Closed, slot := NoSlot, events := ch.events + [CloseEvent])
  }

  /** The peer acknowledges this end's close. */
  lemma StepCloseAcked(cfg: Config, n: Net, luck: Luck)
    requires Inv(cfg, n) && n.rl != [] && n.rl[0].Close? && InTable(n.l, n.rl[0].to) && n.l.chans[n.rl[0].to].state.Closing?
    ensures RecvClose(n.l, n.rl[0], luck).Ok?
    ensures Inv(cfg, n.(l := RecvClose(n.l, n.rl[0], luck).next, rl := n.rl[1..]))
  {
    var m, c := n.rl[0], n.rl[0].to;
    var ch := n.l.chans[c].(state := Closed, slot := NoSlot);
    var l' := Remove(n.l, c, ch);
    ChanFacts(cfg, n, c);
    NoTask(cfg, n.l, c);
    RemoveOk(cfg, n.l, c, ch);
    WirePops(n.r, n.rl);
    PopInv(cfg, n.l, l', n.r, n.lr, n.rl, Fly(n.l, n.lr), Fly(n.r, n.rl), Fly(n.r, n.rl[1..]), c, n.l.chans[c].peer.value, m);
  }

  /** A close comes only from a pair that one application has spoiled. */
  lemma CloserSpoiled(x: Endpoint, y: Endpoint, f: seq<Msg>, g: seq<Msg>, c: nat, q: nat)
    requires RoutesOk(y, g) && MatesOk(y, x) && ClosesOk(y, x, g) && Count(g, For(c)) > 0 && Count(g, Closes(c)) > 0
    requires c < |x.chans| && x.chans[c].peer == Some(q) && ChanOk(x.chans[c])
    ensures Speaks(x, c, q) && q < |y.chans| && (x.chans[c].spoiled || y.chans[q].spoiled)
  {
    MetMate(x, y, g, c, q);
  }

  lemma ClosedByOk(cfg: Config, e: Endpoint, c: nat)
    requires EndpointOk(cfg, e) && c < |e.chans| && e.chans[c].slot == Active
    ensures EndpointOk(cfg, Remove(e, c, ClosedBy(e.chans[c])))
  {
    NoTask(cfg, e, c);
    RemoveOk(cfg, e, c, ClosedBy(e.chans[c]));
  }

  lemma ClosedByCalm(x: Endpoint, y: Endpoint, c: nat, q: nat)
    requires c < |x.chans| && x.chans[c].state.AllowsRequests() && ChanOk(x.chans[c]) && Speaks(x, c, q)
    requires q < |y.chans| && (x.chans[c].spoiled || y.chans[q].spoiled)
    ensures Calm(x.chans[c], ClosedBy(x.chans[c]), y)
  {
  }

  lemma ClosedShape(e: Endpoint, m: Msg, luck: Luck, c: nat, q: nat)
    requires m.Close? && m.to == c && RecvClose(e, m, luck).Ok? && !e.chans[c].state.Closing? && e.chans[c].peer == Some(q)
    ensures RecvClose(e, m, luck) == Ok(PutCtrl(Remove(e, c, ClosedBy(e.chans[c])), Close(q)))
    ensures var mid := Remove(e, c, ClosedBy(e.chans[c]));
            OnlyChan(e, mid, c) && SameGlobals(e, mid) && mid.chans[c] == ClosedBy(e.chans[c])
  {
  }

  lemma ClosedInv(cfg: Config, x: Endpoint, x': Endpoint, y: Endpoint, xy: seq<Msg>, yx: seq<Msg>,
                  f: seq<Msg>, g: seq<Msg>, g': seq<Msg>, c: nat, q: nat, m: Msg)
    requires InvAt(cfg, x, y, xy, yx, f, g) && yx != [] && m == yx[0] && m.Close? && m.to == c && Popped(g, g', m)
    requires c < |x.chans| && x.chans[c].state.AllowsRequests() && x.chans[c].peer == Some(q)
    requires OnlyChan(x, x', c) && SameGlobals(x, x') && x'.chans[c] == ClosedBy(x.chans[c]) && EndpointOk(cfg, x')
    ensures InvAt(cfg, x', y, xy, yx[1..], f, g')
    ensures Speaks(x', c, q) && q < |y.chans| && (x'.chans[c].spoiled || y.chans[q].spoiled)
  {
    assert ChanOk(x.chans[c]);
    HeadFor(g, g', m);
    CloserSpoiled(x, y, f, g, c, q);
    ClosedByCalm(x, y, c, q);
    PopInv(cfg, x, x', y, xy, yx, f, g, g', c, q, m);
  }

  lemma StepClosed(cfg: Config, n: Net, luck: Luck)
    requires Inv(cfg, n) && n.rl != [] && n.rl[0].Close? && RecvClose(n.l, n.rl[0], luck).Ok?
    requires !n.l.chans[n.rl[0].to].state.Closing?
    ensures Inv(cfg, n.(l := RecvClose(n.l, n.rl[0], luck).next, rl := n.rl[1..]))
  {
    var m, c := n.rl[0], n.rl[0].to;
    var q := n.l.chans[c].peer.value;
    var mid := Remove(n.l, c, ClosedBy(n.l.chans[c]));
    var f, g, g' := Fly(n.l, n.lr), Fly(n.r, n.rl), Fly(n.r, n.rl[1..]);
    ChanFacts(cfg, n, c);
    ClosedShape(n.l, m, luck, c, q);
    ClosedByOk(cfg, n.l, c);
    WirePops(n.r, n.rl);
    ClosedInv(cfg, n.l, mid, n.r, n.lr, n.rl, f, g, g', c, q, m);
    AnswerClose(cfg, mid, n.r, n.lr, n.rl[1..], f, g', c, q);
  }

  lemma AnswerClose(cfg: Config, x: Endpoint, y: Endpoint, xy: seq<Msg>, yx: seq<Msg>, f: seq<Msg>, g: seq<Msg>, c: nat, q: nat)
    requires InvAt(cfg, x, y, xy, yx, f, g) && f == Fly(x, xy) && Speaks(x, c, q) && q < |y.chans|
    requires x.chans[c].spoiled || y.chans[q].spoiled
    ensures InvAt(cfg, PutCtrl(x, Close(q)), y, xy, yx, Fly(PutCtrl(x, Close(q)), xy), g)
  {
    var x' := PutCtrl(x, Close(q));
    PutCtrlOk(cfg, x, Close(q));
    CtrlGrows(x, xy, Close(q));
    GiveUpClosing(cfg, x, x', y, xy, yx, f, Fly(x', xy), g, c, q);
  }

  // ----- global requests and replies

  lemma MutePopLinks(x: Endpoint, x': Endpoint, y: Endpoint, xy: seq<Msg>, yx: seq<Msg>,
                     f: seq<Msg>, g: seq<Msg>, g': seq<Msg>, m: Msg)
    requires LinksOk(x, y, xy, f, g) && LinksOk(y, x, yx, g, f)
    requires x'.chans == x.chans && (forall d: nat :: Count(x'.dispatch, Opens(d)) == Count(x.dispatch, Opens(d)))
    requires yx != [] && m == yx[0] && Popped(g, g', m) && (m.GlobalRequest? || m.GlobalReply?)
    ensures LinksOk(x', y, xy, f, g') && LinksOk(y, x', yx[1..], g', f)
  {
    IdleLinks(x, x', y, xy, yx, f, f, g);
    FewerOther(y, x', xy, g, g', f, m);
    FewerOwn(y, x', yx, g, g', f, m);
    WireTail(y, x', yx, g', f);
  }

  lemma MutePopAlike(g: seq<Msg>, g': seq<Msg>, m: Msg)
    requires Popped(g, g', m) && !Addressed(m)
    ensures Alike(g, g')
  {
    forall p: nat
      ensures Stream(g', p) == Stream(g, p) && Adjusts(g', p) == Adjusts(g, p)
      ensures Asks(g', Some(p)) == Asks(g, Some(p)) && Replies(g', Some(p)) == Replies(g, Some(p))
    {
      PopAt(g, g', m, p);
      PoppedPast(g, g', m, p);
    }
  }

  lemma MutePopInv(cfg: Config, x: Endpoint, x': Endpoint, y: Endpoint, xy: seq<Msg>, yx: seq<Msg>,
                   f: seq<Msg>, g: seq<Msg>, g': seq<Msg>, m: Msg)
    requires InvAt(cfg, x, y, xy, yx, f, g) && EndpointOk(cfg, x') && x'.chans == x.chans
    requires forall d: nat :: Count(x'.dispatch, Opens(d)) == Count(x.dispatch, Opens(d))
    requires yx != [] && m == yx[0] && Popped(g, g', m) && (m.GlobalRequest? || m.GlobalReply?)
    requires GlobalsOk(x', y, f, g') && GlobalsOk(y, x', g', f)
    ensures InvAt(cfg, x', y, xy, yx[1..], f, g')
  {
    MutePopLinks(x, x', y, xy, yx, f, g, g', m);
    MutePopAlike(g, g', m);
    SameAlike(f, f);
    PairsAlike(cfg, x, x', y, f, f, g, g');
  }

  /** Exactly one copy of an awaited id is under way. */
  lemma AskedOnce(asks: multiset<nat>, asks': multiset<nat>, tasks: multiset<nat>, replies: multiset<nat>, pending: set<nat>, id: nat)
    requires asks + tasks + replies == multiset(pending) && asks == multiset{id} + asks'
    ensures id in pending && id !in asks'
  {
    assert multiset(pending)[id] <= 1;
    assert (asks + tasks + replies)[id] == asks[id] + tasks[id] + replies[id];
  }

  /** What an incoming global request does to x's books, whether queued or refused at once. */
  ghost predicate Taken(x: Endpoint, x': Endpoint, f: seq<Msg>, f': seq<Msg>, m: Msg) {
    && m.GlobalRequest?
    && x'.pendingGlobal == x.pendingGlobal && x'.forsaken == x.forsaken && x'.nextGlobal == x.nextGlobal
    && x'.incomingGlobal == (if m.want then x.incomingGlobal + {m.id} else x.incomingGlobal)
    && Asks(f', None) == Asks(f, None)
    && Asks(x'.dispatch, None) + Replies(f', None) == Asks(x.dispatch, None) + Replies(f, None) + AskOf(m, None)
  }

  lemma GlobalTaken(x: Endpoint, x': Endpoint, y: Endpoint, f: seq<Msg>, f': seq<Msg>, g: seq<Msg>, g': seq<Msg>, m: Msg)
    requires GlobalsOk(x, y, f, g) && GlobalsOk(y, x, g, f) && Taken(x, x', f, f', m)
    requires Asks(g, None) == AskOf(m, None) + Asks(g', None) && Replies(g', None) == Replies(g, None)
    ensures GlobalsOk(x', y, f', g') && GlobalsOk(y, x', g', f')
  {
    assert Owed(x') == Owed(x);
    TakenBooks(x, x', y, f, f', g, g', m);
  }

  /** The asker's side of it. */
  lemma TakenBooks(x: Endpoint, x': Endpoint, y: Endpoint, f: seq<Msg>, f': seq<Msg>, g: seq<Msg>, g': seq<Msg>, m: Msg)
    requires GlobalsOk(y, x, g, f) && Taken(x, x', f, f', m) && Asks(g, None) == AskOf(m, None) + Asks(g', None)
    ensures GlobalsOk(y, x', g', f')
  {
    BagShift(Asks(g, None), Asks(g', None), Asks(x.dispatch, None), Asks(x'.dispatch, None), Replies(f, None), Replies(f', None), AskOf(m, None));
    if m.want {
      AskedOnce(Asks(g, None), Asks(g', None), Asks(x.dispatch, None), Replies(f, None), Owed(y), m.id);
    }
  }

  lemma BagShift(a: multiset<nat>, a': multiset<nat>, t: multiset<nat>, t': multiset<nat>, r: multiset<nat>, r': multiset<nat>, k: multiset<nat>)
    requires a == k + a' && t' + r' == t + r + k
    ensures a' + t' + r' == a + t + r && a' <= a
  {
    assert a' + t' + r' == a' + (t' + r');
  }

  lemma GlobalPopped(g: seq<Msg>, g': seq<Msg>, m: Msg)
    requires Popped(g, g', m) && m.GlobalRequest?
    ensures Asks(g, None) == AskOf(m, None) + Asks(g', None) && Replies(g', None) == Replies(g, None)
  {
    assert Replies(g, None) == ReplyOf(m, None) + Replies(g', None);
  }

  lemma QueueGlobal(dispatch: seq<Msg>, m: Msg)
    requires m.GlobalRequest?
    ensures Asks(dispatch + [m], None) == Asks(dispatch, None) + AskOf(m, None)
    ensures forall d: nat :: Count(dispatch + [m], Opens(d)) == Count(dispatch, Opens(d))
  {
    AppendGrows(dispatch, m);
    forall d: nat ensures Count(dispatch + [m], Opens(d)) == Count(dispatch, Opens(d)) {
      assert Count(dispatch + [m], Opens(d)) == Count(dispatch, Opens(d)) + CountOf(m, Opens(d));
    }
  }

  lemma TaskAdded(cfg: Config, e: Endpoint, e': Endpoint, m: Msg)
    requires EndpointOk(cfg, e) && e'.chans == e.chans && e'.peers == e.peers && e'.ctrl == e.ctrl && e'.out == e.out
    requires m.GlobalRequest? && StaticOk(cfg, m) && e'.dispatch == e.dispatch + [m]
    ensures EndpointOk(cfg, e')
  {
    IdleEndpoint(cfg, e, e'.(dispatch := e.dispatch));
    forall i | 0 <= i < |e'.out| ensures WriteOk(e', e'.out[i]) {
      assert WriteOk(e, e.out[i]);
    }
    forall z | z in e'.dispatch && z.Open? ensures TaskOk(e', z.sender) {
      assert TaskOk(e, z.sender);
    }
  }

  lemma StepGlobalQueued(cfg: Config, n: Net, luck: Luck)
    requires Inv(cfg, n) && n.rl != [] && n.rl[0].GlobalRequest? && luck.queue && RecvGlobalRequest(cfg, n.l, n.rl[0], luck).Ok?
    ensures Inv(cfg, n.(l := RecvGlobalRequest(cfg, n.l, n.rl[0], luck).next, rl := n.rl[1..]))
  {
    var m, l' := n.rl[0], RecvGlobalRequest(cfg, n.l, n.rl[0], luck).next;
    var f, g, g' := Fly(n.l, n.lr), Fly(n.r, n.rl), Fly(n.r, n.rl[1..]);
    WirePops(n.r, n.rl);
    QueueGlobal(n.l.dispatch, m);
    TaskAdded(cfg, n.l, l', m);
    GlobalPopped(g, g', m);
    assert Taken(n.l, l', f, f, m);
    GlobalTaken(n.l, l', n.r, f, f, g, g', m);
    MutePopInv(cfg, n.l, l', n.r, n.lr, n.rl, f, g, g', m);
  }

  lemma MuteBothInv(cfg: Config, x: Endpoint, x': Endpoint, y: Endpoint, xy: seq<Msg>, yx: seq<Msg>,
                    f: seq<Msg>, f': seq<Msg>, g: seq<Msg>, g': seq<Msg>, m: Msg, no: Msg)
    requires InvAt(cfg, x, y, xy, yx, f, g) && EndpointOk(cfg, x') && x'.chans == x.chans && x'.dispatch == x.dispatch
    requires yx != [] && m == yx[0] && Popped(g, g', m) && m.GlobalRequest?
    requires no.GlobalReply? && StaticOk(cfg, no) && Grew(f, f', no)
    requires GlobalsOk(x', y, f', g') && GlobalsOk(y, x', g', f')
    ensures InvAt(cfg, x', y, xy, yx[1..], f', g')
  {
    MutePopLinks(x, x', y, xy, yx, f, g, g', m);
    MuteLinks(x', x', y, xy, yx[1..], f, f', g', no);
    MutePopAlike(g, g', m);
    MuteAlike(f, f', no);
    PairsAlike(cfg, x, x', y, f, f', g, g');
  }

  lemma GlobalRefused(f: seq<Msg>, f': seq<Msg>, no: Msg, m: Msg)
    requires Grew(f, f', no) && no.GlobalReply? && m.GlobalRequest? && m.want && no.id == m.id
    ensures Asks(f', None) == Asks(f, None) && Replies(f', None) == Replies(f, None) + AskOf(m, None)
  {
    assert Asks(f', None) == Asks(f, None) + AskOf(no, None);
    assert Replies(f', None) == Replies(f, None) + ReplyOf(no, None);
  }

  lemma GlobalRefusedEndpoint(cfg: Config, e: Endpoint, wire: seq<Msg>, m: Msg, no: Msg)
    requires EndpointOk(cfg, e) && m.GlobalRequest? && m.want && no.GlobalReply? && no.id == m.id
    ensures var e' := PutCtrl(e.(incomingGlobal := e.incomingGlobal + {m.id}), no);
            EndpointOk(cfg, e') && Grew(Fly(e, wire), Fly(e', wire), no) && Taken(e, e', Fly(e, wire), Fly(e', wire), m)
  {
    var mid := e.(incomingGlobal := e.incomingGlobal + {m.id});
    var e' := PutCtrl(mid, no);
    IdleEndpoint(cfg, e, mid);
    PutCtrlOk(cfg, mid, no);
    CtrlGrows(mid, wire, no);
    assert Fly(mid, wire) == Fly(e, wire);
    GlobalRefused(Fly(e, wire), Fly(e', wire), no, m);
  }

  lemma GlobalRefusedShape(cfg: Config, e: Endpoint, m: Msg, luck: Luck, no: Msg)
    requires RoomForRejects(cfg) && m.GlobalRequest? && !luck.queue && RecvGlobalRequest(cfg, e, m, luck).Ok?
    requires no == GlobalReply(m.id, Denied(LimitReject("global request queue limit reached")))
    ensures m.want && StaticOk(cfg, no)
    ensures RecvGlobalRequest(cfg, e, m, luck) == Ok(PutCtrl(e.(incomingGlobal := e.incomingGlobal + {m.id}), no))
  {
  }

  lemma StepGlobalRefused(cfg: Config, n: Net, luck: Luck)
    requires RoomForRejects(cfg) && Inv(cfg, n) && n.rl != [] && n.rl[0].GlobalRequest? && !luck.queue
    requires RecvGlobalRequest(cfg, n.l, n.rl[0], luck).Ok?
    ensures Inv(cfg, n.(l := RecvGlobalRequest(cfg, n.l, n.rl[0], luck).next, rl := n.rl[1..]))
  {
    var m := n.rl[0];
    var no := GlobalReply(m.id, Denied(LimitReject("global request queue limit reached")));
    var l' := PutCtrl(n.l.(incomingGlobal := n.l.incomingGlobal + {m.id}), no);
    var f, f', g, g' := Fly(n.l, n.lr), Fly(l', n.lr), Fly(n.r, n.rl), Fly(n.r, n.rl[1..]);
    GlobalRefusedShape(cfg, n.l, m, luck, no);
    GlobalRefusedEndpoint(cfg, n.l, n.lr, m, no);
    WirePops(n.r, n.rl);
    GlobalPopped(g, g', m);
    GlobalTaken(n.l, l', n.r, f, f', g, g', m);
    MuteBothInv(cfg, n.l, l', n.r, n.lr, n.rl, f, f', g, g', m, no);
  }

  /** A global reply meets its waiter. */
  lemma GlobalReplied(x: Endpoint, x': Endpoint, y: Endpoint, f: seq<Msg>, g: seq<Msg>, g': seq<Msg>, m: Msg)
    requires GlobalsOk(x, y, f, g) && GlobalsOk(y, x, g, f) && m.GlobalReply? && Popped(g, g', m)
    requires m.id in x.pendingGlobal && x' == x.(pendingGlobal := x.pendingGlobal - {m.id})
    ensures GlobalsOk(x', y, f, g') && GlobalsOk(y, x', g', f)
  {
    assert Asks(g, None) == AskOf(m, None) + Asks(g', None) && Replies(g, None) == ReplyOf(m, None) + Replies(g', None);
    assert Asks(g', None) == Asks(g, None);
    ReplyBag(Asks(f, None), Asks(y.dispatch, None), Replies(g, None), Replies(g', None), Owed(x), m.id);
    assert Owed(x') == Owed(x) - {m.id};
  }

  /** A global reply answers a request that is owed one. */
  lemma ReplyOwed(x: Endpoint, y: Endpoint, f: seq<Msg>, g: seq<Msg>, g': seq<Msg>, m: Msg)
    requires GlobalsOk(x, y, f, g) && m.GlobalReply? && Popped(g, g', m)
    ensures m.id in Owed(x)
  {
    assert Replies(g, None) == ReplyOf(m, None) + Replies(g', None);
    ReplyBag(Asks(f, None), Asks(y.dispatch, None), Replies(g, None), Replies(g', None), Owed(x), m.id);
  }

  lemma ReplyBag(asks: multiset<nat>, tasks: multiset<nat>, replies: multiset<nat>, replies': multiset<nat>, pending: set<nat>, id: nat)
    requires asks + tasks + replies == multiset(pending) && replies == multiset{id} + replies'
    ensures id in pending && asks + tasks + replies' == multiset(pending - {id})
  {
    assert (asks + tasks + replies)[id] >= 1;
    assert multiset(pending)[id] >= 1;
    assert multiset(pending - {id}) == multiset(pending) - multiset{id};
  }

  lemma StepGlobalReplied(cfg: Config, n: Net)
    requires Inv(cfg, n) && n.rl != [] && n.rl[0].GlobalReply? && RecvGlobalReply(cfg, n.l, n.rl[0]).Ok?
    ensures Inv(cfg, n.(l := RecvGlobalReply(cfg, n.l, n.rl[0]).next, rl := n.rl[1..]))
  {
    var m, l' := n.rl[0], RecvGlobalReply(cfg, n.l, n.rl[0]).next;
    var f, g, g' := Fly(n.l, n.lr), Fly(n.r, n.rl), Fly(n.r, n.rl[1..]);
    WirePops(n.r, n.rl);
    IdleEndpoint(cfg, n.l, l');
    GlobalReplied(n.l, l', n.r, f, g, g', m);
    MutePopInv(cfg, n.l, l', n.r, n.lr, n.rl, f, g, g', m);
  }
}
