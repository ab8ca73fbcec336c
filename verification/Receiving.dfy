/** Handling the envelopes that arrive for open channels keeps the invariant. */
module Receiving {
  import opened Types
  import opened SessionConfig
  import opened Envelope
  import opened Channel
  import opened Endpoint
  import opened Flight
  import opened Direction
  import opened PairEvents
  import opened Network
  import opened Links
  import opened Mates
  import opened Traffic
  import opened Control
  import opened Removal

  /** The receiver takes the head off the wire. */
  lemma WirePops(e: Endpoint, wire: seq<Msg>)
    requires wire != []
    ensures Popped(Fly(e, wire), Fly(e, wire[1..]), wire[0])
  {
    var g := Fly(e, wire);
    assert g == [wire[0]] + Fly(e, wire[1..]);
    assert g[1..] == Fly(e, wire[1..]);
    HeadPops(g);
  }

  lemma PopLinks(x: Endpoint, x': Endpoint, y: Endpoint, xy: seq<Msg>, yx: seq<Msg>,
                 f: seq<Msg>, g: seq<Msg>, g': seq<Msg>, m: Msg)
    requires LinksOk(x, y, xy, f, g) && LinksOk(y, x, yx, g, f) && AllCalm(x, x', y)
    requires Addressed(m) && yx != [] && m == yx[0] && Popped(g, g', m)
    ensures LinksOk(x', y, xy, f, g') && LinksOk(y, x', yx[1..], g', f)
  {
    CalmOwn(x, x', y, xy, f, g);
    FewerOther(y, x', xy, g, g', f, m);
    CalmOther(x, x', y, yx, f, g);
    FewerOwn(y, x', yx, g, g', f, m);
    WireTail(y, x', yx, g', f);
  }

  lemma PopGlobals(x: Endpoint, x': Endpoint, y: Endpoint, f: seq<Msg>, g: seq<Msg>, g': seq<Msg>, m: Msg)
    requires GlobalsOk(x, y, f, g) && GlobalsOk(y, x, g, f) && SameGlobals(x, x')
    requires Popped(g, g', m) && !m.GlobalRequest? && !m.GlobalReply?
    ensures GlobalsOk(x', y, f, g') && GlobalsOk(y, x', g', f)
  {
    assert Asks(g, None) == AskOf(m, None) + Asks(g', None);
    assert Replies(g, None) == ReplyOf(m, None) + Replies(g', None);
    assert Asks(g', None) == Asks(g, None) && Replies(g', None) == Replies(g, None);
  }

  lemma PopPairs(cfg: Config, x: Endpoint, x': Endpoint, y: Endpoint, f: seq<Msg>, f': seq<Msg>, g: seq<Msg>, g': seq<Msg>, c: nat, q: nat, m: Msg)
    requires PairsOk(cfg, x, y, f, g) && Linked(x, y, f, g) && OnlyChan(x, x', c) && x.chans[c].peer == Some(q)
    requires Addressed(m) && m.to == c && Popped(g, g', m) && OnlyFor(f, f', q)
    requires Mated(x', y, c, q) ==> PairWith(cfg, x, y, f', g', c, q, x'.chans[c])
    ensures PairsOk(cfg, x', y, f', g')
  {
    PoppedOnly(g, g', m);
    PairsFrame(cfg, x, x', y, f, f', g, g', c, q);
  }

  /** Taking in an envelope for a channel that knows its peer. */
  lemma PopInv(cfg: Config, x: Endpoint, x': Endpoint, y: Endpoint, xy: seq<Msg>, yx: seq<Msg>,
               f: seq<Msg>, g: seq<Msg>, g': seq<Msg>, c: nat, q: nat, m: Msg)
    requires InvAt(cfg, x, y, xy, yx, f, g) && EndpointOk(cfg, x') && SameGlobals(x, x')
    requires OnlyChan(x, x', c) && Calm(x.chans[c], x'.chans[c], y) && x.chans[c].peer == Some(q)
    requires Addressed(m) && m.to == c && yx != [] && m == yx[0] && Popped(g, g', m)
    requires Mated(x', y, c, q) ==> PairWith(cfg, x, y, f, g', c, q, x'.chans[c])
    ensures InvAt(cfg, x', y, xy, yx[1..], f, g')
  {
    assert AllCalm(x, x', y);
    PopLinks(x, x', y, xy, yx, f, g, g', m);
    SameOnly(f, f, q);
    PopPairs(cfg, x, x', y, f, f, g, g', c, q, m);
    PopGlobals(x, x', y, f, g, g', m);
  }

  /** The same when the channel is updated by ordinary traffic. */
  lemma PopSet(cfg: Config, n: Net, c: nat, ch: Chan, m: Msg)
    requires Inv(cfg, n) && n.rl != [] && m == n.rl[0] && Addressed(m) && m.to == c
    requires InTable(n.l, c) && n.l.chans[c].peer.Some? && n.l.chans[c].peer.value < |n.r.chans|
    requires Kept(cfg, n.l.chans[c], ch)
    requires var q := n.l.chans[c].peer.value;
             Mated(n.l, n.r, c, q) ==> PairWith(cfg, n.l, n.r, Fly(n.l, n.lr), Fly(n.r, n.rl[1..]), c, q, ch)
    ensures Inv(cfg, n.(l := SetChan(n.l, c, ch), rl := n.rl[1..]))
  {
    var l' := SetChan(n.l, c, ch);
    SetChanOk(cfg, n.l, c, ch);
    WirePops(n.r, n.rl);
    assert Fly(l', n.lr) == Fly(n.l, n.lr);
    PopInv(cfg, n.l, l', n.r, n.lr, n.rl, Fly(n.l, n.lr), Fly(n.r, n.rl), Fly(n.r, n.rl[1..]), c, n.l.chans[c].peer.value, m);
  }

  // ----- data

  /** What stands before the rest of a direction is nothing, unless m is of that kind. */
  lemma Shifted(m: Msg, c: nat, s: seq<Item>, s': seq<Item>, a: nat, a': nat,
                k: multiset<nat>, k': multiset<nat>, r: multiset<nat>, r': multiset<nat>)
    requires s == StreamOf(m, c) + s' && a == AdjustOf(m, c) + a'
    requires k == AskOf(m, Some(c)) + k' && r == ReplyOf(m, Some(c)) + r'
    ensures !m.Data? && !m.Eof? ==> s == s'
    ensures !m.Adjust? ==> a == a'
    ensures !m.Request? ==> k == k'
    ensures !m.Reply? ==> r == r'
  {
  }

  lemma PopShifted(g: seq<Msg>, g': seq<Msg>, m: Msg, c: nat)
    requires PoppedAt(g, g', m, c)
    ensures !m.Data? && !m.Eof? ==> Stream(g', c) == Stream(g, c)
    ensures !m.Adjust? ==> Adjusts(g', c) == Adjusts(g, c)
    ensures !m.Request? ==> Asks(g', Some(c)) == Asks(g, Some(c))
    ensures !m.Reply? ==> Replies(g', Some(c)) == Replies(g, Some(c))
  {
    Shifted(m, c, Stream(g, c), Stream(g', c), Adjusts(g, c), Adjusts(g', c),
            Asks(g, Some(c)), Asks(g', Some(c)), Replies(g, Some(c)), Replies(g', Some(c)));
  }

  lemma DataPopped(s: Chan, t: Chan, s': Chan, c: nat, q: nat, f: seq<Msg>, g: seq<Msg>, g': seq<Msg>, m: Msg)
    requires PoppedAt(g, g', m, c) && m.Data? && m.to == c
    ensures Stream(g, c) == [Frame(m.data)] + Stream(g', c)
    ensures ViewOf(s', t, c, q, f, g') == ViewOf(s, t, c, q, f, g).(s := s')
    ensures ViewOf(t, s', q, c, g', f) == ViewOf(t, s, q, c, g, f).(t := s', items := Stream(g', c))
  {
    PopShifted(g, g', m, c);
  }

  lemma DataPair(cfg: Config, x: Endpoint, y: Endpoint, f: seq<Msg>, g: seq<Msg>, g': seq<Msg>, c: nat, q: nat, m: Msg)
    requires PairsOk(cfg, x, y, f, g) && Mated(x, y, c, q) && x.chans[c].peer.Some?
    requires Popped(g, g', m) && m.Data? && m.to == c && |m.data| <= x.chans[c].localWindow
    ensures PairWith(cfg, x, y, f, g', c, q, Arrive(x.chans[c], m.data))
  {
    var v, w := Views(cfg, x, y, f, g, c, q);
    PopAt(g, g', m, c);
    DataPopped(x.chans[c], y.chans[q], Arrive(x.chans[c], m.data), c, q, f, g, g', m);
    Arriving(cfg, v, w, m.data, Stream(g', c));
  }

  lemma ArriveKept(cfg: Config, ch: Chan, data: Bytes)
    requires ChanOk(ch) && SendOk(cfg, ch) && AcceptsData(ch, data)
    ensures Kept(cfg, ch, Arrive(ch, data))
  {
  }

  lemma StepData(cfg: Config, n: Net, luck: Luck)
    requires Inv(cfg, n) && n.rl != [] && n.rl[0].Data? && RecvData(n.l, n.rl[0], luck).Ok?
    ensures Inv(cfg, n.(l := RecvData(n.l, n.rl[0], luck).next, rl := n.rl[1..]))
  {
    var m, c := n.rl[0], n.rl[0].to;
    ChanFacts(cfg, n, c);
    ArriveKept(cfg, n.l.chans[c], m.data);
    WirePops(n.r, n.rl);
    var q := n.l.chans[c].peer.value;
    if Mated(n.l, n.r, c, q) {
      DataPair(cfg, n.l, n.r, Fly(n.l, n.lr), Fly(n.r, n.rl), Fly(n.r, n.rl[1..]), c, q, m);
    }
    PopSet(cfg, n, c, Arrive(n.l.chans[c], m.data), m);
  }

  // ----- window adjusts

  lemma AdjustShift(g: seq<Msg>, g': seq<Msg>, m: Msg, c: nat)
    requires PoppedAt(g, g', m, c) && m.Adjust? && m.to == c
    ensures Stream(g', c) == Stream(g, c) && Asks(g', Some(c)) == Asks(g, Some(c)) && Replies(g', Some(c)) == Replies(g, Some(c))
    ensures Adjusts(g', c) + m.bytes == Adjusts(g, c)
  {
    PopShifted(g, g', m, c);
  }

  lemma AdjustPopped(s: Chan, t: Chan, s': Chan, c: nat, q: nat, f: seq<Msg>, g: seq<Msg>, g': seq<Msg>, m: Msg)
    requires PoppedAt(g, g', m, c) && m.Adjust? && m.to == c
    ensures Adjusts(g', c) + m.bytes == Adjusts(g, c)
    ensures ViewOf(s', t, c, q, f, g') == ViewOf(s, t, c, q, f, g).(s := s', credit := Adjusts(g', c))
    ensures ViewOf(t, s', q, c, g', f) == ViewOf(t, s, q, c, g, f).(t := s')
  {
    AdjustShift(g, g', m, c);
  }

  lemma AdjustPair(cfg: Config, x: Endpoint, y: Endpoint, f: seq<Msg>, g: seq<Msg>, g': seq<Msg>, c: nat, q: nat, m: Msg)
    requires Checked(cfg) && PairsOk(cfg, x, y, f, g) && Mated(x, y, c, q) && x.chans[c].peer.Some?
    requires PoppedAt(g, g', m, c) && m.Adjust? && m.to == c && x.chans[c].state.AllowsRequests()
    ensures PairWith(cfg, x, y, f, g', c, q, Credited(x.chans[c], m.bytes))
  {
    var v, w := Views(cfg, x, y, f, g, c, q);
    AdjustPopped(x.chans[c], y.chans[q], Credited(x.chans[c], m.bytes), c, q, f, g, g', m);
    CreditPair(cfg, v, w, m.bytes, Adjusts(g', c));
    PairWithBy(cfg, x, y, f, g', c, q, Credited(x.chans[c], m.bytes),
               v.(s := Credited(x.chans[c], m.bytes), credit := Adjusts(g', c)), w.(t := Credited(x.chans[c], m.bytes)));
  }

  lemma PairWithBy(cfg: Config, x: Endpoint, y: Endpoint, f: seq<Msg>, g: seq<Msg>, c: nat, q: nat, ch: Chan, v: View, w: View)
    requires q < |y.chans| && DirOk(cfg, v) && DirOk(cfg, w)
    requires v == ViewOf(ch, y.chans[q], c, q, f, g) && w == ViewOf(y.chans[q], ch, q, c, g, f)
    ensures PairWith(cfg, x, y, f, g, c, q, ch)
  {
  }

  lemma CreditPair(cfg: Config, v: View, w: View, bytes: nat, left: nat)
    requires Checked(cfg) && DirOk(cfg, v) && DirOk(cfg, w) && w.t == v.s
    requires left + bytes == v.credit && v.s.peer.Some? && v.s.state.AllowsRequests()
    ensures DirOk(cfg, v.(s := Credited(v.s, bytes), credit := left)) && DirOk(cfg, w.(t := Credited(v.s, bytes)))
  {
    Crediting(cfg, v, w, bytes);
  }

  lemma CreditKept(cfg: Config, ch: Chan, bytes: nat)
    requires ChanOk(ch) && SendOk(cfg, ch) && ch.state.AllowsRequests()
    ensures Kept(cfg, ch, Credited(ch, bytes))
  {
  }

  lemma StepAdjust(cfg: Config, n: Net)
    requires Checked(cfg) && Inv(cfg, n) && n.rl != [] && n.rl[0].Adjust? && RecvAdjust(n.l, n.rl[0]).Ok?
    ensures Inv(cfg, n.(l := RecvAdjust(n.l, n.rl[0]).next, rl := n.rl[1..]))
  {
    var m, c := n.rl[0], n.rl[0].to;
    ChanFacts(cfg, n, c);
    CreditKept(cfg, n.l.chans[c], m.bytes);
    WirePops(n.r, n.rl);
    var q := n.l.chans[c].peer.value;
    if Mated(n.l, n.r, c, q) {
      PopAt(Fly(n.r, n.rl), Fly(n.r, n.rl[1..]), m, c);
      AdjustPair(cfg, n.l, n.r, Fly(n.l, n.lr), Fly(n.r, n.rl), Fly(n.r, n.rl[1..]), c, q, m);
    }
    PopSet(cfg, n, c, Credited(n.l.chans[c], m.bytes), m);
  }

  // ----- EOF

  lemma EofPopped(s: Chan, t: Chan, s': Chan, c: nat, q: nat, f: seq<Msg>, g: seq<Msg>, g': seq<Msg>, m: Msg)
    requires PoppedAt(g, g', m, c) && m.Eof? && m.to == c
    ensures Stream(g, c) == [End] + Stream(g', c)
    ensures ViewOf(s', t, c, q, f, g') == ViewOf(s, t, c, q, f, g).(s := s')
    ensures ViewOf(t, s', q, c, g', f) == ViewOf(t, s, q, c, g, f).(t := s', items := Stream(g', c))
  {
    PopShifted(g, g', m, c);
  }

  lemma EofPairs(cfg: Config, x: Endpoint, y: Endpoint, f: seq<Msg>, g: seq<Msg>, g': seq<Msg>, c: nat, q: nat, m: Msg)
    requires PairsOk(cfg, x, y, f, g) && Mated(x, y, c, q) && x.chans[c].state.CanReceiveData()
    requires Popped(g, g', m) && m.Eof? && m.to == c
    ensures PairWith(cfg, x, y, f, g', c, q, Ended(x.chans[c]))
  {
    var v, w := Views(cfg, x, y, f, g, c, q);
    PopAt(g, g', m, c);
    EofPopped(x.chans[c], y.chans[q], Ended(x.chans[c]), c, q, f, g, g', m);
    EndArriving(cfg, v, w, Stream(g', c));
  }

  lemma EndedKept(cfg: Config, ch: Chan)
    requires ChanOk(ch) && SendOk(cfg, ch) && ch.state.CanReceiveData()
    ensures Kept(cfg, ch, Ended(ch))
  {
  }

  lemma StepEof(cfg: Config, n: Net, luck: Luck)
    requires Inv(cfg, n) && n.rl != [] && n.rl[0].Eof? && RecvEof(n.l, n.rl[0], luck).Ok?
    ensures Inv(cfg, n.(l := RecvEof(n.l, n.rl[0], luck).next, rl := n.rl[1..]))
  {
    var m, c := n.rl[0], n.rl[0].to;
    ChanFacts(cfg, n, c);
    EndedKept(cfg, n.l.chans[c]);
    WirePops(n.r, n.rl);
    var q := n.l.chans[c].peer.value;
    if Mated(n.l, n.r, c, q) {
      EofPairs(cfg, n.l, n.r, Fly(n.l, n.lr), Fly(n.r, n.rl), Fly(n.r, n.rl[1..]), c, q, m);
    }
    PopSet(cfg, n, c, Ended(n.l.chans[c]), m);
  }

  // ----- replies

  lemma ReplyShift(g: seq<Msg>, g': seq<Msg>, m: Msg, c: nat)
    requires PoppedAt(g, g', m, c) && m.Reply? && m.to == c
    ensures Stream(g', c) == Stream(g, c) && Asks(g', Some(c)) == Asks(g, Some(c)) && Adjusts(g', c) == Adjusts(g, c)
  {
    PopShifted(g, g', m, c);
  }

  lemma ReplyPopped(s: Chan, t: Chan, s': Chan, c: nat, q: nat, f: seq<Msg>, g: seq<Msg>, g': seq<Msg>, m: Msg)
    requires PoppedAt(g, g', m, c) && m.Reply? && m.to == c
    ensures Replies(g, Some(c)) == multiset{m.id} + Replies(g', Some(c))
    ensures ViewOf(s', t, c, q, f, g') == ViewOf(s, t, c, q, f, g).(s := s', replies := Replies(g', Some(c)))
    ensures ViewOf(t, s', q, c, g', f) == ViewOf(t, s, q, c, g, f).(t := s')
  {
    ReplyShift(g, g', m, c);
  }

  lemma ReplyPairs(cfg: Config, x: Endpoint, y: Endpoint, f: seq<Msg>, g: seq<Msg>, g': seq<Msg>, c: nat, q: nat, m: Msg)
    requires PairsOk(cfg, x, y, f, g) && Mated(x, y, c, q) && x.chans[c].state.AllowsRequests()
    requires Popped(g, g', m) && m.Reply? && m.to == c
    ensures PairWith(cfg, x, y, f, g', c, q, RequestCancelled(x.chans[c], m.id))
  {
    var v, w := Views(cfg, x, y, f, g, c, q);
    PopAt(g, g', m, c);
    ReplyPopped(x.chans[c], y.chans[q], RequestCancelled(x.chans[c], m.id), c, q, f, g, g', m);
    Answered(cfg, v, w, m.id, Replies(g', Some(c)), RequestCancelled(x.chans[c], m.id));
  }

  /** A channel that awaits a reply knows its peer, and is open if it is still paired. */
  lemma AwaitingOpen(cfg: Config, x: Endpoint, y: Endpoint, f: seq<Msg>, g: seq<Msg>, c: nat)
    requires PairsOk(cfg, x, y, f, g) && InTable(x, c) && ChanOk(x.chans[c]) && x.chans[c].pending != {}
    ensures x.chans[c].peer.Some?
    ensures forall q: nat :: Mated(x, y, c, q) ==> x.chans[c].state.AllowsRequests()
  {
    forall q: nat | Mated(x, y, c, q) ensures x.chans[c].state.AllowsRequests() {
      assert PairOk(cfg, x, y, f, g, c, q);
    }
  }

  lemma StepReplied(cfg: Config, n: Net)
    requires Inv(cfg, n) && n.rl != [] && n.rl[0].Reply? && RecvReply(cfg, n.l, n.rl[0]).Ok?
    ensures Inv(cfg, n.(l := RecvReply(cfg, n.l, n.rl[0]).next, rl := n.rl[1..]))
  {
    var m, c := n.rl[0], n.rl[0].to;
    ChanFacts(cfg, n, c);
    WirePops(n.r, n.rl);
    AwaitingOpen(cfg, n.l, n.r, Fly(n.l, n.lr), Fly(n.r, n.rl), c);
    var q := n.l.chans[c].peer.value;
    if Mated(n.l, n.r, c, q) {
      ReplyPairs(cfg, n.l, n.r, Fly(n.l, n.lr), Fly(n.r, n.rl), Fly(n.r, n.rl[1..]), c, q, m);
    }
    PopSet(cfg, n, c, RequestCancelled(n.l.chans[c], m.id), m);
  }

  // ----- requests

  lemma RequestPopped(s: Chan, t: Chan, s': Chan, c: nat, q: nat, f: seq<Msg>, g: seq<Msg>, g': seq<Msg>, m: Msg)
    requires PoppedAt(g, g', m, c) && m.Request? && m.to == c
    ensures Asks(g, Some(c)) == (if m.want then multiset{m.id} else multiset{}) + Asks(g', Some(c))
    ensures ViewOf(s', t, c, q, f, g') == ViewOf(s, t, c, q, f, g).(s := s')
    ensures ViewOf(t, s', q, c, g', f) == ViewOf(t, s, q, c, g, f).(t := s', asks := Asks(g', Some(c)))
  {
    PopShifted(g, g', m, c);
  }

  lemma NoRefusal(w: View, t: Chan, asks: multiset<nat>)
    ensures w.(t := t, asks := asks, replies := w.replies + multiset{}) == w.(t := t, asks := asks)
  {
    assert w.replies + multiset{} == w.replies;
  }

  lemma RequestPairs(cfg: Config, x: Endpoint, y: Endpoint, f: seq<Msg>, g: seq<Msg>, g': seq<Msg>, c: nat, q: nat, m: Msg)
    requires PairsOk(cfg, x, y, f, g) && Mated(x, y, c, q) && Popped(g, g', m) && m.Request? && m.to == c
    ensures PairWith(cfg, x, y, f, g', c, q, Noted(x.chans[c], m.id, m.want, Some(m)))
  {
    var v, w := Views(cfg, x, y, f, g, c, q);
    var ch := Noted(x.chans[c], m.id, m.want, Some(m));
    PopAt(g, g', m, c);
    RequestPopped(x.chans[c], y.chans[q], ch, c, q, f, g, g', m);
    Noting(cfg, v, w, m.id, m.want, Asks(g', Some(c)), Some(m));
    NoRefusal(w, ch, Asks(g', Some(c)));
  }

  lemma NotedKept(cfg: Config, ch: Chan, id: nat, want: bool, queued: Option<Msg>)
    requires ChanOk(ch) && SendOk(cfg, ch) && ch.state.AllowsRequests()
    ensures Kept(cfg, ch, Noted(ch, id, want, queued))
  {
    assert forall ev :: ev in Noted(ch, id, want, queued).events ==> ev in ch.events || ev.RequestEvent?;
  }

  lemma StepRequested(cfg: Config, n: Net, luck: Luck)
    requires Inv(cfg, n) && n.rl != [] && n.rl[0].Request? && RecvRequest(cfg, n.l, n.rl[0], luck).Ok? && luck.queue
    ensures Inv(cfg, n.(l := RecvRequest(cfg, n.l, n.rl[0], luck).next, rl := n.rl[1..]))
  {
    var m, c := n.rl[0], n.rl[0].to;
    ChanFacts(cfg, n, c);
    NotedKept(cfg, n.l.chans[c], m.id, m.want, Some(m));
    WirePops(n.r, n.rl);
    var q := n.l.chans[c].peer.value;
    if Mated(n.l, n.r, c, q) {
      RequestPairs(cfg, n.l, n.r, Fly(n.l, n.lr), Fly(n.r, n.rl), Fly(n.r, n.rl[1..]), c, q, m);
    }
    PopSet(cfg, n, c, Noted(n.l.chans[c], m.id, m.want, Some(m)), m);
  }
}
