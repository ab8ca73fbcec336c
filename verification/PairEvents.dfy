/**
 The events of Direction.dfy seen from both directions of a pair: v is the direction in which the
 acting channel sends, w the one in which it receives.
 */
module PairEvents {
  import opened Types
  import opened SessionConfig
  import opened Envelope
  import opened Channel
  import opened Flight
  import opened Direction

  /** What a channel contributes to the direction it sends in. */
  predicate SameTx(a: Chan, b: Chan) {
    && SameTxFlow(a, b) && SameTxRequests(a, b)
  }

  predicate SameTxFlow(a: Chan, b: Chan) {
    && a.peer == b.peer && a.remoteWindow == b.remoteWindow && a.maxRemotePacket == b.maxRemotePacket
    && a.reserved == b.reserved && a.sent == b.sent && a.cancels == b.cancels
    && (a.state.SentEof() <==> b.state.SentEof()) && (a.state.Opening? <==> b.state.Opening?)
    && (a.state.AllowsRequests() <==> b.state.AllowsRequests())
    && (a.state.Opening? ==> a.pending == b.pending)
  }

  predicate SameTxRequests(a: Chan, b: Chan) {
    a.pending == b.pending && a.nextRequest == b.nextRequest
  }

  /** What a channel contributes to the direction it receives in. */
  predicate SameRx(a: Chan, b: Chan) {
    && SameRxFlow(a, b) && SameRxRequests(a, b)
  }

  predicate SameRxFlow(a: Chan, b: Chan) {
    && a.peer == b.peer && a.localWindow == b.localWindow && a.maxLocalPacket == b.maxLocalPacket
    && a.pendingWindow == b.pendingWindow && a.frames == b.frames
    && a.arrived == b.arrived && a.delivered == b.delivered
    && (a.state.GotEof() <==> b.state.GotEof())
  }

  predicate SameRxRequests(a: Chan, b: Chan) {
    a.events == b.events && a.incoming == b.incoming
  }

  lemma TxFlow(cfg: Config, v: View, s: Chan)
    requires FlowOk(cfg, v) && SameTxFlow(v.s, s)
    ensures FlowOk(cfg, v.(s := s))
  {
  }

  /** The sender moved on, with the same window and the same frames. */
  lemma FlowBySender(cfg: Config, v: View, s: Chan)
    requires FlowOk(cfg, v) && SenderOk(cfg, s) && Window(cfg, s) == Window(cfg, v.s)
    requires s.reserved == v.s.reserved && s.sent == v.s.sent && s.cancels == v.s.cancels
    requires s.state.SentEof() <==> v.s.state.SentEof()
    ensures FlowOk(cfg, v.(s := s))
  {
  }

  lemma RxFlow(cfg: Config, v: View, t: Chan)
    requires FlowOk(cfg, v) && SameRxFlow(v.t, t)
    ensures FlowOk(cfg, v.(t := t))
  {
  }

  /** The receiver moved on, with the same frames. */
  lemma FlowByReceiver(cfg: Config, v: View, t: Chan)
    requires FlowOk(cfg, v) && WindowOk(cfg, t) && t.pendingWindow == v.t.pendingWindow
    requires t.frames == v.t.frames && t.arrived == v.t.arrived && (t.state.GotEof() <==> v.t.state.GotEof())
    ensures FlowOk(cfg, v.(t := t))
  {
  }

  lemma RequestsIdle(v: View, v': View)
    requires RequestsOk(v)
    requires SameTxRequests(v.s, v'.s) && SameRxRequests(v.t, v'.t) && v'.asks == v.asks && v'.replies == v.replies
    ensures RequestsOk(v')
  {
  }

  /** A change of the sender that its own direction does not see. */
  lemma TxIdle(cfg: Config, v: View, s: Chan)
    requires DirOk(cfg, v) && SameTx(v.s, s)
    ensures DirOk(cfg, v.(s := s))
  {
    TxFlow(cfg, v, s);
    RequestsIdle(v, v.(s := s));
  }

  lemma RxIdle(cfg: Config, v: View, t: Chan)
    requires DirOk(cfg, v) && SameRx(v.t, t)
    ensures DirOk(cfg, v.(t := t))
  {
    RxFlow(cfg, v, t);
    RequestsIdle(v, v.(t := t));
  }

  lemma Reserving(cfg: Config, v: View, w: View, frame: Bytes)
    requires DirOk(cfg, v) && DirOk(cfg, w) && w.t == v.s && v.s.peer.Some? && CanReserve(v.s, frame)
    ensures DirOk(cfg, v.(s := Reserve(v.s, frame))) && DirOk(cfg, w.(t := Reserve(v.s, frame)))
  {
    KeepReserve(cfg, v, frame);
    RequestsIdle(v, v.(s := Reserve(v.s, frame)));
    RxIdle(cfg, w, Reserve(v.s, frame));
  }

  lemma Queueing(cfg: Config, v: View, w: View, i: nat)
    requires DirOk(cfg, v) && DirOk(cfg, w) && w.t == v.s && i < |v.s.reserved| && !v.s.state.SentEof()
    ensures DirOk(cfg, v.(s := Queued(v.s, i), items := v.items + [Frame(v.s.reserved[i])]))
    ensures DirOk(cfg, w.(t := Queued(v.s, i)))
  {
    KeepQueue(cfg, v, i);
    RequestsIdle(v, v.(s := Queued(v.s, i), items := v.items + [Frame(v.s.reserved[i])]));
    RxIdle(cfg, w, Queued(v.s, i));
  }

  lemma Refunding(cfg: Config, v: View, w: View, i: nat, s: Chan)
    requires Checked(cfg) && DirOk(cfg, v) && DirOk(cfg, w) && w.t == v.s && v.s.peer.Some? && i < |v.s.reserved|
    requires s == Refund(v.s, |v.s.reserved[i]|).(reserved := Drop(v.s.reserved, i))
    ensures DirOk(cfg, v.(s := s)) && DirOk(cfg, w.(t := s))
  {
    KeepRefund(cfg, v, i);
    RequestsIdle(v, v.(s := s));
    RxIdle(cfg, w, s);
  }

  lemma Cancelling(cfg: Config, v: View, w: View, items: seq<Item>, data: Bytes, s: Chan)
    requires Checked(cfg) && DirOk(cfg, v) && DirOk(cfg, w) && w.t == v.s && v.s.peer.Some?
    requires Cut(v.items, items, [Frame(data)])
    requires s == Refund(v.s, |data|).(cancels := v.s.cancels + 1)
    ensures DirOk(cfg, v.(s := s, items := items)) && DirOk(cfg, w.(t := s))
  {
    KeepCancel(cfg, v, items, data);
    RequestsIdle(v, v.(s := s, items := items));
    RxIdle(cfg, w, s);
  }

  lemma Ending(cfg: Config, v: View, w: View, s: Chan)
    requires DirOk(cfg, v) && DirOk(cfg, w) && w.t == v.s && v.s.peer.Some?
    requires v.s.state.CanSendData() && s == v.s.(state := SendEofState(v.s.state))
    ensures DirOk(cfg, v.(s := s, items := v.items + [End])) && DirOk(cfg, w.(t := s))
  {
    KeepEofSent(cfg, v);
    RequestsIdle(v, v.(s := s, items := v.items + [End]));
    RxIdle(cfg, w, s);
  }

  lemma Taking(cfg: Config, v: View, w: View)
    requires Checked(cfg) && DirOk(cfg, v) && DirOk(cfg, w) && w.t == v.s && w.t.frames != [] && w.t.peer.Some?
    ensures DirOk(cfg, v.(s := Take(cfg, w.t)))
    ensures DirOk(cfg, w.(t := Take(cfg, w.t), credit := w.credit + Credit(cfg, w.t)))
  {
    KeepTake(cfg, w);
    RequestsIdle(w, w.(t := Take(cfg, w.t), credit := w.credit + Credit(cfg, w.t)));
    TxIdle(cfg, v, Take(cfg, w.t));
  }

  function Asking(s: Chan, want: bool): Chan {
    s.(nextRequest := s.nextRequest + 1, pending := if want then s.pending + {s.nextRequest} else s.pending)
  }

  lemma Requesting(cfg: Config, v: View, w: View, want: bool)
    requires DirOk(cfg, v) && DirOk(cfg, w) && w.t == v.s && v.s.state.AllowsRequests()
    ensures DirOk(cfg, v.(s := Asking(v.s, want), asks := v.asks + (if want then multiset{v.s.nextRequest} else multiset{})))
    ensures DirOk(cfg, w.(t := Asking(v.s, want)))
  {
    KeepAsk(v, want);
    TxFlow(cfg, v, Asking(v.s, want));
    RxIdle(cfg, w, Asking(v.s, want));
  }

  lemma Unasking(cfg: Config, v: View, w: View, id: nat, want: bool, asks: multiset<nat>, s: Chan)
    requires DirOk(cfg, v) && DirOk(cfg, w) && w.t == v.s && v.s.state.AllowsRequests()
    requires v.asks == asks + (if want then multiset{id} else multiset{})
    requires !want ==> id !in v.s.pending
    requires s == v.s.(pending := v.s.pending - {id})
    ensures DirOk(cfg, v.(s := s, asks := asks)) && DirOk(cfg, w.(t := s))
  {
    KeepUnask(v, id, want, asks);
    TxFlow(cfg, v, s);
    RxIdle(cfg, w, s);
  }

  lemma Handling(cfg: Config, v: View, w: View, t: Chan)
    requires DirOk(cfg, v) && DirOk(cfg, w) && w.t == v.s && w.t.events != []
    requires t == w.t.(events := w.t.events[1..])
    ensures DirOk(cfg, v.(s := t))
    ensures DirOk(cfg, w.(t := t, replies := w.replies + EventId(w.t.events[0])))
  {
    KeepEventHandled(w);
    RxFlow(cfg, w, t);
    TxIdle(cfg, v, t);
  }

  lemma Finishing(cfg: Config, v: View, w: View, id: nat, t: Chan)
    requires DirOk(cfg, v) && DirOk(cfg, w) && w.t == v.s && t == w.t.(incoming := w.t.incoming - {id})
    ensures DirOk(cfg, v.(s := t)) && DirOk(cfg, w.(t := t))
  {
    RxFlow(cfg, w, t);
    TxIdle(cfg, v, t);
  }

  lemma Arriving(cfg: Config, v: View, w: View, data: Bytes, items: seq<Item>)
    requires DirOk(cfg, v) && DirOk(cfg, w) && w.t == v.s && w.t.peer.Some? && w.items == [Frame(data)] + items
    ensures w.t.state.AllowsRequests() ==> AcceptsData(w.t, data)
    ensures |data| <= w.t.localWindow
    ensures DirOk(cfg, v.(s := Arrive(w.t, data))) && DirOk(cfg, w.(t := Arrive(w.t, data), items := items))
  {
    assert w.items[0] == Frame(data) && w.items[1..] == items;
    KeepArrive(cfg, w);
    RequestsIdle(w, w.(t := Arrive(w.t, data), items := items));
    TxIdle(cfg, v, Arrive(w.t, data));
  }

  function Ended(t: Chan): Chan
    requires t.state.CanReceiveData()
  {
    t.(state := GetEofState(t.state), events := t.events + [EofEvent])
  }

  lemma EndArriving(cfg: Config, v: View, w: View, items: seq<Item>)
    requires DirOk(cfg, v) && DirOk(cfg, w) && w.t == v.s && w.t.state.AllowsRequests() && w.items == [End] + items
    ensures w.t.state.CanReceiveData()
    ensures DirOk(cfg, v.(s := Ended(w.t))) && DirOk(cfg, w.(t := Ended(w.t), items := items))
  {
    assert w.items[0] == End && w.items[1..] == items;
    KeepEofArrives(cfg, w, w.t.events + [EofEvent]);
    EventsAppend(w.t.events, EofEvent);
    assert RequestsOk(w.(t := Ended(w.t), items := items));
    TxIdle(cfg, v, Ended(w.t));
  }

  function Credited(s: Chan, bytes: nat): Chan {
    s.(remoteWindow := AddU32(s.remoteWindow, bytes))
  }

  lemma Crediting(cfg: Config, v: View, w: View, bytes: nat)
    requires Checked(cfg) && DirOk(cfg, v) && DirOk(cfg, w) && w.t == v.s
    requires bytes <= v.credit && v.s.peer.Some? && v.s.state.AllowsRequests()
    ensures AcceptsAdjust(v.s, bytes)
    ensures DirOk(cfg, v.(s := Credited(v.s, bytes), credit := v.credit - bytes)) && DirOk(cfg, w.(t := Credited(v.s, bytes)))
  {
    KeepAdjust(cfg, v, bytes);
    RequestsIdle(v, v.(s := Credited(v.s, bytes), credit := v.credit - bytes));
    RxIdle(cfg, w, Credited(v.s, bytes));
  }

  lemma NotedOnly(t: Chan, id: nat, want: bool, queued: Option<Msg>)
    ensures var t' := Noted(t, id, want, queued); SameTx(t, t') && SameRxFlow(t, t')
  {
  }

  lemma Noting(cfg: Config, v: View, w: View, id: nat, want: bool, asks: multiset<nat>, queued: Option<Msg>)
    requires DirOk(cfg, v) && DirOk(cfg, w) && w.t == v.s
    requires w.asks == (if want then multiset{id} else multiset{}) + asks && (queued.Some? || want)
    ensures want ==> id !in w.t.incoming
    ensures DirOk(cfg, v.(s := Noted(w.t, id, want, queued)))
    ensures DirOk(cfg, w.(t := Noted(w.t, id, want, queued), asks := asks,
                          replies := w.replies + (if queued.Some? then multiset{} else multiset{id})))
  {
    KeepRequestArrives(w, id, want, asks, queued);
    var t := Noted(w.t, id, want, queued);
    NotedOnly(w.t, id, want, queued);
    RxFlow(cfg, w, t);
    TxIdle(cfg, v, t);
  }

  lemma Answered(cfg: Config, v: View, w: View, id: nat, replies: multiset<nat>, s: Chan)
    requires DirOk(cfg, v) && DirOk(cfg, w) && w.t == v.s && v.replies == multiset{id} + replies
    requires s == v.s.(pending := v.s.pending - {id}) && v.s.state.AllowsRequests()
    ensures id in v.s.pending
    ensures DirOk(cfg, v.(s := s, replies := replies)) && DirOk(cfg, w.(t := s))
  {
    KeepReplyArrives(v, id, replies);
    TxFlow(cfg, v, s);
    RxIdle(cfg, w, s);
  }
}
