/**
 One direction of one channel pair: sender channel s, receiver channel t and what is under way
 between them. `DirOk` is the invariant; every lemma below says that one kind of event keeps it.
 */
module Direction {
  import opened Types
  import opened SessionConfig
  import opened Envelope
  import opened Channel
  import opened Endpoint
  import opened Flight

  /** items: data and EOF from s to t; credit: adjusts from t to s; asks and replies: requests of s. */
  datatype View = View(
    s: Chan,
    t: Chan,
    items: seq<Item>,
    credit: nat,
    asks: multiset<nat>,
    replies: multiset<nat>)

  /** Direction from channel `o` to channel `q`; f carries messages to q's side, g to o's side. */
  function ViewOf(s: Chan, t: Chan, o: nat, q: nat, f: seq<Msg>, g: seq<Msg>): View {
    View(s, t, Stream(f, q), Adjusts(g, o), Asks(f, Some(q)), Replies(g, Some(o)))
  }

  function DataOf(items: seq<Item>): seq<Bytes> {
    if items == [] then []
    else (if items[0].Frame? then [items[0].data] else []) + DataOf(items[1..])
  }

  /** xs is ys with some elements left out. */
  predicate Sub(xs: seq<Bytes>, ys: seq<Bytes>) {
    || xs == []
    || (ys != [] && (
          || (xs[|xs| - 1] == ys[|ys| - 1] && Sub(xs[..|xs| - 1], ys[..|ys| - 1]))
          || Sub(xs, ys[..|ys| - 1])))
  }

  function EventIds(events: seq<Event>): multiset<nat> {
    if events == [] then multiset{}
    else EventId(events[0]) + EventIds(events[1..])
  }

  function EventId(ev: Event): multiset<nat> {
    if ev.RequestEvent? && ev.want then multiset{ev.id} else multiset{}
  }

  /** The window the sender has, or will have when it learns that its open succeeded. */
  function Window(cfg: Config, s: Chan): nat {
    if s.peer.None? then cfg.initialWindow else s.remoteWindow
  }

  predicate CreditOk(cfg: Config, v: View) {
    Window(cfg, v.s) + Total(v.s.reserved) + Total(DataOf(v.items)) + v.credit + v.t.pendingWindow + Total(v.t.frames)
      == cfg.initialWindow
  }

  predicate WindowOk(cfg: Config, t: Chan) {
    && t.pendingWindow < cfg.windowAdjustThreshold
    && (t.peer.Some? ==> t.localWindow + Total(t.frames) == cfg.initialWindow && t.maxLocalPacket == cfg.maxPacketSize)
    && t.arrived == t.delivered + t.frames
  }

  /** End comes once, last, and exactly between the sender's EOF and the receiver's. */
  predicate StreamOk(v: View) {
    if v.t.state.GotEof() then v.s.state.SentEof() && v.items == []
    else
      && (v.s.state.SentEof() ==> v.items != [])
      && forall i :: 0 <= i < |v.items| ==> (v.items[i].End? <==> v.s.state.SentEof() && i == |v.items| - 1)
  }

  predicate FramesOk(cfg: Config, v: View) {
    && (forall i :: 0 <= i < |v.items| && v.items[i].Frame? ==> 0 < |v.items[i].data| <= cfg.maxPacketSize)
    && (forall i :: 0 <= i < |v.s.reserved| ==> 0 < |v.s.reserved[i]| <= cfg.maxPacketSize)
  }

  predicate OrderOk(v: View) {
    && Sub(v.t.arrived + DataOf(v.items), v.s.sent)
    && |v.s.sent| == |v.t.arrived| + |DataOf(v.items)| + v.s.cancels
  }

  /** Every awaited request is in exactly one place; ids are never reused. */
  predicate RequestsOk(v: View) {
    && v.asks + EventIds(v.t.events) + v.replies == multiset(v.s.pending)
    && (forall id :: id in v.s.pending ==> id < v.s.nextRequest)
    && (forall id :: id in v.t.incoming ==> id < v.s.nextRequest && id !in v.asks)
  }

  predicate SenderOk(cfg: Config, s: Chan) {
    && (s.state.Opening? || s.state.AllowsRequests())
    && (s.state.Opening? ==> s.reserved == [] && s.sent == [] && s.pending == {} && s.cancels == 0)
    && (s.peer.None? ==> s.state.Opening?)
    && (s.peer.Some? ==> s.maxRemotePacket == cfg.maxPacketSize)
  }

  predicate FlowOk(cfg: Config, v: View) {
    && SenderOk(cfg, v.s)
    && CreditOk(cfg, v)
    && WindowOk(cfg, v.t)
    && StreamOk(v)
    && FramesOk(cfg, v)
    && OrderOk(v)
  }

  predicate DirOk(cfg: Config, v: View) {
    FlowOk(cfg, v) && RequestsOk(v)
  }

  // ----- subsequences

  lemma {:induction false} SubLonger(xs: seq<Bytes>, ys: seq<Bytes>)
    requires Sub(xs, ys)
    ensures |xs| <= |ys|
    decreases |ys|
  {
    if xs != [] {
      if xs[|xs| - 1] == ys[|ys| - 1] && Sub(xs[..|xs| - 1], ys[..|ys| - 1]) {
        SubLonger(xs[..|xs| - 1], ys[..|ys| - 1]);
      } else {
        SubLonger(xs, ys[..|ys| - 1]);
      }
    }
  }

  lemma {:induction false} SubEqual(xs: seq<Bytes>, ys: seq<Bytes>)
    requires Sub(xs, ys) && |xs| == |ys|
    ensures xs == ys
  {
    if xs == [] {
    } else if xs[|xs| - 1] == ys[|ys| - 1] && Sub(xs[..|xs| - 1], ys[..|ys| - 1]) {
      SubEqual(xs[..|xs| - 1], ys[..|ys| - 1]);
      assert xs == xs[..|xs| - 1] + [xs[|xs| - 1]] && ys == ys[..|ys| - 1] + [ys[|ys| - 1]];
    } else {
      SubLonger(xs, ys[..|ys| - 1]);
    }
  }

  lemma SubAppend(xs: seq<Bytes>, ys: seq<Bytes>, b: Bytes)
    requires Sub(xs, ys)
    ensures Sub(xs + [b], ys + [b])
  {
    assert (xs + [b])[..|xs + [b]| - 1] == xs && (ys + [b])[..|ys + [b]| - 1] == ys;
  }

  lemma {:induction false} SubRemove(a: seq<Bytes>, x: Bytes, b: seq<Bytes>, ys: seq<Bytes>)
    requires Sub(a + [x] + b, ys)
    ensures Sub(a + b, ys)
    decreases |ys|
  {
    var xs := a + [x] + b;
    var ys' := ys[..|ys| - 1];
    if xs[|xs| - 1] == ys[|ys| - 1] && Sub(xs[..|xs| - 1], ys') {
      if b == [] {
        assert xs[..|xs| - 1] == a && a + b == a;
      } else {
        var b' := b[..|b| - 1];
        assert xs[..|xs| - 1] == a + [x] + b';
        SubRemove(a, x, b', ys');
        assert (a + b)[..|a + b| - 1] == a + b';
      }
    } else {
      SubRemove(a, x, b, ys');
    }
  }

  lemma {:induction false} SubPrefix(xs: seq<Bytes>, zs: seq<Bytes>, ys: seq<Bytes>)
    requires Sub(xs + zs, ys)
    ensures Sub(xs, ys)
    decreases |zs|
  {
    if zs == [] {
      assert xs + zs == xs;
    } else {
      assert xs + zs == xs + [zs[0]] + zs[1..];
      SubRemove(xs, zs[0], zs[1..], ys);
      SubPrefix(xs, zs[1..], ys);
    }
  }

  // ----- concatenation

  lemma {:induction false} DataConcat(a: seq<Item>, b: seq<Item>)
    ensures DataOf(a + b) == DataOf(a) + DataOf(b)
  {
    if a == [] {
      assert a + b == b;
    } else {
      assert (a + b)[1..] == a[1..] + b;
      DataConcat(a[1..], b);
    }
  }

  lemma DataUnit(it: Item)
    ensures DataOf([it]) == (if it.Frame? then [it.data] else [])
  {
    assert [it][1..] == [];
  }

  lemma {:induction false} EventsConcat(a: seq<Event>, b: seq<Event>)
    ensures EventIds(a + b) == EventIds(a) + EventIds(b)
  {
    if a == [] {
      assert a + b == b;
    } else {
      assert (a + b)[1..] == a[1..] + b;
      EventsConcat(a[1..], b);
    }
  }

  lemma EventsAppend(events: seq<Event>, ev: Event)
    ensures EventIds(events + [ev]) == EventIds(events) + EventId(ev)
  {
    EventsConcat(events, [ev]);
    assert [ev][1..] == [];
  }

  lemma NoWrap(a: nat, b: nat)
    requires a + b < U32_LIMIT
    ensures AddU32(a, b) == a + b
  {
  }

  // ----- what each event does to the flow of data

  /** Send, first half. */
  lemma KeepReserve(cfg: Config, v: View, frame: Bytes)
    requires FlowOk(cfg, v) && v.s.peer.Some? && CanReserve(v.s, frame)
    ensures FlowOk(cfg, v.(s := Reserve(v.s, frame)))
  {
    TotalConcat(v.s.reserved, [frame]);
    TotalSingle(frame);
  }

  /** Send, second half. */
  lemma KeepQueue(cfg: Config, v: View, i: nat)
    requires FlowOk(cfg, v) && i < |v.s.reserved| && !v.s.state.SentEof()
    ensures FlowOk(cfg, v.(s := Queued(v.s, i), items := v.items + [Frame(v.s.reserved[i])]))
  {
    QueueCredit(v, i);
    QueueOrder(v, v.s.reserved[i]);
  }

  lemma QueueCredit(v: View, i: nat)
    requires i < |v.s.reserved|
    ensures Total(Drop(v.s.reserved, i)) + Total(DataOf(v.items + [Frame(v.s.reserved[i])]))
         == Total(v.s.reserved) + Total(DataOf(v.items))
  {
    var b := v.s.reserved[i];
    TotalDrop(v.s.reserved, i);
    DataConcat(v.items, [Frame(b)]);
    DataUnit(Frame(b));
    TotalConcat(DataOf(v.items), [b]);
    TotalSingle(b);
  }

  lemma QueueOrder(v: View, b: Bytes)
    requires OrderOk(v)
    ensures OrderOk(v.(s := v.s.(sent := v.s.sent + [b]), items := v.items + [Frame(b)]))
  {
    DataConcat(v.items, [Frame(b)]);
    DataUnit(Frame(b));
    SubAppend(v.t.arrived + DataOf(v.items), v.s.sent, b);
    assert v.t.arrived + (DataOf(v.items) + [b]) == v.t.arrived + DataOf(v.items) + [b];
  }

  /** Send whose frame never got into the queue. */
  lemma KeepRefund(cfg: Config, v: View, i: nat)
    requires Checked(cfg) && FlowOk(cfg, v) && v.s.peer.Some? && i < |v.s.reserved|
    ensures FlowOk(cfg, v.(s := Refund(v.s, |v.s.reserved[i]|).(reserved := Drop(v.s.reserved, i))))
  {
    TotalDrop(v.s.reserved, i);
  }

  /** Send cancelled while its frame was still in the queue. */
  lemma KeepCancel(cfg: Config, v: View, items: seq<Item>, data: Bytes)
    requires Checked(cfg) && FlowOk(cfg, v) && v.s.peer.Some? && Cut(v.items, items, [Frame(data)])
    ensures FlowOk(cfg, v.(s := Refund(v.s, |data|).(cancels := v.s.cancels + 1), items := items))
  {
    CancelCredit(cfg, v, items, data);
    CancelFlow(cfg, v, items, data);
  }

  function Cancelled(s: Chan, size: nat): Chan {
    s.(remoteWindow := s.remoteWindow + size, cancels := s.cancels + 1)
  }

  lemma CancelFlow(cfg: Config, v: View, items: seq<Item>, data: Bytes)
    requires FlowOk(cfg, v) && v.s.peer.Some? && Cut(v.items, items, [Frame(data)])
    requires CreditOk(cfg, v.(s := Cancelled(v.s, |data|), items := items))
    ensures FlowOk(cfg, v.(s := Cancelled(v.s, |data|), items := items))
  {
    CancelStream(v, items, data);
    CancelFrames(cfg, v, items, data);
    CancelOrder(v, items, data);
  }

  lemma CancelCredit(cfg: Config, v: View, items: seq<Item>, data: Bytes)
    requires Checked(cfg) && CreditOk(cfg, v) && v.s.peer.Some? && Cut(v.items, items, [Frame(data)])
    ensures Refund(v.s, |data|) == v.s.(remoteWindow := v.s.remoteWindow + |data|)
    ensures CreditOk(cfg, v.(s := Cancelled(v.s, |data|), items := items))
  {
    CutTotal(v.items, items, data);
  }

  lemma CutTotal(before: seq<Item>, after: seq<Item>, data: Bytes)
    requires Cut(before, after, [Frame(data)])
    ensures Total(DataOf(before)) == Total(DataOf(after)) + |data|
  {
    var a, b :| Split(before, after, a, b, [Frame(data)]);
    DataMid(a, data, b);
    DataConcat(a, b);
    TotalMid(DataOf(a), data, DataOf(b));
  }

  lemma CancelOrder(v: View, items: seq<Item>, data: Bytes)
    requires OrderOk(v) && Cut(v.items, items, [Frame(data)])
    ensures OrderOk(v.(s := Cancelled(v.s, |data|), items := items))
  {
    var a, b :| Split(v.items, items, a, b, [Frame(data)]);
    DataMid(a, data, b);
    DataConcat(a, b);
    SubMid(v.t.arrived, DataOf(a), data, DataOf(b), v.s.sent);
  }

  lemma CancelFrames(cfg: Config, v: View, items: seq<Item>, data: Bytes)
    requires FramesOk(cfg, v) && Cut(v.items, items, [Frame(data)])
    ensures FramesOk(cfg, v.(items := items))
  {
    var a, b :| Split(v.items, items, a, b, [Frame(data)]);
    forall i | 0 <= i < |items| && items[i].Frame? ensures 0 < |items[i].data| <= cfg.maxPacketSize {
      assert items[i] == v.items[if i < |a| then i else i + 1];
    }
  }

  lemma CancelStream(v: View, items: seq<Item>, data: Bytes)
    requires StreamOk(v) && Cut(v.items, items, [Frame(data)])
    ensures StreamOk(v.(items := items))
  {
    var a, b :| Split(v.items, items, a, b, [Frame(data)]);
    forall i | 0 <= i < |items|
      ensures items[i].End? <==> v.s.state.SentEof() && i == |items| - 1
    {
      if i < |a| {
        assert items[i] == v.items[i];
        if b == [] && i == |a| - 1 {
          assert v.items[|v.items| - 1] == Frame(data);
        }
      } else {
        assert items[i] == v.items[i + 1];
      }
    }
    assert v.items[|a|] == Frame(data);
  }

  lemma DataMid(a: seq<Item>, data: Bytes, b: seq<Item>)
    ensures DataOf(a + [Frame(data)] + b) == DataOf(a) + [data] + DataOf(b)
  {
    DataConcat(a + [Frame(data)], b);
    DataConcat(a, [Frame(data)]);
    DataUnit(Frame(data));
  }

  lemma TotalMid(x: seq<Bytes>, data: Bytes, y: seq<Bytes>)
    ensures Total(x + [data] + y) == Total(x + y) + |data|
  {
    TotalConcat(x + [data], y);
    TotalConcat(x, [data]);
    TotalConcat(x, y);
    TotalSingle(data);
  }

  lemma SubMid(p: seq<Bytes>, x: seq<Bytes>, data: Bytes, y: seq<Bytes>, ys: seq<Bytes>)
    requires Sub(p + (x + [data] + y), ys)
    ensures Sub(p + (x + y), ys)
  {
    assert p + (x + [data] + y) == (p + x) + [data] + y;
    SubRemove(p + x, data, y, ys);
    assert p + (x + y) == (p + x) + y;
  }

  lemma EofStream(v: View, s: Chan)
    requires StreamOk(v) && !v.s.state.SentEof() && s.state.SentEof()
    ensures StreamOk(v.(s := s, items := v.items + [End]))
  {
  }

  lemma EofData(cfg: Config, v: View, s: Chan)
    requires FramesOk(cfg, v) && s.reserved == v.s.reserved
    ensures FramesOk(cfg, v.(s := s, items := v.items + [End])) && DataOf(v.items + [End]) == DataOf(v.items)
  {
    DataConcat(v.items, [End]);
    DataUnit(End);
  }

  /** CloseWrite, whether or not a Send is between its two halves. */
  lemma KeepEofSent(cfg: Config, v: View)
    requires FlowOk(cfg, v) && v.s.state.CanSendData() && v.s.peer.Some?
    ensures FlowOk(cfg, v.(s := v.s.(state := SendEofState(v.s.state)), items := v.items + [End]))
  {
    var s := v.s.(state := SendEofState(v.s.state));
    EofStream(v, s);
    EofData(cfg, v, s);
  }

  /** A frame of an honest sender is accepted; taking it in keeps the invariant. */
  lemma KeepArrive(cfg: Config, v: View)
    requires FlowOk(cfg, v) && v.items != [] && v.items[0].Frame? && v.t.peer.Some?
    ensures v.t.state.AllowsRequests() ==> AcceptsData(v.t, v.items[0].data)
    ensures |v.items[0].data| <= v.t.localWindow
    ensures FlowOk(cfg, v.(t := Arrive(v.t, v.items[0].data), items := v.items[1..]))
  {
    var b, items' := v.items[0].data, v.items[1..];
    HeadData(v.items);
    TotalConcat([b], DataOf(items'));
    TotalConcat(v.t.frames, [b]);
    TotalSingle(b);
    assert v.t.arrived + [b] + DataOf(items') == v.t.arrived + DataOf(v.items);
    assert forall i :: 0 <= i < |items'| ==> items'[i] == v.items[i + 1];
    assert v.t.delivered + (v.t.frames + [b]) == v.t.arrived + [b];
  }

  lemma HeadData(items: seq<Item>)
    requires items != [] && items[0].Frame?
    ensures DataOf(items) == [items[0].data] + DataOf(items[1..])
  {
  }

  /** The EOF of an honest sender is accepted. */
  lemma KeepEofArrives(cfg: Config, v: View, events: seq<Event>)
    requires FlowOk(cfg, v) && v.items != [] && v.items[0].End? && v.t.state.AllowsRequests()
    ensures v.t.state.CanReceiveData()
    ensures FlowOk(cfg, v.(t := v.t.(state := GetEofState(v.t.state), events := events), items := v.items[1..]))
  {
    assert |v.items| == 1;
    DataUnit(v.items[0]);
    assert v.items == [v.items[0]] && v.items[1..] == [];
  }

  /** Recv's arithmetic: neither 32-bit addition wraps. */
  lemma TakeArith(cfg: Config, t: Chan, rest: nat)
    requires Checked(cfg) && t.frames != [] && t.peer.Some? && WindowOk(cfg, t)
    requires rest + t.pendingWindow + Total(t.frames) == cfg.initialWindow
    ensures var t' := Take(cfg, t);
            && WindowOk(cfg, t') && t'.localWindow == t.localWindow + |t.frames[0]|
            && rest + Credit(cfg, t) + t'.pendingWindow + Total(t'.frames) == cfg.initialWindow
  {
    var size := |t.frames[0]|;
    assert Total(t.frames) == size + Total(t.frames[1..]);
    NoWrap(t.pendingWindow, size);
    NoWrap(t.localWindow, size);
    assert t.delivered + [t.frames[0]] + t.frames[1..] == t.delivered + t.frames;
  }

  /** Recv, with the adjust it may emit. */
  lemma KeepTake(cfg: Config, v: View)
    requires Checked(cfg) && FlowOk(cfg, v) && v.t.frames != [] && v.t.peer.Some?
    ensures FlowOk(cfg, v.(t := Take(cfg, v.t), credit := v.credit + Credit(cfg, v.t)))
    ensures Take(cfg, v.t).localWindow == v.t.localWindow + |v.t.frames[0]|
  {
    TakeArith(cfg, v.t, Window(cfg, v.s) + Total(v.s.reserved) + Total(DataOf(v.items)) + v.credit);
  }

  /** The sender always accepts credit, without overflow. */
  lemma KeepAdjust(cfg: Config, v: View, bytes: nat)
    requires Checked(cfg) && FlowOk(cfg, v) && bytes <= v.credit && v.s.peer.Some? && v.s.state.AllowsRequests()
    ensures AcceptsAdjust(v.s, bytes) && AddU32(v.s.remoteWindow, bytes) == v.s.remoteWindow + bytes
    ensures FlowOk(cfg, v.(s := v.s.(remoteWindow := AddU32(v.s.remoteWindow, bytes)), credit := v.credit - bytes))
  {
    AdjustFits(cfg, v, bytes);
  }

  lemma AdjustFits(cfg: Config, v: View, bytes: nat)
    requires Checked(cfg) && CreditOk(cfg, v) && bytes <= v.credit && v.s.peer.Some?
    ensures v.s.remoteWindow + bytes <= cfg.initialWindow
    ensures AddU32(v.s.remoteWindow, bytes) == v.s.remoteWindow + bytes
  {
  }

  // ----- what each event does to the requests under way

  lemma KeepAsk(v: View, want: bool)
    requires RequestsOk(v)
    ensures var id := v.s.nextRequest;
            RequestsOk(v.(s := v.s.(nextRequest := id + 1, pending := if want then v.s.pending + {id} else v.s.pending),
                          asks := v.asks + (if want then multiset{id} else multiset{})))
  {
    var id := v.s.nextRequest;
    assert id !in v.s.pending && id !in v.t.incoming;
    if want {
      assert multiset(v.s.pending + {id}) == multiset(v.s.pending) + multiset{id};
    }
  }

  /** A queued request that its caller cancels in time leaves no trace. */
  lemma KeepUnask(v: View, id: nat, want: bool, asks: multiset<nat>)
    requires RequestsOk(v) && v.asks == asks + (if want then multiset{id} else multiset{})
    requires !want ==> id !in v.s.pending
    ensures RequestsOk(v.(s := v.s.(pending := v.s.pending - {id}), asks := asks))
  {
    if want {
      assert v.asks[id] >= 1 && multiset(v.s.pending)[id] == 1;
      assert multiset(v.s.pending - {id}) == multiset(v.s.pending) - multiset{id};
    } else {
      assert v.s.pending - {id} == v.s.pending;
    }
  }

  /** The receiver after a request: with its event in the queue, or refused at once. */
  function Noted(t: Chan, id: nat, want: bool, queued: Option<Msg>): Chan {
    var noted := if want then t.(incoming := t.incoming + {id}) else t;
    if queued.Some? then noted.(events := t.events + [RequestEvent(id, want, queued.value)]) else noted
  }

  /** A request of an honest peer is no duplicate; it is queued, or turned down at once. */
  lemma KeepRequestArrives(v: View, id: nat, want: bool, asks: multiset<nat>, queued: Option<Msg>)
    requires RequestsOk(v) && v.asks == (if want then multiset{id} else multiset{}) + asks && (queued.Some? || want)
    ensures want ==> id !in v.t.incoming
    ensures RequestsOk(v.(t := Noted(v.t, id, want, queued), asks := asks,
                          replies := v.replies + (if queued.Some? then multiset{} else multiset{id})))
  {
    if want {
      AwaitedOnce(v, id);
    }
    if queued.Some? {
      EventsAppend(v.t.events, RequestEvent(id, want, queued.value));
    }
    var t' := Noted(v.t, id, want, queued);
    var replies := v.replies + (if queued.Some? then multiset{} else multiset{id});
    BagMove(v.asks, asks, EventIds(v.t.events), EventIds(t'.events), v.replies, replies, id, want, queued.Some?);
  }

  lemma BagMove(asks: multiset<nat>, asks': multiset<nat>, ev: multiset<nat>, ev': multiset<nat>,
                rep: multiset<nat>, rep': multiset<nat>, id: nat, want: bool, queued: bool)
    requires asks == (if want then multiset{id} else multiset{}) + asks' && (queued || want)
    requires ev' == ev + (if want && queued then multiset{id} else multiset{})
    requires rep' == rep + (if queued then multiset{} else multiset{id})
    ensures asks' + ev' + rep' == asks + ev + rep
  {
  }

  lemma AwaitedOnce(v: View, id: nat)
    requires RequestsOk(v) && v.asks[id] > 0
    ensures v.asks[id] == 1 && id in v.s.pending && id !in v.t.incoming
  {
    assert multiset(v.s.pending)[id] <= 1;
    assert (v.asks + EventIds(v.t.events) + v.replies)[id] == v.asks[id] + EventIds(v.t.events)[id] + v.replies[id];
  }

  lemma KeepEventHandled(v: View)
    requires RequestsOk(v) && v.t.events != []
    ensures RequestsOk(v.(t := v.t.(events := v.t.events[1..]), replies := v.replies + EventId(v.t.events[0])))
  {
  }

  /** A reply always meets its waiter. */
  lemma KeepReplyArrives(v: View, id: nat, replies: multiset<nat>)
    requires RequestsOk(v) && v.replies == multiset{id} + replies
    ensures id in v.s.pending
    ensures RequestsOk(v.(s := v.s.(pending := v.s.pending - {id}), replies := replies))
  {
    assert id in v.replies && multiset(v.s.pending)[id] >= 1;
    assert multiset(v.s.pending - {id}) == multiset(v.s.pending) - multiset{id};
  }
}
