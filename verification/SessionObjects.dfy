/**
 The Session object with its queues, budgets, channel table and counters, updated in place. Each
 method is a critical section of lib/session, or a few of them in a row; `Valid` says that every book
 is exact at every moment between two critical sections, because it counts what goroutines hold in
 hand. A channel's own fields are a value in the session's list of all channels, at the index of its id.
 */
module SessionObjects {
  import opened Types
  import opened SessionConfig
  import opened Envelope
  import opened Channel
  import Budget

  // ----- one channel

  /**
   The accounting fields of Go's Channel. `inHand` is the event its worker has taken out of the queue
   and not yet given back to the budget; `discarded` records that the queues were given up.
   */
  datatype Desk = Desk(
    peer: Option<nat>,
    slot: Slot,
    state: State,
    localWindow: nat,
    maxLocalPacket: nat,
    pendingWindow: nat,
    frames: seq<Bytes>,
    events: seq<Event>,
    inHand: Option<Event>,
    queuedFrames: nat,
    queuedBytes: nat,
    nextRequest: nat,
    pending: set<nat>,
    discarded: bool)

  function HeldFrames(d: Desk): nat {
    |d.frames| + |d.events| + (if d.inHand.Some? then 1 else 0)
  }

  function HeldBytes(d: Desk): nat {
    Total(d.frames) + EventBytes(d.events) + (if d.inHand.Some? then EventSize(d.inHand.value) else 0)
  }

  /** The counters equal the queues until these are discarded, and stay zero afterwards. */
  predicate DeskOk(l: Limits, d: Desk) {
    && (if d.discarded
        then d.frames == [] && d.queuedFrames == 0 && d.queuedBytes == 0 && !d.state.Opening? && !d.state.AllowsRequests()
        else d.queuedFrames == HeldFrames(d) && d.queuedBytes == HeldBytes(d))
    && d.queuedFrames <= l.maxQueuedFramesPerChannel
    && d.queuedBytes <= l.maxQueuedBytesPerChannel
    && |d.pending| <= l.maxPendingChannelRequestsPerChannel
    && (forall id :: id in d.pending ==> id < d.nextRequest)
  }

  lemma {:induction false} EventsAppend(events: seq<Event>, ev: Event)
    ensures EventBytes(events + [ev]) == EventBytes(events) + EventSize(ev)
  {
    if events == [] {
      assert events + [ev] == [ev] && [ev][1..] == [];
    } else {
      assert (events + [ev])[1..] == events[1..] + [ev];
      EventsAppend(events[1..], ev);
    }
  }

  // ----- what the methods do to a channel's fields

  predicate Welcome(d: Desk, data: Bytes) {
    data != [] && d.state.CanReceiveData() && |data| <= d.maxLocalPacket && |data| <= d.localWindow
  }

  /** The channel's own limits have room for one more entry. */
  predicate DeskRoom(l: Limits, d: Desk, bytes: nat) {
    d.queuedFrames + 1 <= l.maxQueuedFramesPerChannel && d.queuedBytes + bytes <= l.maxQueuedBytesPerChannel
  }

  function Stored(d: Desk, data: Bytes): Desk
    requires |data| <= d.localWindow
  {
    d.(localWindow := d.localWindow - |data|, frames := d.frames + [data],
       queuedFrames := d.queuedFrames + 1, queuedBytes := d.queuedBytes + |data|)
  }

  function Less(a: nat, b: nat): nat {
    if b > a then 0 else a - b
  }

  /** The credit that Recv sends back for the first frame, or 0. */
  function CreditFor(d: Desk, threshold: nat): nat
    requires d.frames != []
  {
    var pending := AddU32(d.pendingWindow, |d.frames[0]|);
    if pending >= threshold then pending else 0
  }

  function Taken(d: Desk, threshold: nat): Desk
    requires d.frames != []
  {
    var size := |d.frames[0]|;
    d.(frames := d.frames[1..], localWindow := AddU32(d.localWindow, size),
       pendingWindow := AddU32(d.pendingWindow, size) - CreditFor(d, threshold),
       queuedFrames := Less(d.queuedFrames, 1), queuedBytes := Less(d.queuedBytes, size))
  }

  function Pushed(d: Desk, ev: Event): Desk {
    d.(events := d.events + [ev], queuedFrames := d.queuedFrames + 1, queuedBytes := d.queuedBytes + EventSize(ev))
  }

  /** The worker takes the first event out of the queue. */
  function Picked(d: Desk): Desk
    requires d.events != []
  {
    d.(events := d.events[1..], inHand := Some(d.events[0]))
  }

  /** It gives the event's share back. */
  function Returned(d: Desk): Desk
    requires d.inHand.Some?
  {
    d.(inHand := None, queuedFrames := Less(d.queuedFrames, 1), queuedBytes := Less(d.queuedBytes, EventSize(d.inHand.value)))
  }

  function Emptied(d: Desk, state: State): Desk {
    d.(state := state, frames := [], queuedFrames := 0, queuedBytes := 0, pending := {}, discarded := true)
  }

  lemma StoredOk(l: Limits, d: Desk, data: Bytes)
    requires DeskOk(l, d) && !d.discarded && |data| <= d.localWindow && DeskRoom(l, d, |data|)
    ensures DeskOk(l, Stored(d, data))
  {
    TotalConcat(d.frames, [data]);
    TotalSingle(data);
  }

  lemma TakenOk(l: Limits, d: Desk, threshold: nat)
    requires DeskOk(l, d) && d.frames != []
    ensures DeskOk(l, Taken(d, threshold))
    ensures Taken(d, threshold).queuedFrames + 1 == d.queuedFrames
    ensures Taken(d, threshold).queuedBytes + |d.frames[0]| == d.queuedBytes
  {
  }

  lemma PushedOk(l: Limits, d: Desk, ev: Event)
    requires DeskOk(l, d) && !d.discarded && DeskRoom(l, d, EventSize(ev))
    ensures DeskOk(l, Pushed(d, ev))
  {
    EventsAppend(d.events, ev);
  }

  lemma PickedOk(l: Limits, d: Desk)
    requires DeskOk(l, d) && d.events != [] && d.inHand.None?
    ensures DeskOk(l, Picked(d))
  {
  }

  lemma ReturnedOk(l: Limits, d: Desk)
    requires DeskOk(l, d) && d.inHand.Some?
    ensures DeskOk(l, Returned(d))
    ensures d.queuedFrames - Returned(d).queuedFrames == (if d.discarded then 0 else 1)
    ensures d.queuedBytes - Returned(d).queuedBytes == (if d.discarded then 0 else EventSize(d.inHand.value))
  {
  }

  lemma EmptiedOk(l: Limits, d: Desk, state: State)
    requires DeskOk(l, d) && !state.Opening? && !state.AllowsRequests()
    ensures DeskOk(l, Emptied(d, state))
  {
  }

  lemma AskedOk(l: Limits, d: Desk)
    requires DeskOk(l, d)
    ensures DeskOk(l, d.(nextRequest := d.nextRequest + 1))
    ensures |d.pending| < l.maxPendingChannelRequestsPerChannel ==>
              DeskOk(l, d.(nextRequest := d.nextRequest + 1, pending := d.pending + {d.nextRequest}))
    ensures |d.pending + {d.nextRequest}| == |d.pending| + 1
  {
  }

  // ----- the same steps in the transition system

  /** The object's fields are those of the channel of the transition system. */
  predicate Mirrors(d: Desk, ch: Chan) {
    && d.peer == ch.peer && d.slot == ch.slot && d.state == ch.state && d.localWindow == ch.localWindow
    && d.maxLocalPacket == ch.maxLocalPacket && d.pendingWindow == ch.pendingWindow && d.frames == ch.frames
    && d.events == ch.events && d.nextRequest == ch.nextRequest && d.pending == ch.pending && d.discarded == ch.discarded
  }

  /** The methods below move a channel's fields as the steps of the transition system do. */
  lemma StepsMirror(cfg: Config, d: Desk, ch: Chan, data: Bytes)
    requires Mirrors(d, ch)
    ensures Welcome(d, data) <==> AcceptsData(ch, data)
    ensures Welcome(d, data) ==> Mirrors(Stored(d, data), Arrive(ch, data))
    ensures d.frames != [] ==>
              && Mirrors(Taken(d, cfg.windowAdjustThreshold), Take(cfg, ch))
              && CreditFor(d, cfg.windowAdjustThreshold) == Credit(cfg, ch)
    ensures Mirrors(Emptied(d, Closing), BeginClose(ch).(spoiled := ch.spoiled))
    ensures Mirrors(Emptied(d, FailedState(d.state)).(slot := NoSlot), Fail(ch))
  {
  }

  lemma EventsMirror(d: Desk, ch: Chan, ev: Event)
    requires Mirrors(d, ch)
    ensures Mirrors(Pushed(d, ev), ch.(events := ch.events + [ev]))
    ensures d.events != [] ==> Mirrors(Picked(d), ch.(events := ch.events[1..]))
    ensures d.inHand.Some? ==> Mirrors(Returned(d), ch)
  {
  }

  /** The object's counters are what the limits of the transition system count. */
  lemma CountersMirror(l: Limits, d: Desk, ch: Chan)
    requires Mirrors(d, ch) && DeskOk(l, d) && d.inHand.None?
    ensures d.queuedFrames == Budget.LoadOf(ch).frames && d.queuedBytes == Budget.LoadOf(ch).bytes && Budget.ChanWithin(l, ch)
  {
  }

  /** Where a channel goes that fails with its session. */
  function FailedState(st: State): State {
    if st.Closed? then Closed else Failed
  }

  // ----- the sum over all channels

  /** What channels contribute to the session's books. */
  datatype Tally = Tally(frames: nat, bytes: nat, requests: nat, pendings: nat, actives: nat)

  function Own(d: Desk): Tally {
    Tally(d.queuedFrames, d.queuedBytes, |d.pending|, if d.slot == Pending then 1 else 0, if d.slot == Active then 1 else 0)
  }

  function Plus(a: Tally, b: Tally): Tally {
    Tally(a.frames + b.frames, a.bytes + b.bytes, a.requests + b.requests, a.pendings + b.pendings, a.actives + b.actives)
  }

  function Sum(table: seq<Desk>): Tally {
    if table == [] then Tally(0, 0, 0, 0, 0) else Plus(Own(table[0]), Sum(table[1..]))
  }

  /** The sum follows the one channel that changed. */
  lemma {:induction false} SumUpdate(table: seq<Desk>, c: nat, d: Desk)
    requires c < |table|
    ensures Plus(Sum(table[c := d]), Own(table[c])) == Plus(Sum(table), Own(d))
  {
    if c == 0 {
      assert table[c := d][1..] == table[1..];
    } else {
      assert table[c := d][1..] == table[1..][c - 1 := d];
      SumUpdate(table[1..], c - 1, d);
    }
  }

  lemma {:induction false} SumAppend(table: seq<Desk>, d: Desk)
    ensures Sum(table + [d]) == Plus(Sum(table), Own(d))
  {
    if table == [] {
      assert table + [d] == [d];
    } else {
      assert (table + [d])[1..] == table[1..] + [d];
      SumAppend(table[1..], d);
    }
  }

  predicate AtMost(a: Tally, b: Tally) {
    a.frames <= b.frames && a.bytes <= b.bytes && a.requests <= b.requests && a.pendings <= b.pendings && a.actives <= b.actives
  }

  lemma {:induction false} SumMember(table: seq<Desk>, c: nat)
    requires c < |table|
    ensures AtMost(Own(table[c]), Sum(table))
  {
    if c > 0 {
      SumMember(table[1..], c - 1);
    }
  }

  lemma {:induction false} SumEmpty(table: seq<Desk>)
    requires forall c :: 0 <= c < |table| ==> table[c].queuedFrames == 0 && table[c].queuedBytes == 0
    ensures Sum(table).frames == 0 && Sum(table).bytes == 0
  {
    if table != [] {
      SumEmpty(table[1..]);
    }
  }

  /** The sums before and after d' took the place of d. */
  predicate Replaced(sum: Tally, sum': Tally, d: Desk, d': Desk) {
    && AtMost(Own(d), sum) && Plus(sum', Own(d)) == Plus(sum, Own(d'))
  }

  lemma SumReplaced(table: seq<Desk>, c: nat, d: Desk)
    requires c < |table|
    ensures Replaced(Sum(table), Sum(table[c := d]), table[c], d)
  {
    SumUpdate(table, c, d);
    SumMember(table, c);
  }

  // ----- the table

  predicate DesksOk(l: Limits, table: seq<Desk>) {
    forall c :: 0 <= c < |table| ==> DeskOk(l, table[c])
  }

  /** Channels in the table have a slot, and before shutdown only they do. */
  predicate SlotsOk(table: seq<Desk>, channels: set<nat>, closing: bool) {
    && (forall c :: c in channels ==> c < |table| && table[c].slot != NoSlot)
    && (!closing ==> forall c :: 0 <= c < |table| && table[c].slot != NoSlot ==> c in channels)
  }

  /** A peer id leads to the channel in the table that has it. */
  predicate PeersOk(table: seq<Desk>, channels: set<nat>, peers: map<nat, nat>) {
    forall p :: p in peers ==> peers[p] in channels && peers[p] < |table| && table[peers[p]].peer == Some(p)
  }

  predicate TableOk(l: Limits, table: seq<Desk>, channels: set<nat>, peers: map<nat, nat>, closing: bool) {
    DesksOk(l, table) && SlotsOk(table, channels, closing) && PeersOk(table, channels, peers)
  }

  lemma DesksSet(l: Limits, table: seq<Desk>, c: nat, d: Desk)
    requires DesksOk(l, table) && c < |table| && DeskOk(l, d)
    ensures DesksOk(l, table[c := d])
  {
  }

  lemma SlotsSet(table: seq<Desk>, channels: set<nat>, closing: bool, c: nat, d: Desk)
    requires SlotsOk(table, channels, closing) && c < |table| && d.slot == table[c].slot
    ensures SlotsOk(table[c := d], channels, closing)
  {
    forall k | k in channels ensures k < |table| && table[c := d][k].slot != NoSlot {
    }
    if !closing {
      forall k | 0 <= k < |table| && table[c := d][k].slot != NoSlot ensures k in channels {
        assert table[k].slot != NoSlot;
      }
    }
  }

  lemma PeersSet(table: seq<Desk>, channels: set<nat>, peers: map<nat, nat>, c: nat, d: Desk)
    requires PeersOk(table, channels, peers) && c < |table| && d.peer == table[c].peer
    ensures PeersOk(table[c := d], channels, peers)
  {
    forall p | p in peers ensures peers[p] in channels && peers[p] < |table| && table[c := d][peers[p]].peer == Some(p) {
    }
  }

  /** Replacing one channel's fields. */
  lemma SetDesk(l: Limits, table: seq<Desk>, channels: set<nat>, peers: map<nat, nat>, closing: bool, c: nat, d: Desk)
    requires TableOk(l, table, channels, peers, closing) && c < |table| && DeskOk(l, d)
    requires d.slot == table[c].slot && d.peer == table[c].peer
    ensures TableOk(l, table[c := d], channels, peers, closing)
    ensures Replaced(Sum(table), Sum(table[c := d]), table[c], d)
  {
    DesksSet(l, table, c, d);
    SlotsSet(table, channels, closing, c, d);
    PeersSet(table, channels, peers, c, d);
    SumReplaced(table, c, d);
  }

  function Fresh(peer: Option<nat>): Desk {
    Desk(peer, NoSlot, Opening, 0, 0, 0, [], [], None, 0, 0, 0, {}, false)
  }

  lemma AppendDesks(l: Limits, table: seq<Desk>, d: Desk)
    requires DesksOk(l, table) && DeskOk(l, d)
    ensures DesksOk(l, table + [d])
  {
    forall c | 0 <= c < |table + [d]| ensures DeskOk(l, (table + [d])[c]) {
      if c < |table| {
        assert (table + [d])[c] == table[c];
      }
    }
  }

  lemma AppendSlots(table: seq<Desk>, channels: set<nat>, peers: map<nat, nat>, closing: bool, d: Desk)
    requires SlotsOk(table, channels, closing) && PeersOk(table, channels, peers) && d.slot == NoSlot
    ensures SlotsOk(table + [d], channels, closing) && PeersOk(table + [d], channels, peers)
  {
    var longer := table + [d];
    assert forall c :: 0 <= c < |table| ==> longer[c] == table[c];
    forall p | p in peers ensures peers[p] in channels && peers[p] < |longer| && longer[peers[p]].peer == Some(p) {
    }
  }

  /** A new channel changes no book. */
  lemma AppendFresh(l: Limits, table: seq<Desk>, channels: set<nat>, peers: map<nat, nat>, closing: bool, peer: Option<nat>)
    requires TableOk(l, table, channels, peers, closing)
    ensures TableOk(l, table + [Fresh(peer)], channels, peers, closing) && Sum(table + [Fresh(peer)]) == Sum(table)
  {
    AppendDesks(l, table, Fresh(peer));
    AppendSlots(table, channels, peers, closing, Fresh(peer));
    SumAppend(table, Fresh(peer));
  }

  lemma SlotsMoved(table: seq<Desk>, channels: set<nat>, closing: bool, c: nat, d: Desk)
    requires SlotsOk(table, channels, closing) && c < |table|
    ensures d.slot != NoSlot ==> SlotsOk(table[c := d], channels + {c}, closing)
    ensures d.slot == NoSlot ==> SlotsOk(table[c := d], channels - {c}, closing)
  {
    var table' := table[c := d];
    assert forall k :: 0 <= k < |table| && k != c ==> table'[k] == table[k];
  }

  lemma PeersWider(table: seq<Desk>, channels: set<nat>, more: set<nat>, peers: map<nat, nat>)
    requires PeersOk(table, channels, peers) && forall p :: p in peers ==> peers[p] in more
    ensures PeersOk(table, more, peers)
  {
  }

  /** Moving one channel into another slot. */
  lemma SetSlot(l: Limits, table: seq<Desk>, channels: set<nat>, peers: map<nat, nat>, closing: bool, c: nat, d: Desk)
    requires TableOk(l, table, channels, peers, closing) && c < |table| && d == table[c].(slot := d.slot) && d.slot != NoSlot
    ensures TableOk(l, table[c := d], channels + {c}, peers, closing)
    ensures Replaced(Sum(table), Sum(table[c := d]), table[c], d)
  {
    DesksSet(l, table, c, d);
    SlotsMoved(table, channels, closing, c, d);
    PeersSet(table, channels, peers, c, d);
    PeersWider(table[c := d], channels, channels + {c}, peers);
    SumReplaced(table, c, d);
  }

  /** Taking one channel out of the table, once no peer id leads to it. */
  lemma ClearSlot(l: Limits, table: seq<Desk>, channels: set<nat>, peers: map<nat, nat>, closing: bool, c: nat, d: Desk)
    requires TableOk(l, table, channels, peers, closing) && c < |table| && d == table[c].(slot := NoSlot)
    requires forall p :: p in peers ==> peers[p] != c
    ensures TableOk(l, table[c := d], channels - {c}, peers, closing)
    ensures Replaced(Sum(table), Sum(table[c := d]), table[c], d)
  {
    DesksSet(l, table, c, d);
    SlotsMoved(table, channels, closing, c, d);
    PeersSet(table, channels, peers, c, d);
    PeersWider(table[c := d], channels, channels - {c}, peers);
    SumReplaced(table, c, d);
  }

  function Without(peers: map<nat, nat>, c: nat): map<nat, nat> {
    map p | p in peers && peers[p] != c :: peers[p]
  }

  lemma PeersAdd(table: seq<Desk>, channels: set<nat>, peers: map<nat, nat>, c: nat, p: nat)
    requires PeersOk(table, channels, peers) && c in channels && c < |table| && table[c].peer == Some(p)
    ensures PeersOk(table, channels, peers[p := c])
  {
  }

  /** The channel learns its peer's id. */
  lemma SetPeer(l: Limits, table: seq<Desk>, channels: set<nat>, peers: map<nat, nat>, closing: bool, c: nat, d: Desk, p: nat)
    requires TableOk(l, table, channels, peers, closing) && c in channels && table[c].peer.None? && d == table[c].(peer := Some(p))
    ensures TableOk(l, table[c := d], channels, peers[p := c], closing) && Sum(table[c := d]) == Sum(table)
  {
    DesksSet(l, table, c, d);
    SlotsSet(table, channels, closing, c, d);
    forall q | q in peers ensures peers[q] in channels && peers[q] < |table| && table[c := d][peers[q]].peer == Some(q) {
      assert peers[q] != c;
    }
    PeersAdd(table[c := d], channels, peers, c, p);
    SumUpdate(table, c, d);
  }

  /** The list of channels once those of the first i that are in `gone` have failed with the session. */
  predicate ShutDown(before: seq<Desk>, after: seq<Desk>, gone: set<nat>, i: nat) {
    && |after| == |before|
    && forall c :: 0 <= c < |before| ==>
         after[c] == if c < i && c in gone then Emptied(before[c], FailedState(before[c].state)) else before[c]
  }

  // ----- the session

  /** A reservation that a goroutine holds and no queue does: not yet pushed, or taken out and not yet given back. */
  datatype Share = Share(frames: nat, bytes: nat)

  function ShareFrames(shares: seq<Share>): nat {
    if shares == [] then 0 else shares[0].frames + ShareFrames(shares[1..])
  }

  function ShareBytes(shares: seq<Share>): nat {
    if shares == [] then 0 else shares[0].bytes + ShareBytes(shares[1..])
  }

  lemma {:induction false} SharesConcat(a: seq<Share>, b: seq<Share>)
    ensures ShareFrames(a + b) == ShareFrames(a) + ShareFrames(b) && ShareBytes(a + b) == ShareBytes(a) + ShareBytes(b)
  {
    if a == [] {
      assert a + b == b;
    } else {
      assert (a + b)[1..] == a[1..] + b;
      SharesConcat(a[1..], b);
    }
  }

  lemma ShareAdded(shares: seq<Share>, s: Share)
    ensures ShareFrames(shares + [s]) == ShareFrames(shares) + s.frames && ShareBytes(shares + [s]) == ShareBytes(shares) + s.bytes
  {
    SharesConcat(shares, [s]);
    assert [s][1..] == [];
  }

  lemma {:induction false} ShareDropped(shares: seq<Share>, i: nat)
    requires i < |shares|
    ensures ShareFrames(shares) == ShareFrames(Drop(shares, i)) + shares[i].frames
    ensures ShareBytes(shares) == ShareBytes(Drop(shares, i)) + shares[i].bytes
  {
    if i == 0 {
      assert Drop(shares, 0) == shares[1..];
    } else {
      assert Drop(shares, i)[1..] == Drop(shares[1..], i - 1);
      ShareDropped(shares[1..], i - 1);
    }
  }

  lemma ShareMember(shares: seq<Share>, s: Share)
    requires s in shares
    ensures s.frames <= ShareFrames(shares) && s.bytes <= ShareBytes(shares)
  {
    var i: nat :| i < |shares| && shares[i] == s;
    ShareDropped(shares, i);
  }

  lemma OneLess(shares: seq<Share>, i: nat)
    requires i < |shares|
    ensures multiset(Drop(shares, i)) == multiset(shares) - multiset{shares[i]}
  {
    assert shares == shares[..i] + ([shares[i]] + shares[i + 1..]);
  }

  lemma {:induction false} TasksAppend(tasks: seq<Msg>, m: Msg)
    ensures Budget.TaskBytes(tasks + [m]) == Budget.TaskBytes(tasks) + Body(m)
  {
    if tasks == [] {
      assert tasks + [m] == [m] && [m][1..] == [];
    } else {
      assert (tasks + [m])[1..] == tasks[1..] + [m];
      TasksAppend(tasks[1..], m);
    }
  }

  lemma {:induction false} WritesAppend(writes: seq<Msg>, m: Msg)
    ensures Budget.ControlBytes(writes + [m]) == Budget.ControlBytes(writes) + Size(m)
  {
    if writes == [] {
      assert writes + [m] == [m] && [m][1..] == [];
    } else {
      assert (writes + [m])[1..] == writes[1..] + [m];
      WritesAppend(writes[1..], m);
    }
  }

  datatype Enqueued = Queued | Full | Shut | Exhausted
  datatype Handled = Done | Violation | NoRoom | Overflow
  datatype Admitted = Added | TableFull | Duplicate
  datatype Activated = Activated | NotPending | Underflow
  datatype Registered = Sent(id: nat) | IdsExhausted | ChannelFull | SessionFull
  datatype Closed = Ignored | Abandoned | Sending

  /** Until shutdown the slot and request counters are exact and within the limits; `loose` waiters are in no channel's map. */
  predicate CountersOk(l: Limits, pendings: nat, actives: nat, requests: nat, loose: nat, sum: Tally) {
    && pendings == sum.pendings <= l.maxPendingOpens
    && actives == sum.actives
    && actives + pendings <= l.maxChannels
    && requests == sum.requests + loose <= l.maxPendingChannelRequests
  }

  lemma SlotGivenBack(l: Limits, p: nat, a: nat, r: nat, loose: nat, sum: Tally, sum': Tally, d: Desk)
    requires Replaced(sum, sum', d, d.(slot := NoSlot))
    ensures CountersOk(l, p, a, r, loose, sum) ==>
              CountersOk(l, Less(p, if d.slot == Pending then 1 else 0), Less(a, if d.slot == Active then 1 else 0), r, loose, sum')
  {
  }

  class SessionObject {
    const limits: Limits
    const threshold: nat
    var table: seq<Desk>
    var channels: set<nat>
    var peerChannelIDs: map<nat, nat>
    var activeChannels: nat
    var pendingOpens: nat
    var pendingChannelRequests: nat
    var closing: bool
    var queuedFrames: nat
    var queuedBytes: nat
    var queuesClosed: bool
    var dispatchQueue: seq<Msg>
    var controlQueue: seq<Msg>
    var outboundQueue: seq<Msg>

    /** What goroutines have in hand: shares of the budget, and waiters taken out of a channel's map or not yet in it. */
    ghost var transit: seq<Share>
    ghost var loose: nat

    ghost predicate BudgetOk()
      reads this
    {
      && queuedFrames == |dispatchQueue| + |controlQueue| + |outboundQueue| + Sum(table).frames + ShareFrames(transit)
      && queuedBytes == Budget.TaskBytes(dispatchQueue) + Budget.ControlBytes(controlQueue) + Budget.ControlBytes(outboundQueue)
                        + Sum(table).bytes + ShareBytes(transit)
      && queuedFrames <= limits.maxQueuedFramesTotal && queuedBytes <= limits.maxQueuedBytesTotal
    }

    ghost predicate Valid()
      reads this
    {
      && TableOk(limits, table, channels, peerChannelIDs, closing)
      && BudgetOk()
      && (!closing ==> CountersOk(limits, pendingOpens, activeChannels, pendingChannelRequests, loose, Sum(table)))
    }

    constructor (limits: Limits, threshold: nat)
      ensures Valid() && table == [] && transit == [] && loose == 0 && !closing && !queuesClosed
      ensures this.limits == limits && this.threshold == threshold
    {
      this.limits, this.threshold := limits, threshold;
      table, channels, peerChannelIDs := [], {}, map[];
      activeChannels, pendingOpens, pendingChannelRequests, closing := 0, 0, 0, false;
      queuedFrames, queuedBytes, queuesClosed := 0, 0, false;
      dispatchQueue, controlQueue, outboundQueue := [], [], [];
      transit, loose := [], 0;
    }

    // ----- the budget

    /** reserveQueueBudget */
    method ReserveQueueBudget(frames: nat, bytes: nat) returns (ok: bool)
      requires Valid()
      modifies this`queuedFrames, this`queuedBytes, this`transit
      ensures Valid()
      ensures ok <==> old(queuedFrames) + frames <= limits.maxQueuedFramesTotal && old(queuedBytes) + bytes <= limits.maxQueuedBytesTotal
      ensures transit == old(transit) + (if ok then [Share(frames, bytes)] else [])
      ensures queuedFrames == old(queuedFrames) + (if ok then frames else 0) && queuedBytes == old(queuedBytes) + (if ok then bytes else 0)
    {
      if frames > limits.maxQueuedFramesTotal - queuedFrames {
        return false;
      }
      if bytes > limits.maxQueuedBytesTotal - queuedBytes {
        return false;
      }
      ShareAdded(transit, Share(frames, bytes));
      queuedFrames := queuedFrames + frames;
      queuedBytes := queuedBytes + bytes;
      transit := transit + [Share(frames, bytes)];
      return true;
    }

    /** One of the shares in hand goes. */
    ghost method Forget(s: Share)
      requires s in transit
      modifies this`transit
      ensures ShareFrames(old(transit)) == ShareFrames(transit) + s.frames && ShareBytes(old(transit)) == ShareBytes(transit) + s.bytes
      ensures multiset(transit) == multiset(old(transit)) - multiset{s}
    {
      var i: nat :| i < |transit| && transit[i] == s;
      ShareDropped(transit, i);
      OneLess(transit, i);
      transit := Drop(transit, i);
    }

    /** The arithmetic of releaseQueueBudget, which stops at zero. */
    method CountDown(frames: nat, bytes: nat)
      modifies this`queuedFrames, this`queuedBytes
      ensures queuedFrames == Less(old(queuedFrames), frames) && queuedBytes == Less(old(queuedBytes), bytes)
    {
      if frames > queuedFrames {
        queuedFrames := 0;
      } else {
        queuedFrames := queuedFrames - frames;
      }
      if bytes > queuedBytes {
        queuedBytes := 0;
      } else {
        queuedBytes := queuedBytes - bytes;
      }
    }

    /** releaseQueueBudget: what a goroutine has in hand is never more than what is counted, so nothing is cut at zero. */
    method ReleaseQueueBudget(frames: nat, bytes: nat)
      requires Valid() && Share(frames, bytes) in transit
      modifies this`queuedFrames, this`queuedBytes, this`transit
      ensures Valid() && queuedFrames == old(queuedFrames) - frames && queuedBytes == old(queuedBytes) - bytes
      ensures multiset(transit) == multiset(old(transit)) - multiset{Share(frames, bytes)}
    {
      Forget(Share(frames, bytes));
      CountDown(frames, bytes);
    }

    // ----- the queues

    /** The second critical section of enqueueWrite: the queue itself is never the one to overflow. */
    method PushWrite(w: Msg, control: bool) returns (r: Enqueued)
      requires Valid() && Share(1, Size(w)) in transit
      modifies this`controlQueue, this`outboundQueue, this`transit
      ensures Valid() && r == (if queuesClosed then Shut else Queued)
      ensures if r.Queued? then multiset(transit) == multiset(old(transit)) - multiset{Share(1, Size(w))} else transit == old(transit)
      ensures controlQueue == old(controlQueue) + (if r.Queued? && control then [w] else [])
      ensures outboundQueue == old(outboundQueue) + (if r.Queued? && !control then [w] else [])
    {
      if queuesClosed {
        return Shut;
      }
      ShareMember(transit, Share(1, Size(w)));
      if |if control then controlQueue else outboundQueue| >= limits.maxQueuedFramesTotal {
        return Exhausted;
      }
      if control {
        PutControl(w);
      } else {
        PutOutbound(w);
      }
      return Queued;
    }

    method PutControl(w: Msg)
      requires Valid() && Share(1, Size(w)) in transit
      modifies this`controlQueue, this`transit
      ensures Valid() && controlQueue == old(controlQueue) + [w]
      ensures multiset(transit) == multiset(old(transit)) - multiset{Share(1, Size(w))}
    {
      Forget(Share(1, Size(w)));
      WritesAppend(controlQueue, w);
      controlQueue := controlQueue + [w];
    }

    method PutOutbound(w: Msg)
      requires Valid() && Share(1, Size(w)) in transit
      modifies this`outboundQueue, this`transit
      ensures Valid() && outboundQueue == old(outboundQueue) + [w]
      ensures multiset(transit) == multiset(old(transit)) - multiset{Share(1, Size(w))}
    {
      Forget(Share(1, Size(w)));
      WritesAppend(outboundQueue, w);
      outboundQueue := outboundQueue + [w];
    }

    /** The second critical section of enqueueDispatch. */
    method PushTask(task: Msg) returns (r: Enqueued)
      requires Valid() && Share(1, Body(task)) in transit
      modifies this`dispatchQueue, this`transit
      ensures Valid() && r.Queued? && dispatchQueue == old(dispatchQueue) + [task]
      ensures multiset(transit) == multiset(old(transit)) - multiset{Share(1, Body(task))}
    {
      ShareMember(transit, Share(1, Body(task)));
      if |dispatchQueue| >= limits.maxQueuedFramesTotal {
        return Exhausted;
      }
      Forget(Share(1, Body(task)));
      TasksAppend(dispatchQueue, task);
      dispatchQueue := dispatchQueue + [task];
      return Queued;
    }

    /**
     The writer takes the oldest entry of one queue. It looks at the control queue first, but when it
     finds that empty it takes from whichever queue has something next.
     */
    method PopWrite(control: bool) returns (w: Msg)
      requires Valid() && (if control then controlQueue else outboundQueue) != []
      modifies this`controlQueue, this`outboundQueue, this`transit
      ensures Valid() && transit == old(transit) + [Share(1, Size(w))]
      ensures if control
              then [w] + controlQueue == old(controlQueue) && outboundQueue == old(outboundQueue)
              else [w] + outboundQueue == old(outboundQueue) && controlQueue == old(controlQueue)
    {
      if control {
        w := controlQueue[0];
        controlQueue := controlQueue[1..];
      } else {
        w := outboundQueue[0];
        outboundQueue := outboundQueue[1..];
      }
      ShareAdded(transit, Share(1, Size(w)));
      transit := transit + [Share(1, Size(w))];
    }

    /** The dispatcher takes the oldest task. */
    method PopTask() returns (task: Msg)
      requires Valid() && dispatchQueue != []
      modifies this`dispatchQueue, this`transit
      ensures Valid() && transit == old(transit) + [Share(1, Body(task))] && [task] + dispatchQueue == old(dispatchQueue)
    {
      task := dispatchQueue[0];
      dispatchQueue := dispatchQueue[1..];
      ShareAdded(transit, Share(1, Body(task)));
      transit := transit + [Share(1, Body(task))];
    }

    // ----- enqueueWrite and enqueueDispatch as one goroutine goes through them

    /** Full exactly if the budget is; the queue-exhausted branch is never taken. */
    method EnqueueWrite(w: Msg, control: bool) returns (r: Enqueued)
      requires Valid()
      modifies this`queuedFrames, this`queuedBytes, this`controlQueue, this`outboundQueue, this`transit
      ensures Valid() && multiset(transit) == multiset(old(transit))
      ensures var full := old(queuedFrames) + 1 > limits.maxQueuedFramesTotal || old(queuedBytes) + Size(w) > limits.maxQueuedBytesTotal;
              r == (if full then Full else if queuesClosed then Shut else Queued)
      ensures controlQueue == old(controlQueue) + (if r.Queued? && control then [w] else [])
      ensures outboundQueue == old(outboundQueue) + (if r.Queued? && !control then [w] else [])
    {
      var ok := ReserveQueueBudget(1, Size(w));
      if !ok {
        return Full;
      }
      r := PushOrRelease(w, control);
    }

    method PushOrRelease(w: Msg, control: bool) returns (r: Enqueued)
      requires Valid() && Share(1, Size(w)) in transit
      modifies this`queuedFrames, this`queuedBytes, this`controlQueue, this`outboundQueue, this`transit
      ensures Valid() && r == (if queuesClosed then Shut else Queued)
      ensures multiset(transit) == multiset(old(transit)) - multiset{Share(1, Size(w))}
      ensures controlQueue == old(controlQueue) + (if r.Queued? && control then [w] else [])
      ensures outboundQueue == old(outboundQueue) + (if r.Queued? && !control then [w] else [])
    {
      r := PushWrite(w, control);
      if !r.Queued? {
        ReleaseQueueBudget(1, Size(w));
      }
    }

    method EnqueueDispatch(task: Msg) returns (r: Enqueued)
      requires Valid()
      modifies this`queuedFrames, this`queuedBytes, this`dispatchQueue, this`transit
      ensures Valid() && (r.Queued? || r.Full?) && multiset(transit) == multiset(old(transit))
      ensures r.Full? <==> old(queuedFrames) + 1 > limits.maxQueuedFramesTotal || old(queuedBytes) + Body(task) > limits.maxQueuedBytesTotal
      ensures dispatchQueue == old(dispatchQueue) + (if r.Queued? then [task] else [])
    {
      var ok := ReserveQueueBudget(1, Body(task));
      if !ok {
        return Full;
      }
      r := PushTask(task);
    }

    // ----- a channel's queues; the channel's lock is held from the check to the change

    /** The first half of reserveQueuedLocked: the channel's limits, then the session's budget. */
    method ReserveQueued(c: nat, bytes: nat) returns (ok: bool)
      requires Valid() && c < |table|
      modifies this`queuedFrames, this`queuedBytes, this`transit
      ensures Valid()
      ensures ok <==>
        && DeskRoom(limits, table[c], bytes)
        && old(queuedFrames) + 1 <= limits.maxQueuedFramesTotal
        && old(queuedBytes) + bytes <= limits.maxQueuedBytesTotal
      ensures transit == old(transit) + (if ok then [Share(1, bytes)] else [])
      ensures queuedFrames == old(queuedFrames) + (if ok then 1 else 0) && queuedBytes == old(queuedBytes) + (if ok then bytes else 0)
    {
      assert DeskOk(limits, table[c]);
      if 1 > limits.maxQueuedFramesPerChannel - table[c].queuedFrames {
        return false;
      }
      if bytes > limits.maxQueuedBytesPerChannel - table[c].queuedBytes {
        return false;
      }
      ok := ReserveQueueBudget(1, bytes);
    }

    /** One channel's fields change; what goes into or comes out of its queues and its map, goroutines have in hand. */
    method PutDesk(c: nat, d: Desk, ghost hands: seq<Share>, ghost waiters: nat)
      requires Valid() && c < |table| && DeskOk(limits, d) && d.slot == table[c].slot && d.peer == table[c].peer
      requires table[c].queuedFrames + ShareFrames(transit) == d.queuedFrames + ShareFrames(hands)
      requires table[c].queuedBytes + ShareBytes(transit) == d.queuedBytes + ShareBytes(hands)
      requires |table[c].pending| + loose == |d.pending| + waiters
      modifies this`table, this`transit, this`loose
      ensures Valid() && table == old(table)[c := d] && transit == hands && loose == waiters
    {
      SetDesk(limits, table, channels, peerChannelIDs, closing, c, d);
      table, transit, loose := table[c := d], hands, waiters;
      assert TableOk(limits, table, channels, peerChannelIDs, closing);
    }

    /** A share goes into one channel's queues. */
    method FillDesk(c: nat, d: Desk, ghost share: Share)
      requires Valid() && c < |table| && DeskOk(limits, d) && d.slot == table[c].slot && d.peer == table[c].peer && d.pending == table[c].pending
      requires share in transit && table[c].queuedFrames + share.frames == d.queuedFrames && table[c].queuedBytes + share.bytes == d.queuedBytes
      modifies this`table, this`transit, this`loose
      ensures Valid() && table == old(table)[c := d] && multiset(transit) == multiset(old(transit)) - multiset{share} && loose == old(loose)
    {
      ghost var i: nat :| i < |transit| && transit[i] == share;
      ShareDropped(transit, i);
      OneLess(transit, i);
      PutDesk(c, d, Drop(transit, i), loose);
    }

    /** A share comes out of one channel's queues. */
    method DrainDesk(c: nat, d: Desk, ghost share: Share)
      requires Valid() && c < |table| && DeskOk(limits, d) && d.slot == table[c].slot && d.peer == table[c].peer && d.pending == table[c].pending
      requires table[c].queuedFrames == d.queuedFrames + share.frames && table[c].queuedBytes == d.queuedBytes + share.bytes
      modifies this`table, this`transit, this`loose
      ensures Valid() && table == old(table)[c := d] && transit == old(transit) + [share] && loose == old(loose)
    {
      ShareAdded(transit, share);
      PutDesk(c, d, transit + [share], loose);
    }

    /** A change of a channel's fields that no book depends on. */
    method ReplaceDesk(c: nat, d: Desk)
      requires Valid() && c < |table| && DeskOk(limits, d) && Own(d) == Own(table[c]) && d.slot == table[c].slot && d.peer == table[c].peer
      modifies this`table, this`transit, this`loose
      ensures Valid() && table == old(table)[c := d] && transit == old(transit) && loose == old(loose)
    {
      PutDesk(c, d, transit, loose);
    }

    /** handleChannelData */
    method HandleData(c: nat, data: Bytes) returns (r: Handled)
      requires Valid() && c in channels
      modifies this`table, this`queuedFrames, this`queuedBytes, this`transit, this`loose
      ensures Valid() && multiset(transit) == multiset(old(transit)) && loose == old(loose)
      ensures var room := DeskRoom(limits, old(table)[c], |data|) && old(queuedFrames) + 1 <= limits.maxQueuedFramesTotal
                          && old(queuedBytes) + |data| <= limits.maxQueuedBytesTotal;
              r == (if !Welcome(old(table)[c], data) then Violation else if !room then NoRoom else Done)
      ensures table == if r.Done? then old(table)[c := Stored(old(table)[c], data)] else old(table)
      ensures queuedFrames == old(queuedFrames) + (if r.Done? then 1 else 0)
    {
      var ch := table[c];
      if data == [] || !ch.state.CanReceiveData() || |data| > ch.maxLocalPacket || |data| > ch.localWindow {
        return Violation;
      }
      var ok := ReserveQueued(c, |data|);
      if !ok {
        return NoRoom;
      }
      StoreFrame(c, data);
      return Done;
    }

    /** The frame goes into the queue, and its share with it. */
    method StoreFrame(c: nat, data: Bytes)
      requires Valid() && c < |table| && Share(1, |data|) in transit && Welcome(table[c], data) && DeskRoom(limits, table[c], |data|)
      modifies this`table, this`transit, this`loose
      ensures Valid() && table == old(table)[c := Stored(old(table)[c], data)]
      ensures multiset(transit) == multiset(old(transit)) - multiset{Share(1, |data|)} && loose == old(loose)
    {
      assert DeskOk(limits, table[c]);
      StoredOk(limits, table[c], data);
      FillDesk(c, Stored(table[c], data), Share(1, |data|));
    }

    /** Recv on a non-empty queue, up to the release: it hands out the credit to send back, or 0. */
    method TakeFrame(c: nat) returns (frame: Bytes, adjust: nat)
      requires Valid() && c < |table| && table[c].frames != []
      modifies this`table, this`transit, this`loose
      ensures Valid()
      ensures frame == old(table)[c].frames[0] && table == old(table)[c := Taken(old(table)[c], threshold)]
      ensures transit == old(transit) + [Share(1, |frame|)] && loose == old(loose) && adjust == CreditFor(old(table)[c], threshold)
    {
      var ch := table[c];
      assert DeskOk(limits, ch);
      frame := ch.frames[0];
      adjust := CreditFor(ch, threshold);
      TakenOk(limits, ch, threshold);
      DrainDesk(c, Taken(ch, threshold), Share(1, |frame|));
    }

    /** Recv: the frame's share goes back to the budget. */
    method Recv(c: nat) returns (frame: Bytes, adjust: nat)
      requires Valid() && c < |table| && table[c].frames != []
      modifies this`table, this`queuedFrames, this`queuedBytes, this`transit, this`loose
      ensures Valid() && multiset(transit) == multiset(old(transit)) && loose == old(loose)
      ensures frame == old(table)[c].frames[0] && table == old(table)[c := Taken(old(table)[c], threshold)]
      ensures queuedFrames == old(queuedFrames) - 1 && queuedBytes == old(queuedBytes) - |frame|
      ensures adjust == CreditFor(old(table)[c], threshold)
    {
      frame, adjust := TakeFrame(c);
      ReleaseQueueBudget(1, |frame|);
    }

    /** The common tail of enqueueChannelRequest, enqueueChannelEOF and enqueueChannelClose. */
    method PushEvent(c: nat, ev: Event) returns (r: Handled)
      requires Valid() && c < |table| && !table[c].discarded
      modifies this`table, this`queuedFrames, this`queuedBytes, this`transit, this`loose
      ensures Valid() && multiset(transit) == multiset(old(transit)) && loose == old(loose)
      ensures var room := DeskRoom(limits, old(table)[c], EventSize(ev)) && old(queuedFrames) + 1 <= limits.maxQueuedFramesTotal
                          && old(queuedBytes) + EventSize(ev) <= limits.maxQueuedBytesTotal;
              r == (if room then Done else NoRoom)
      ensures table == if r.Done? then old(table)[c := Pushed(old(table)[c], ev)] else old(table)
      ensures queuedFrames == old(queuedFrames) + (if r.Done? then 1 else 0)
    {
      var ok := ReserveQueued(c, EventSize(ev));
      if !ok {
        return NoRoom;
      }
      r := StoreEvent(c, ev);
    }

    /** The event buffer has room for as many events as the channel may have entries, so it never overflows. */
    method StoreEvent(c: nat, ev: Event) returns (r: Handled)
      requires Valid() && c < |table| && Share(1, EventSize(ev)) in transit && !table[c].discarded && DeskRoom(limits, table[c], EventSize(ev))
      modifies this`table, this`transit, this`loose
      ensures Valid() && r.Done? && table == old(table)[c := Pushed(old(table)[c], ev)]
      ensures multiset(transit) == multiset(old(transit)) - multiset{Share(1, EventSize(ev))} && loose == old(loose)
    {
      assert DeskOk(limits, table[c]);
      if |table[c].events| >= limits.maxQueuedFramesPerChannel {
        return Overflow;
      }
      PushedOk(limits, table[c], ev);
      FillDesk(c, Pushed(table[c], ev), Share(1, EventSize(ev)));
      return Done;
    }

    /** The channel's worker takes an event out of the buffer; the counters still count it. */
    method TakeEvent(c: nat) returns (ev: Event)
      requires Valid() && c < |table| && table[c].events != [] && table[c].inHand.None?
      modifies this`table, this`transit, this`loose
      ensures Valid() && ev == old(table)[c].events[0] && table == old(table)[c := Picked(old(table)[c])]
      ensures transit == old(transit) && loose == old(loose)
    {
      ev := table[c].events[0];
      assert DeskOk(limits, table[c]);
      PickedOk(limits, table[c]);
      ReplaceDesk(c, Picked(table[c]));
    }

    /** releaseQueuedLocked for that event: once the queues are discarded there is nothing left to give back. */
    method ReturnEvent(c: nat)
      requires Valid() && c < |table| && table[c].inHand.Some?
      modifies this`table, this`queuedFrames, this`queuedBytes, this`transit, this`loose
      ensures Valid() && table == old(table)[c := Returned(old(table)[c])] && multiset(transit) == multiset(old(transit)) && loose == old(loose)
      ensures queuedFrames == old(queuedFrames) - (if old(table)[c].discarded then 0 else 1)
      ensures queuedBytes == old(queuedBytes) - (if old(table)[c].discarded then 0 else EventSize(old(table)[c].inHand.value))
    {
      var ch := table[c];
      assert DeskOk(limits, ch);
      var size := EventSize(ch.inHand.value);
      var actualFrames := if 1 > ch.queuedFrames then ch.queuedFrames else 1;
      var actualBytes := if size > ch.queuedBytes then ch.queuedBytes else size;
      ReturnedOk(limits, ch);
      DrainDesk(c, Returned(ch), Share(actualFrames, actualBytes));
      ReleaseQueueBudget(actualFrames, actualBytes);
    }

    // ----- the channel table

    /** reserveLocalChannelID and the new Channel object. */
    method NewChannel(peer: Option<nat>) returns (id: Option<nat>)
      requires Valid()
      modifies this`table
      ensures Valid()
      ensures id == (if |old(table)| == MAX_U64 then None else Some(|old(table)|))
      ensures table == if id.Some? then old(table) + [Fresh(peer)] else old(table)
    {
      if |table| == MAX_U64 {
        return None;
      }
      id := Some(|table|);
      MakeChannel(peer);
    }

    method MakeChannel(peer: Option<nat>)
      requires Valid()
      modifies this`table
      ensures Valid() && table == old(table) + [Fresh(peer)]
    {
      AppendFresh(limits, table, channels, peerChannelIDs, closing, peer);
      table := table + [Fresh(peer)];
    }

    /** addPendingChannel: c was just made; an incoming channel already carries its peer's id. */
    method AddPendingChannel(c: nat) returns (r: Admitted)
      requires Valid() && c < |table| && table[c].slot == NoSlot
      modifies this`table, this`channels, this`peerChannelIDs, this`pendingOpens, this`activeChannels
      ensures Valid()
      ensures r.TableFull? <==> old(pendingOpens) >= limits.maxPendingOpens || old(activeChannels) + old(pendingOpens) >= limits.maxChannels
      ensures r.Duplicate? <==> !r.TableFull? && old(table)[c].peer.Some? && old(table)[c].peer.value in old(peerChannelIDs)
      ensures table == (if r.Added? then old(table)[c := old(table)[c].(slot := Pending)] else old(table))
      ensures peerChannelIDs == (if r.Added? && old(table)[c].peer.Some? then old(peerChannelIDs)[old(table)[c].peer.value := c] else old(peerChannelIDs))
      ensures channels == (if r.Added? then old(channels) + {c} else old(channels))
    {
      if pendingOpens >= limits.maxPendingOpens || activeChannels + pendingOpens >= limits.maxChannels {
        return TableFull;
      }
      if table[c].peer.Some? && table[c].peer.value in peerChannelIDs {
        return Duplicate;
      }
      PutSlot(c, Pending, pendingOpens + 1, activeChannels);
      if table[c].peer.Some? {
        NotePeer(c, table[c].peer.value);
      }
      return Added;
    }

    /** One channel moves into another slot, and the counters with it. */
    method PutSlot(c: nat, slot: Slot, pendings: nat, actives: nat)
      requires Valid() && c < |table| && slot != NoSlot
      requires pendings + Own(table[c]).pendings == pendingOpens + (if slot == Pending then 1 else 0)
      requires actives + Own(table[c]).actives == activeChannels + (if slot == Active then 1 else 0)
      requires !closing ==> pendings <= limits.maxPendingOpens && actives + pendings <= limits.maxChannels
      modifies this`table, this`channels, this`pendingOpens, this`activeChannels
      ensures Valid() && table == old(table)[c := old(table)[c].(slot := slot)] && channels == old(channels) + {c}
      ensures pendingOpens == pendings && activeChannels == actives
    {
      SetSlot(limits, table, channels, peerChannelIDs, closing, c, table[c].(slot := slot));
      table, channels := table[c := table[c].(slot := slot)], channels + {c};
      pendingOpens, activeChannels := pendings, actives;
      assert TableOk(limits, table, channels, peerChannelIDs, closing);
    }

    method NotePeer(c: nat, peer: nat)
      requires Valid() && c in channels && table[c].peer == Some(peer)
      modifies this`peerChannelIDs
      ensures Valid() && peerChannelIDs == old(peerChannelIDs)[peer := c]
    {
      PeersAdd(table, channels, peerChannelIDs, c, peer);
      peerChannelIDs := peerChannelIDs[peer := c];
    }

    /** reservePeerChannelID, with the channel's own note of it. */
    method JoinPeer(c: nat, peer: nat) returns (ok: bool)
      requires Valid() && c in channels && table[c].peer.None?
      modifies this`table, this`peerChannelIDs
      ensures Valid() && (ok <==> peer !in old(peerChannelIDs))
      ensures table == (if ok then old(table)[c := old(table)[c].(peer := Some(peer))] else old(table))
      ensures peerChannelIDs == (if ok then old(peerChannelIDs)[peer := c] else old(peerChannelIDs))
    {
      if peer in peerChannelIDs {
        return false;
      }
      TakePeer(c, peer);
      return true;
    }

    method TakePeer(c: nat, peer: nat)
      requires Valid() && c in channels && table[c].peer.None?
      modifies this`table, this`peerChannelIDs
      ensures Valid() && table == old(table)[c := old(table)[c].(peer := Some(peer))] && peerChannelIDs == old(peerChannelIDs)[peer := c]
    {
      SetPeer(limits, table, channels, peerChannelIDs, closing, c, table[c].(peer := Some(peer)), peer);
      peerChannelIDs := peerChannelIDs[peer := c];
      table := table[c := table[c].(peer := Some(peer))];
    }

    /** activateChannel: before shutdown the underflow check never fires. */
    method ActivateChannel(c: nat) returns (r: Activated)
      requires Valid() && c in channels
      modifies this`table, this`channels, this`pendingOpens, this`activeChannels
      ensures Valid() && channels == old(channels)
      ensures r.NotPending? <==> old(table)[c].slot != Pending
      ensures !closing ==> !r.Underflow?
      ensures table == (if r.Activated? then old(table)[c := old(table)[c].(slot := Active)] else old(table))
    {
      if table[c].slot != Pending {
        return NotPending;
      }
      if pendingOpens == 0 {
        SumMember(table, c);
        return Underflow;
      }
      assert channels + {c} == channels;
      PutSlot(c, Active, pendingOpens - 1, activeChannels + 1);
      return Activated.Activated;
    }

    /** The loop of removeChannel over the peer ids. */
    method ForgetPeers(c: nat)
      modifies this`peerChannelIDs
      ensures peerChannelIDs == Without(old(peerChannelIDs), c)
    {
      var todo := peerChannelIDs.Keys;
      var start := peerChannelIDs;
      while todo != {}
        invariant todo <= start.Keys
        invariant forall p :: p in peerChannelIDs <==> p in start && (p in todo || start[p] != c)
        invariant forall p :: p in peerChannelIDs ==> peerChannelIDs[p] == start[p]
        decreases |todo|
      {
        var p :| p in todo;
        todo := todo - {p};
        if peerChannelIDs[p] == c {
          peerChannelIDs := peerChannelIDs - {p};
        }
      }
    }

    /** The counting down in removeChannel. */
    method GiveBackSlot(slot: Slot)
      modifies this`pendingOpens, this`activeChannels
      ensures pendingOpens == Less(old(pendingOpens), if slot == Pending then 1 else 0)
      ensures activeChannels == Less(old(activeChannels), if slot == Active then 1 else 0)
    {
      match slot
      case Pending =>
        if pendingOpens > 0 {
          pendingOpens := pendingOpens - 1;
        }
      case Active =>
        if activeChannels > 0 {
          activeChannels := activeChannels - 1;
        }
      case NoSlot =>
    }

    /** removeChannel: before shutdown both counters have something to count down. */
    method RemoveChannel(c: nat)
      requires Valid()
      modifies this`table, this`channels, this`peerChannelIDs, this`pendingOpens, this`activeChannels
      ensures Valid()
      ensures if c in old(channels)
              then && channels == old(channels) - {c}
                   && peerChannelIDs == Without(old(peerChannelIDs), c)
                   && table == old(table)[c := old(table)[c].(slot := NoSlot)]
              else channels == old(channels) && peerChannelIDs == old(peerChannelIDs) && table == old(table)
    {
      if c !in channels {
        return;
      }
      DropPeers(c);
      DropSlot(c);
    }

    method DropPeers(c: nat)
      requires Valid()
      modifies this`peerChannelIDs
      ensures Valid() && peerChannelIDs == Without(old(peerChannelIDs), c)
    {
      ForgetPeers(c);
      assert PeersOk(table, channels, peerChannelIDs);
    }

    method DropSlot(c: nat)
      requires Valid() && c in channels && forall p :: p in peerChannelIDs ==> peerChannelIDs[p] != c
      modifies this`table, this`channels, this`pendingOpens, this`activeChannels
      ensures Valid() && channels == old(channels) - {c} && table == old(table)[c := old(table)[c].(slot := NoSlot)]
    {
      var d := table[c].(slot := NoSlot);
      ClearSlot(limits, table, channels, peerChannelIDs, closing, c, d);
      SlotGivenBack(limits, pendingOpens, activeChannels, pendingChannelRequests, loose, Sum(table), Sum(table[c := d]), table[c]);
      GiveBackSlot(table[c].slot);
      channels, table := channels - {c}, table[c := d];
      assert TableOk(limits, table, channels, peerChannelIDs, closing);
    }

    // ----- requests that await a reply

    /** reservePendingChannelRequest */
    method ReservePendingChannelRequest() returns (ok: bool)
      requires Valid()
      modifies this`pendingChannelRequests, this`loose
      ensures Valid() && (ok <==> old(pendingChannelRequests) < limits.maxPendingChannelRequests)
      ensures loose == old(loose) + (if ok then 1 else 0)
    {
      if pendingChannelRequests >= limits.maxPendingChannelRequests {
        return false;
      }
      pendingChannelRequests := pendingChannelRequests + 1;
      loose := loose + 1;
      return true;
    }

    /** The arithmetic of releasePendingChannelRequest, which stops at zero. */
    method CountRequestDown()
      modifies this`pendingChannelRequests
      ensures pendingChannelRequests == Less(old(pendingChannelRequests), 1)
    {
      if pendingChannelRequests > 0 {
        pendingChannelRequests := pendingChannelRequests - 1;
      }
    }

    /** releasePendingChannelRequest: before shutdown a waiter in hand is always counted. */
    method ReleasePendingChannelRequest()
      requires Valid() && loose > 0
      modifies this`pendingChannelRequests, this`loose
      ensures Valid() && loose == old(loose) - 1
      ensures !closing ==> pendingChannelRequests == old(pendingChannelRequests) - 1
    {
      CountRequestDown();
      loose := loose - 1;
    }

    /** The first critical section of SendRequest: the id is spent even if a limit is reached. */
    method RegisterRequest(c: nat, wantReply: bool) returns (r: Registered)
      requires Valid() && c < |table|
      modifies this`table, this`pendingChannelRequests, this`transit, this`loose
      ensures Valid() && loose == old(loose) && transit == old(transit)
      ensures var d := old(table)[c];
              r == if d.nextRequest == MAX_U64 then IdsExhausted
                   else if wantReply && |d.pending| >= limits.maxPendingChannelRequestsPerChannel then ChannelFull
                   else if wantReply && old(pendingChannelRequests) >= limits.maxPendingChannelRequests then SessionFull
                   else Sent(d.nextRequest)
      ensures var d := old(table)[c];
              table == if r.IdsExhausted? then old(table)
                       else if r.Sent? && wantReply then old(table)[c := d.(nextRequest := d.nextRequest + 1, pending := d.pending + {d.nextRequest})]
                       else old(table)[c := d.(nextRequest := d.nextRequest + 1)]
      ensures r.Sent? ==> r.id !in old(table)[c].pending
    {
      var d := table[c];
      assert DeskOk(limits, d);
      if d.nextRequest == MAX_U64 {
        return IdsExhausted;
      }
      AskedOk(limits, d);
      if wantReply && |d.pending| >= limits.maxPendingChannelRequestsPerChannel {
        ReplaceDesk(c, d.(nextRequest := d.nextRequest + 1));
        return ChannelFull;
      }
      if wantReply {
        var ok := ReservePendingChannelRequest();
        if !ok {
          ReplaceDesk(c, d.(nextRequest := d.nextRequest + 1));
          return SessionFull;
        }
        AddWaiter(c);
      } else {
        ReplaceDesk(c, d.(nextRequest := d.nextRequest + 1));
      }
      return Sent(d.nextRequest);
    }

    /** The waiter goes into the channel's map. */
    method AddWaiter(c: nat)
      requires Valid() && c < |table| && |table[c].pending| < limits.maxPendingChannelRequestsPerChannel && loose > 0
      modifies this`table, this`transit, this`loose
      ensures Valid() && loose == old(loose) - 1 && transit == old(transit)
      ensures var d := old(table)[c];
              table == old(table)[c := d.(nextRequest := d.nextRequest + 1, pending := d.pending + {d.nextRequest})]
    {
      var d := table[c];
      assert DeskOk(limits, d);
      AskedOk(limits, d);
      PutDesk(c, d.(nextRequest := d.nextRequest + 1, pending := d.pending + {d.nextRequest}), transit, loose - 1);
    }

    /** The first critical section of removePendingRequest and handleChannelResult: a waiter leaves the map once. */
    method TakeWaiter(c: nat, id: nat) returns (found: bool)
      requires Valid() && c < |table|
      modifies this`table, this`transit, this`loose
      ensures transit == old(transit)
      ensures Valid() && (found <==> id in old(table)[c].pending) && loose == old(loose) + (if found then 1 else 0)
      ensures table == if found then old(table)[c := old(table)[c].(pending := old(table)[c].pending - {id})] else old(table)
    {
      found := id in table[c].pending;
      if found {
        DropWaiter(c, id);
      }
    }

    method DropWaiter(c: nat, id: nat)
      requires Valid() && c < |table| && id in table[c].pending
      modifies this`table, this`transit, this`loose
      ensures Valid() && table == old(table)[c := old(table)[c].(pending := old(table)[c].pending - {id})]
      ensures loose == old(loose) + 1 && transit == old(transit)
    {
      assert DeskOk(limits, table[c]);
      PutDesk(c, table[c].(pending := table[c].pending - {id}), transit, loose + 1);
    }

    /** removePendingRequest, and the first half of handleChannelResult. */
    method FinishRequest(c: nat, id: nat) returns (found: bool)
      requires Valid() && c < |table|
      modifies this`table, this`pendingChannelRequests, this`transit, this`loose
      ensures Valid() && (found <==> id in old(table)[c].pending) && loose == old(loose) && transit == old(transit)
      ensures table == if found then old(table)[c := old(table)[c].(pending := old(table)[c].pending - {id})] else old(table)
      ensures !closing ==> pendingChannelRequests == old(pendingChannelRequests) - (if found then 1 else 0)
    {
      found := TakeWaiter(c, id);
      if found {
        ReleasePendingChannelRequest();
      }
    }

    /** The last loop of failPendingRequestsLocked. */
    method ReleaseRequests(count: nat)
      requires Valid() && loose >= count
      modifies this`pendingChannelRequests, this`loose
      ensures Valid() && loose == old(loose) - count
      ensures !closing ==> pendingChannelRequests == old(pendingChannelRequests) - count
    {
      for i := 0 to count
        invariant Valid() && loose == old(loose) - i
        invariant !closing ==> pendingChannelRequests == old(pendingChannelRequests) - i
      {
        ReleasePendingChannelRequest();
      }
    }

    // ----- closing

    /** discardQueuedLocked and failPendingRequestsLocked on a channel that goes to `state`, before anything is given back. */
    method GiveUp(c: nat, state: State)
      requires Valid() && c < |table| && !state.Opening? && !state.AllowsRequests()
      modifies this`table, this`transit, this`loose
      ensures Valid() && table == old(table)[c := Emptied(old(table)[c], state)]
      ensures transit == old(transit) + [Share(old(table)[c].queuedFrames, old(table)[c].queuedBytes)]
      ensures loose == old(loose) + |old(table)[c].pending|
    {
      var d := table[c];
      assert DeskOk(limits, d);
      EmptiedOk(limits, d, state);
      ShareAdded(transit, Share(d.queuedFrames, d.queuedBytes));
      PutDesk(c, Emptied(d, state), transit + [Share(d.queuedFrames, d.queuedBytes)], loose + |d.pending|);
    }

    /** The whole of it: the books fall by exactly the channel's part. */
    method EmptyDesk(c: nat, state: State)
      requires Valid() && c < |table| && !state.Opening? && !state.AllowsRequests()
      modifies this`table, this`queuedFrames, this`queuedBytes, this`pendingChannelRequests, this`transit, this`loose
      ensures Valid() && table == old(table)[c := Emptied(old(table)[c], state)]
      ensures multiset(transit) == multiset(old(transit)) && loose == old(loose)
      ensures queuedFrames == old(queuedFrames) - old(table)[c].queuedFrames
      ensures queuedBytes == old(queuedBytes) - old(table)[c].queuedBytes
    {
      var d := table[c];
      GiveUp(c, state);
      GiveBack(d.queuedFrames, d.queuedBytes, |d.pending|);
    }

    method GiveBack(frames: nat, bytes: nat, waiters: nat)
      requires Valid() && Share(frames, bytes) in transit && loose >= waiters
      modifies this`queuedFrames, this`queuedBytes, this`pendingChannelRequests, this`transit, this`loose
      ensures Valid() && queuedFrames == old(queuedFrames) - frames && queuedBytes == old(queuedBytes) - bytes
      ensures multiset(transit) == multiset(old(transit)) - multiset{Share(frames, bytes)} && loose == old(loose) - waiters
    {
      ReleaseQueueBudget(frames, bytes);
      ReleaseRequests(waiters);
    }

    /** Close, up to the close envelope; a channel still opening fails and leaves the table. */
    method Close(c: nat) returns (r: Closed)
      requires Valid() && c < |table|
      modifies this`table, this`channels, this`peerChannelIDs, this`pendingOpens, this`activeChannels
      modifies this`queuedFrames, this`queuedBytes, this`pendingChannelRequests, this`transit, this`loose
      ensures Valid()
      ensures var d := old(table)[c]; r == if d.state.Opening? then Abandoned else if d.state.AllowsRequests() then Sending else Ignored
      ensures var d := old(table)[c];
              table == match r
                       case Ignored => old(table)
                       case Abandoned => old(table)[c := Emptied(d, Failed).(slot := if c in old(channels) then NoSlot else d.slot)]
                       case Sending => old(table)[c := Emptied(d, Closing)]
      ensures channels == if r.Abandoned? then old(channels) - {c} else old(channels)
    {
      if table[c].state.Opening? {
        Abandon(c);
        return Abandoned;
      }
      if !table[c].state.AllowsRequests() {
        return Ignored;
      }
      EmptyDesk(c, Closing);
      return Sending;
    }

    method Abandon(c: nat)
      requires Valid() && c < |table| && table[c].state.Opening?
      modifies this`table, this`channels, this`peerChannelIDs, this`pendingOpens, this`activeChannels
      modifies this`queuedFrames, this`queuedBytes, this`pendingChannelRequests, this`transit, this`loose
      ensures Valid() && channels == old(channels) - {c}
      ensures table == old(table)[c := Emptied(old(table)[c], Failed).(slot := if c in old(channels) then NoSlot else old(table)[c].slot)]
    {
      LeaveTable(c);
      EmptyDesk(c, Failed);
    }

    /** The channel fails and leaves the table. */
    method LeaveTable(c: nat)
      requires Valid() && c < |table| && table[c].state.Opening?
      modifies this`table, this`channels, this`peerChannelIDs, this`pendingOpens, this`activeChannels, this`transit, this`loose
      ensures Valid() && channels == old(channels) - {c}
      ensures table == old(table)[c := old(table)[c].(state := Failed, slot := if c in old(channels) then NoSlot else old(table)[c].slot)]
    {
      assert DeskOk(limits, table[c]);
      ReplaceDesk(c, table[c].(state := Failed));
      RemoveChannel(c);
    }

    /** The part of Session.shutdown that touches the books: the budget stays exact to the end. */
    method Shutdown()
      requires Valid()
      modifies this`table, this`channels, this`peerChannelIDs, this`activeChannels, this`pendingOpens, this`pendingChannelRequests
      modifies this`closing, this`queuesClosed, this`queuedFrames, this`queuedBytes, this`transit, this`loose
      ensures Valid() && closing && queuesClosed && channels == {} && peerChannelIDs == map[]
      ensures ShutDown(old(table), table, old(channels), |table|)
    {
      var gone := channels;
      EmptyTable();
      ShutAll(gone);
      queuesClosed := true;
    }

    method EmptyTable()
      requires Valid()
      modifies this`channels, this`peerChannelIDs, this`activeChannels, this`pendingOpens, this`pendingChannelRequests, this`closing
      ensures Valid() && closing && channels == {} && peerChannelIDs == map[]
      ensures forall c :: c in old(channels) ==> c < |table|
    {
      closing := true;
      channels, peerChannelIDs := {}, map[];
      activeChannels, pendingOpens, pendingChannelRequests := 0, 0, 0;
    }

    method ShutAll(gone: set<nat>)
      requires Valid() && closing
      modifies this`table, this`queuedFrames, this`queuedBytes, this`pendingChannelRequests, this`transit, this`loose
      ensures Valid() && ShutDown(old(table), table, gone, |table|)
    {
      var n := |table|;
      for c := 0 to n
        invariant Valid() && |table| == n
        invariant ShutDown(old(table), table, gone, c)
      {
        ShutOne(c, gone, old(table));
      }
    }

    method ShutOne(c: nat, gone: set<nat>, ghost before: seq<Desk>)
      requires Valid() && closing && c < |table| && ShutDown(before, table, gone, c)
      modifies this`table, this`queuedFrames, this`queuedBytes, this`pendingChannelRequests, this`transit, this`loose
      ensures Valid() && ShutDown(before, table, gone, c + 1)
    {
      if c in gone {
        EmptyDesk(c, FailedState(table[c].state));
      }
    }

    // ----- what exact books are good for

    /** A session whose queues and hands are empty owes its budget nothing. */
    lemma NothingLeaks()
      requires Valid() && dispatchQueue == [] && controlQueue == [] && outboundQueue == [] && transit == []
      requires forall c :: 0 <= c < |table| ==> table[c].discarded || HeldFrames(table[c]) == 0
      ensures queuedFrames == 0 && queuedBytes == 0
    {
      forall c | 0 <= c < |table| ensures table[c].queuedFrames == 0 && table[c].queuedBytes == 0 {
        assert DeskOk(limits, table[c]);
      }
      SumEmpty(table);
    }

    /** No two peer ids lead to the same channel. */
    lemma PeersInjective(p: nat, q: nat)
      requires Valid() && p in peerChannelIDs && q in peerChannelIDs && peerChannelIDs[p] == peerChannelIDs[q]
      ensures p == q && peerChannelIDs[p] in channels
    {
      assert table[peerChannelIDs[p]].peer == Some(p) && table[peerChannelIDs[q]].peer == Some(q);
    }
  }
}
