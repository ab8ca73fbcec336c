/**
 The races around one queued write: its caller, the session's end and the single writer meet at a
 compare-and-swap on the write's state. Every interleaving is a run of this system.
 */
module WriteRace {
  import opened Types

  datatype Mark = Queued | Started | Cancelled | Done

  /** What the caller of sendEnvelope knows; control writes have no caller waiting. */
  datatype Caller = Waiting | Returned(ok: bool)

  datatype Item = Item(control: bool, mark: Mark, result: Option<bool>, caller: Caller)

  /** Between a failed send and the end of the session that it brings, the writer is failing. */
  datatype Writer = Idle | Holding(id: nat) | Wrote(id: nat, ok: bool) | Failing | Stopped

  /** Writes are numbered in the order they were queued; `wire` lists those whose bytes went out. */
  datatype Race = Race(
    items: seq<Item>,
    control: seq<nat>,
    outbound: seq<nat>,
    writer: Writer,
    wire: seq<nat>,
    alive: bool)

  const START := Race([], [], [], Idle, [], true)

  /**
   The writer looks at the control queue first, but if it finds that empty it takes from whichever
   queue has something next, so either may be the one. A send that fails may have put its bytes out.
   */
  datatype Event =
    | Enqueue(control: bool)
    | Take(control: bool)
    | Send(ok: bool, out: bool)
    | Finish
    | Fall
    | Cancel(id: nat)
    | Collect(id: nat)
    | EndSession

  predicate Possible(r: Race, e: Event) {
    match e
    case Enqueue(_) => r.alive
    case Take(control) => r.writer.Idle? && (if control then r.control else r.outbound) != []
    case Send(ok, out) => r.writer.Holding? && r.writer.id < |r.items| && (ok ==> out)
    case Finish => r.writer.Wrote? && r.writer.id < |r.items|
    case Fall => r.writer.Failing?
    case Cancel(id) => id < |r.items| && !r.items[id].control && r.items[id].caller.Waiting?
    case Collect(id) => id < |r.items| && r.items[id].caller.Waiting? && r.items[id].result.Some?
    case EndSession => true
  }

  function Next(r: Race, e: Event): Race
    requires Possible(r, e)
  {
    match e
    case Enqueue(control) =>
      var id := |r.items|;
      var queued := r.(items := r.items + [Item(control, Queued, None, Waiting)]);
      if control then queued.(control := r.control + [id]) else queued.(outbound := r.outbound + [id])
    case Take(control) =>
      var id := Head(r, control);
      var rest := if control then r.(control := r.control[1..]) else r.(outbound := r.outbound[1..]);
      if id < |r.items| && r.items[id].mark.Queued?
      then rest.(items := r.items[id := r.items[id].(mark := Started)], writer := Holding(id))
      else if id < |r.items| && r.items[id].result.None?
      then rest.(items := r.items[id := r.items[id].(result := Some(false))])
      else rest
    case Send(ok, out) =>
      r.(writer := Wrote(r.writer.id, ok), wire := if out then r.wire + [r.writer.id] else r.wire)
    case Finish =>
      var id := r.writer.id;
      var done := r.items[id].(mark := Done, result := Some(r.writer.ok));
      r.(items := r.items[id := done], writer := if r.writer.ok then Idle else Failing)
    case Fall => r.(writer := Stopped, alive := false)
    case Cancel(id) =>
      if r.items[id].mark.Queued?
      then r.(items := r.items[id := r.items[id].(mark := Cancelled, caller := Returned(false))])
      else r
    case Collect(id) => r.(items := r.items[id := r.items[id].(caller := Returned(r.items[id].result.value))])
    case EndSession => r.(alive := false)
  }

  /** The entry the writer takes next from that queue. */
  function Head(r: Race, control: bool): nat
    requires (if control then r.control else r.outbound) != []
  {
    if control then r.control[0] else r.outbound[0]
  }

  predicate Run(trace: seq<Race>, events: seq<Event>) {
    && |trace| == |events| + 1 && trace[0] == START
    && forall i :: 0 <= i < |events| ==> Step(trace[i], events[i], trace[i + 1])
  }

  predicate Step(r: Race, e: Event, r': Race) {
    Possible(r, e) && r' == Next(r, e)
  }

  // ----- the invariant

  predicate InQueue(r: Race, id: nat) {
    id in r.control || id in r.outbound
  }

  /** Where the writer has a write in its hands. */
  predicate InHand(r: Race, id: nat) {
    (r.writer.Holding? || r.writer.Wrote?) && r.writer.id == id
  }

  /** The writer's last send failed: it writes nothing more. */
  predicate GivenUp(r: Race) {
    r.writer.Failing? || r.writer.Stopped?
  }

  /** What the state of one write says about the queue, the writer and the wire. */
  predicate ItemOk(r: Race, id: nat)
    requires id < |r.items|
  {
    var it := r.items[id];
    match it.mark
    case Queued => InQueue(r, id) && id !in r.wire && it.result.None? && it.caller.Waiting?
    case Started =>
      && !InQueue(r, id) && InHand(r, id) && it.result.None? && it.caller.Waiting?
      && (id in r.wire ==> r.writer.Wrote?) && (r.writer == Wrote(id, true) ==> id in r.wire)
    case Cancelled => id !in r.wire && it.caller == Returned(false) && it.result != Some(true)
    case Done =>
      && !InQueue(r, id) && it.result.Some? && (if it.result.value then id in r.wire else GivenUp(r))
      && (it.caller.Returned? ==> it.caller.ok == it.result.value)
  }

  /** A queue holds writes of its own kind, oldest first. */
  predicate QueueOk(items: seq<Item>, queue: seq<nat>, control: bool) {
    && (forall k :: 0 <= k < |queue| ==> queue[k] < |items| && items[queue[k]].control == control)
    && (forall j, k :: 0 <= j < k < |queue| ==> queue[j] < queue[k])
  }

  /** Nothing is on the wire twice. */
  predicate Once(wire: seq<nat>) {
    forall i, j :: 0 <= i < j < |wire| ==> wire[i] != wire[j]
  }

  predicate ShapeOk(r: Race) {
    && QueueOk(r.items, r.control, true) && QueueOk(r.items, r.outbound, false) && Once(r.wire)
    && (forall id :: id in r.wire ==> id < |r.items|)
    && (r.writer.Holding? || r.writer.Wrote? ==> r.writer.id < |r.items| && r.items[r.writer.id].mark.Started?)
  }

  predicate Inv(r: Race) {
    ShapeOk(r) && forall id :: 0 <= id < |r.items| ==> ItemOk(r, id)
  }

  lemma TailOk(items: seq<Item>, items': seq<Item>, queue: seq<nat>, control: bool)
    requires QueueOk(items, queue, control) && queue != []
    requires |items'| == |items| && forall i :: 0 <= i < |items| ==> items'[i].control == items[i].control
    ensures QueueOk(items', queue[1..], control) && queue[0] !in queue[1..]
    ensures forall id :: id in queue <==> id == queue[0] || id in queue[1..]
  {
    forall id ensures id in queue <==> id == queue[0] || id in queue[1..] {
      assert queue == [queue[0]] + queue[1..];
    }
  }

  lemma KindsOk(items: seq<Item>, items': seq<Item>, queue: seq<nat>, control: bool)
    requires QueueOk(items, queue, control) && |items| <= |items'|
    requires forall i :: 0 <= i < |items| ==> items'[i].control == items[i].control
    ensures QueueOk(items', queue, control)
  {
  }

  lemma TakeShapes(r: Race, control: bool)
    requires ShapeOk(r) && Possible(r, Take(control))
    ensures var r' := Next(r, Take(control));
            QueueOk(r'.items, r'.control, true) && QueueOk(r'.items, r'.outbound, false) && r'.wire == r.wire
  {
    var r' := Next(r, Take(control));
    if control {
      TailOk(r.items, r'.items, r.control, true);
      KindsOk(r.items, r'.items, r.outbound, false);
    } else {
      TailOk(r.items, r'.items, r.outbound, false);
      KindsOk(r.items, r'.items, r.control, true);
    }
  }

  /** Exactly the head leaves the queues. */
  lemma TakeMembers(r: Race, control: bool)
    requires ShapeOk(r) && Possible(r, Take(control))
    ensures var r' := Next(r, Take(control));
            !InQueue(r', Head(r, control)) && forall id: nat :: id != Head(r, control) ==> (InQueue(r', id) <==> InQueue(r, id))
  {
    if control {
      TailOk(r.items, r.items, r.control, true);
    } else {
      TailOk(r.items, r.items, r.outbound, false);
    }
  }

  lemma TakeItem(r: Race, control: bool, j: nat)
    requires Inv(r) && Possible(r, Take(control)) && j < |r.items|
    ensures ItemOk(Next(r, Take(control)), j)
  {
    TakeMembers(r, control);
    assert ItemOk(r, j) && ItemOk(r, Head(r, control));
  }

  lemma TakeKeeps(r: Race, control: bool)
    requires Inv(r) && Possible(r, Take(control))
    ensures Inv(Next(r, Take(control)))
  {
    TakeShapes(r, control);
    forall j | 0 <= j < |r.items| ensures ItemOk(Next(r, Take(control)), j) {
      TakeItem(r, control, j);
    }
  }

  lemma EnqueueKeeps(r: Race, control: bool)
    requires Inv(r) && Possible(r, Enqueue(control))
    ensures Inv(Next(r, Enqueue(control)))
  {
    var r' := Next(r, Enqueue(control));
    forall j | 0 <= j < |r'.items| ensures ItemOk(r', j) {
      if j < |r.items| {
        assert ItemOk(r, j);
      }
    }
  }

  lemma WriterKeeps(r: Race, e: Event)
    requires Inv(r) && Possible(r, e) && (e.Send? || e.Finish? || e.Fall?)
    ensures Inv(Next(r, e))
  {
    var r' := Next(r, e);
    if !e.Fall? {
      assert ItemOk(r, r.writer.id);
    }
    forall j | 0 <= j < |r'.items| ensures ItemOk(r', j) {
      assert ItemOk(r, j);
    }
  }

  lemma CallerKeeps(r: Race, e: Event)
    requires Inv(r) && Possible(r, e) && (e.Cancel? || e.Collect? || e.EndSession?)
    ensures Inv(Next(r, e))
  {
    var r' := Next(r, e);
    forall j | 0 <= j < |r'.items| ensures ItemOk(r', j) {
      assert ItemOk(r, j);
    }
  }

  lemma StepKeeps(r: Race, e: Event)
    requires Inv(r) && Possible(r, e)
    ensures Inv(Next(r, e))
  {
    match e
    case Enqueue(control) => EnqueueKeeps(r, control);
    case Take(control) => TakeKeeps(r, control);
    case Send(_, _) => WriterKeeps(r, e);
    case Finish => WriterKeeps(r, e);
    case Fall => WriterKeeps(r, e);
    case _ => CallerKeeps(r, e);
  }

  lemma {:induction false} RunKeeps(trace: seq<Race>, events: seq<Event>, i: nat)
    requires Run(trace, events) && i < |trace|
    ensures Inv(trace[i])
  {
    if i > 0 {
      RunKeeps(trace, events, i - 1);
      StepKeeps(trace[i - 1], events[i - 1]);
    }
  }

  // ----- what it comes to

  /** A write that was cancelled, or is done, stays so; the wire only grows, and not once the writer has given up. */
  predicate Settles(r: Race, r': Race) {
    && |r.items| <= |r'.items| && r.wire <= r'.wire && (r'.alive ==> r.alive)
    && (GivenUp(r) ==> GivenUp(r') && r'.wire == r.wire)
    && forall id :: 0 <= id < |r.items| ==>
         && (r.items[id].mark.Cancelled? ==> r'.items[id].mark.Cancelled?)
         && (r.items[id].mark.Done? ==> r'.items[id].mark.Done? && r'.items[id].result == r.items[id].result)
  }

  lemma StepSettles(r: Race, e: Event)
    requires Inv(r) && Possible(r, e)
    ensures Settles(r, Next(r, e))
  {
    if e.Take? {
      assert ItemOk(r, Head(r, e.control));
    } else if e.Finish? {
      assert ItemOk(r, r.writer.id);
    }
  }

  lemma SettlesOn(a: Race, b: Race, e: Event, c: Race)
    requires Settles(a, b) && Inv(b) && Step(b, e, c)
    ensures Settles(a, c) && Inv(c)
  {
    StepSettles(b, e);
    StepKeeps(b, e);
  }

  lemma SettlesSelf(a: Race)
    ensures Settles(a, a)
  {
  }

  lemma {:induction false} RunSettles(trace: seq<Race>, events: seq<Event>, i: nat, j: nat)
    requires Run(trace, events) && i <= j < |trace|
    ensures Settles(trace[i], trace[j]) && Inv(trace[j])
  {
    var a, c := trace[i], trace[j];
    if i == j {
      RunKeeps(trace, events, i);
      SettlesSelf(a);
    } else {
      var b, e := trace[j - 1], events[j - 1];
      RunSettles(trace, events, i, j - 1);
      assert Step(b, e, c);
      SettlesOn(a, b, e, c);
    }
  }

  /**
   Under every race: no write is on the wire twice, and one whose caller was told of success is on it.
   One whose caller was told of failure was cancelled, and then it is not on the wire and never will
   be; or its send failed, and then it may be, but nothing goes out any more and the session ends with
   the writer's next step. So as long as anything is still written, Send refunds window only for frames
   that never went out.
   */
  lemma WrittenOnceOrNever(trace: seq<Race>, events: seq<Event>, i: nat, j: nat, id: nat)
    requires Run(trace, events) && i <= j < |trace| && id < |trace[i].items|
    ensures Once(trace[i].wire)
    ensures trace[i].items[id].caller == Returned(true) ==> id in trace[i].wire
    ensures trace[i].items[id].caller == Returned(false) ==>
              || (trace[i].items[id].mark.Cancelled? && id !in trace[i].wire && id !in trace[j].wire)
              || (GivenUp(trace[i]) && trace[j].wire == trace[i].wire)
    ensures trace[i].wire != trace[j].wire && trace[i].items[id].caller == Returned(false) ==> id !in trace[j].wire
  {
    RunKeeps(trace, events, i);
    RunSettles(trace, events, i, j);
    assert ItemOk(trace[i], id) && ItemOk(trace[j], id);
  }

  /** A writer that has given up has ended the session, or its next step does. */
  lemma FailureEnds(trace: seq<Race>, events: seq<Event>, i: nat)
    requires Run(trace, events) && i < |trace| && GivenUp(trace[i])
    ensures !trace[i].alive || (Possible(trace[i], Fall) && !Next(trace[i], Fall).alive)
  {
    StoppedDead(trace, events, i);
  }

  lemma {:induction false} StoppedDead(trace: seq<Race>, events: seq<Event>, i: nat)
    requires Run(trace, events) && i < |trace|
    ensures trace[i].writer.Stopped? ==> !trace[i].alive
  {
    if i > 0 {
      StoppedDead(trace, events, i - 1);
      assert Step(trace[i - 1], events[i - 1], trace[i]);
    }
  }
}
