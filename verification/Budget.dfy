/**
 The limits of one configuration, counted out on the states of the transition system, and the runs in
 which every answer to a limit check is the one these limits give.
 */
module Budget {
  import opened Types
  import opened SessionConfig
  import opened Protobuf
  import opened Envelope
  import opened Channel
  import opened Endpoint
  import opened Network
  import opened MuxErrors
  import opened LateSend

  // ----- what an endpoint has queued

  function TaskBytes(tasks: seq<Msg>): nat {
    if tasks == [] then 0 else Body(tasks[0]) + TaskBytes(tasks[1..])
  }

  function ControlBytes(ctrl: seq<Msg>): nat {
    if ctrl == [] then 0 else Size(ctrl[0]) + ControlBytes(ctrl[1..])
  }

  function OutBytes(out: seq<Write>): nat {
    if out == [] then 0 else Size(out[0].msg) + OutBytes(out[1..])
  }

  /** What one channel counts for: its queues, slot and waiters. */
  datatype Load = Load(frames: nat, bytes: nat, pendings: nat, actives: nat, waiters: nat)

  function LoadOf(ch: Chan): Load {
    Load(if ch.discarded then 0 else |ch.frames| + |ch.events|,
         if ch.discarded then 0 else Total(ch.frames) + EventBytes(ch.events),
         if ch.slot == Pending then 1 else 0,
         if ch.slot == Active then 1 else 0,
         |ch.pending|)
  }

  function Plus(a: Load, b: Load): Load {
    Load(a.frames + b.frames, a.bytes + b.bytes, a.pendings + b.pendings, a.actives + b.actives, a.waiters + b.waiters)
  }

  function Loads(chans: seq<Chan>): Load {
    if chans == [] then Load(0, 0, 0, 0, 0) else Plus(LoadOf(chans[0]), Loads(chans[1..]))
  }

  function UsedFrames(e: Endpoint): nat {
    |e.dispatch| + |e.ctrl| + |e.out| + Loads(e.chans).frames
  }

  function UsedBytes(e: Endpoint): nat {
    TaskBytes(e.dispatch) + ControlBytes(e.ctrl) + OutBytes(e.out) + Loads(e.chans).bytes
  }

  // ----- the limits

  predicate ChanWithin(l: Limits, ch: Chan) {
    && LoadOf(ch).frames <= l.maxQueuedFramesPerChannel
    && LoadOf(ch).bytes <= l.maxQueuedBytesPerChannel
    && |ch.pending| <= l.maxPendingChannelRequestsPerChannel
  }

  predicate SlotsWithin(l: Limits, e: Endpoint) {
    && Loads(e.chans).pendings <= l.maxPendingOpens
    && Loads(e.chans).pendings + Loads(e.chans).actives <= l.maxChannels
  }

  predicate QueuesWithin(l: Limits, e: Endpoint) {
    && UsedFrames(e) <= l.maxQueuedFramesTotal
    && UsedBytes(e) <= l.maxQueuedBytesTotal
    && (forall c :: 0 <= c < |e.chans| ==> ChanWithin(l, e.chans[c]))
  }

  predicate WaitersWithin(l: Limits, e: Endpoint) {
    && Loads(e.chans).waiters <= l.maxPendingChannelRequests
    && |e.pendingGlobal| <= l.maxPendingGlobalRequests
  }

  /** A reservation succeeds exactly if it leaves everything within the limits. */
  predicate Within(l: Limits, e: Endpoint) {
    SlotsWithin(l, e) && QueuesWithin(l, e) && WaitersWithin(l, e)
  }

  // ----- refusals

  /** The answers say that there is no room for m. */
  predicate Refusing(m: Msg, luck: Luck) {
    (m.Open? && !luck.admit) || ((m.Open? || m.Request? || m.GlobalRequest?) && !luck.queue)
  }

  /** In state e there is indeed none: taking m in would break the limit in question. */
  predicate Overfull(cfg: Config, e: Endpoint, m: Msg, luck: Luck) {
    && Route(cfg, e, m, PLENTY).Ok?
    && var e' := Route(cfg, e, m, PLENTY).next;
       if m.Open? && !luck.admit then !SlotsWithin(cfg.limits, e')
       else !QueuesWithin(cfg.limits, e') && (m.Open? ==> SlotsWithin(cfg.limits, e'))
  }

  /** The call would go beyond a limit. */
  predicate Refused(cfg: Config, e: Endpoint, a: Action) {
    Enabled(cfg, e, a) && !Within(cfg.limits, Next(cfg, e, a))
  }

  /** Calls fail only if a limit makes them. */
  ghost predicate Excused(cfg: Config, e: Endpoint, a: Action) {
    match a
    case FailSend(c, i) => Refused(cfg, e, QueueSend(c, i))
    case SpendChannelId => exists typ, payload :: Refused(cfg, e, OpenChannel(typ, payload))
    case SpendRequestId(c) => exists typ, payload, want :: Refused(cfg, e, SendRequest(c, typ, payload, want))
    case SpendGlobalId => exists typ, payload, want :: Refused(cfg, e, SendGlobal(typ, payload, want))
    case _ => true
  }

  // ----- runs with honest answers

  function Side(n: Net, left: bool): Endpoint {
    if left then n.l else n.r
  }

  /** What that side receives next. */
  function Inbox(n: Net, left: bool): seq<Msg> {
    if left then n.rl else n.lr
  }

  predicate Receives(t: Turn, left: bool) {
    t.left == left && t.move.Receive?
  }

  /**
   The receiver asks for room in its own time: envelope m has been at the front of its link since
   state j, at which there was none. What other goroutines free after that is free for the refusal.
   */
  predicate Met(cfg: Config, trace: seq<Net>, turns: seq<Turn>, i: nat, j: nat, left: bool, m: Msg, luck: Luck) {
    && j <= i <= |turns| < |trace|
    && (forall k :: j <= k < i ==> !Receives(turns[k], left))
    && Inbox(trace[j], left) != [] && Inbox(trace[j], left)[0] == m
    && Overfull(cfg, Side(trace[j], left), m, luck)
  }

  ghost predicate Answered(cfg: Config, trace: seq<Net>, turns: seq<Turn>, i: nat)
    requires i < |turns| < |trace|
  {
    var t := turns[i];
    match t.move
    case Local(a) => Excused(cfg, Side(trace[i], t.left), a)
    case Admission(_) => true
    case Receive(luck) =>
      var inbox := Inbox(trace[i], t.left);
      inbox != [] && Refusing(inbox[0], luck) ==> exists j :: Met(cfg, trace, turns, i, j, t.left, inbox[0], luck)
  }

  /** Turn i leaves everything within the limits, and refuses only what they refuse. */
  ghost predicate Obeys(cfg: Config, trace: seq<Net>, turns: seq<Turn>, i: nat)
    requires i < |turns| && |trace| == |turns| + 1
  {
    && LooseStep(cfg, trace[i], trace[i + 1], turns[i])
    && Within(cfg.limits, trace[i + 1].l) && Within(cfg.limits, trace[i + 1].r)
    && Answered(cfg, trace, turns, i)
  }

  /** A run, disciplined or not, in which the limits answer every time. */
  ghost predicate Lawful(cfg: Config, trace: seq<Net>, turns: seq<Turn>) {
    && |trace| == |turns| + 1 && trace[0] == START
    && forall i :: 0 <= i < |turns| ==> Obeys(cfg, trace, turns, i)
  }

  /** Such a run to n in which nobody closes or gives up and, if tidy, everybody keeps the discipline. */
  ghost predicate RunsTo(cfg: Config, tidy: bool, trace: seq<Net>, turns: seq<Turn>, n: Net) {
    && Lawful(cfg, trace, turns) && trace[|turns|] == n
    && forall i :: 0 <= i < |turns| ==> !Spoils(turns[i].move) && (tidy ==> Keeps(trace[i], turns[i]))
  }

  ghost predicate Reached(cfg: Config, tidy: bool, n: Net) {
    exists trace, turns :: RunsTo(cfg, tidy, trace, turns, n)
  }

  /** On the way to n that side met the limit with m, and has been about to refuse it since. */
  ghost predicate Facing(cfg: Config, tidy: bool, n: Net, left: bool, m: Msg, luck: Luck) {
    exists trace, turns, j :: RunsTo(cfg, tidy, trace, turns, n) && Met(cfg, trace, turns, |turns|, j, left, m, luck)
  }

  // ----- making runs longer

  /** What it takes to go on from n with t. */
  ghost predicate May(cfg: Config, tidy: bool, n: Net, n': Net, t: Turn) {
    && LooseStep(cfg, n, n', t) && Within(cfg.limits, n'.l) && Within(cfg.limits, n'.r)
    && !Spoils(t.move) && (tidy ==> Keeps(n, t))
  }

  lemma ReachStart(cfg: Config, tidy: bool)
    ensures Reached(cfg, tidy, START)
  {
    assert RunsTo(cfg, tidy, [START], [], START);
  }

  /** Earlier turns are answered as before. */
  lemma AnsweredStill(cfg: Config, trace: seq<Net>, turns: seq<Turn>, n: Net, t: Turn, i: nat)
    requires i < |turns| && |trace| == |turns| + 1 && Answered(cfg, trace, turns, i)
    ensures Answered(cfg, trace + [n], turns + [t], i)
  {
    var trace', turns' := trace + [n], turns + [t];
    assert trace'[i] == trace[i] && turns'[i] == turns[i];
    if turns[i].move.Receive? {
      var luck, inbox := turns[i].move.luck, Inbox(trace[i], turns[i].left);
      if inbox != [] && Refusing(inbox[0], luck) {
        var j :| Met(cfg, trace, turns, i, j, turns[i].left, inbox[0], luck);
        MetStill(cfg, trace, turns, n, t, i, j, turns[i].left, inbox[0], luck);
      }
    }
  }

  lemma MetStill(cfg: Config, trace: seq<Net>, turns: seq<Turn>, n: Net, t: Turn, i: nat, j: nat, left: bool, m: Msg, luck: Luck)
    requires |trace| == |turns| + 1 && Met(cfg, trace, turns, i, j, left, m, luck)
    ensures Met(cfg, trace + [n], turns + [t], i, j, left, m, luck)
  {
    assert (trace + [n])[j] == trace[j];
    forall k | j <= k < i ensures !Receives((turns + [t])[k], left) {
      assert (turns + [t])[k] == turns[k];
    }
  }

  lemma Extend(cfg: Config, tidy: bool, trace: seq<Net>, turns: seq<Turn>, n: Net, n': Net, t: Turn)
    requires RunsTo(cfg, tidy, trace, turns, n) && May(cfg, tidy, n, n', t) && Answered(cfg, trace + [n'], turns + [t], |turns|)
    ensures RunsTo(cfg, tidy, trace + [n'], turns + [t], n')
  {
    var trace', turns' := trace + [n'], turns + [t];
    forall i | 0 <= i < |turns'|
      ensures Obeys(cfg, trace', turns', i) && !Spoils(turns'[i].move) && (tidy ==> Keeps(trace'[i], turns'[i]))
    {
      if i < |turns| {
        assert Obeys(cfg, trace, turns, i);
        assert trace'[i] == trace[i] && trace'[i + 1] == trace[i + 1] && turns'[i] == turns[i];
        AnsweredStill(cfg, trace, turns, n', t, i);
      }
    }
  }

  /** A turn that refuses nothing. */
  predicate Plain(n: Net, t: Turn) {
    match t.move
    case Local(a) => !a.FailSend? && !a.SpendChannelId? && !a.SpendRequestId? && !a.SpendGlobalId?
    case Admission(_) => true
    case Receive(luck) => luck == PLENTY
  }

  lemma PlainAnswered(cfg: Config, trace: seq<Net>, turns: seq<Turn>, n': Net, t: Turn)
    requires |trace| == |turns| + 1 && Plain(trace[|turns|], t)
    ensures Answered(cfg, trace + [n'], turns + [t], |turns|)
  {
    assert (trace + [n'])[|turns|] == trace[|turns|] && (turns + [t])[|turns|] == t;
  }

  lemma ReachNext(cfg: Config, tidy: bool, n: Net, n': Net, t: Turn)
    requires Reached(cfg, tidy, n) && May(cfg, tidy, n, n', t) && Plain(n, t)
    ensures Reached(cfg, tidy, n')
  {
    var trace, turns :| RunsTo(cfg, tidy, trace, turns, n);
    PlainAnswered(cfg, trace, turns, n', t);
    Extend(cfg, tidy, trace, turns, n, n', t);
  }

  lemma StartWithin(l: Limits, e: Endpoint)
    requires LimitsChecked(l) && e.chans == [] && e.dispatch == [] && e.ctrl == [] && e.out == [] && e.pendingGlobal == {}
    ensures Within(l, e)
  {
    assert Loads(e.chans) == Load(0, 0, 0, 0, 0) && UsedFrames(e) == 0 && UsedBytes(e) == 0;
  }

  lemma ReachedWithin(cfg: Config, tidy: bool, n: Net)
    requires Checked(cfg) && Reached(cfg, tidy, n)
    ensures Within(cfg.limits, n.l) && Within(cfg.limits, n.r)
  {
    var trace, turns :| RunsTo(cfg, tidy, trace, turns, n);
    if turns == [] {
      StartWithin(cfg.limits, n.l);
      StartWithin(cfg.limits, n.r);
    } else {
      assert Obeys(cfg, trace, turns, |turns| - 1);
    }
  }

  /** A call, a worker or the writer of one side goes on. */
  lemma ReachLocal(cfg: Config, tidy: bool, n: Net, n': Net, left: bool, a: Action)
    requires Checked(cfg) && Reached(cfg, tidy, n) && Enabled(cfg, Side(n, left), a) && Plain(n, Turn(left, Local(a))) && !Spoils(Local(a))
    requires Next(cfg, Side(n, left), a) == Side(n', left) && Inbox(n, !left) + Emits(Side(n, left), a) == Inbox(n', !left)
    requires Side(n', !left) == Side(n, !left) && Inbox(n', left) == Inbox(n, left) && Within(cfg.limits, Side(n', left))
    requires tidy ==> Disciplined(Side(n, left), Local(a))
    ensures Reached(cfg, tidy, n')
  {
    ReachedWithin(cfg, tidy, n);
    ReachNext(cfg, tidy, n, n', Turn(left, Local(a)));
  }

  /** One side takes the next envelope in. */
  lemma ReachReceive(cfg: Config, tidy: bool, n: Net, n': Net, left: bool)
    requires Checked(cfg) && Reached(cfg, tidy, n) && Inbox(n, left) != []
    requires Route(cfg, Side(n, left), Inbox(n, left)[0], PLENTY) == Ok(Side(n', left)) && Within(cfg.limits, Side(n', left))
    requires Side(n', !left) == Side(n, !left) && Inbox(n', left) == Inbox(n, left)[1..] && Inbox(n', !left) == Inbox(n, !left)
    ensures Reached(cfg, tidy, n')
  {
    ReachedWithin(cfg, tidy, n);
    ReachNext(cfg, tidy, n, n', Turn(left, Receive(PLENTY)));
  }

  /** The right side's handler decides on the next open. */
  lemma ReachAdmit(cfg: Config, tidy: bool, n: Net, n': Net, d: Verdict)
    requires Checked(cfg) && Reached(cfg, tidy, n) && n.r.dispatch != [] && n.r.dispatch[0].Open?
    requires Admit(cfg, n.r, d) == Ok(n'.r) && Within(cfg.limits, n'.r) && n' == n.(r := n'.r)
    ensures Reached(cfg, tidy, n')
  {
    ReachedWithin(cfg, tidy, n);
    ReachNext(cfg, tidy, n, n', Turn(false, Admission(d)));
  }

  lemma FaceNow(cfg: Config, tidy: bool, n: Net, left: bool, m: Msg, luck: Luck)
    requires Reached(cfg, tidy, n) && Inbox(n, left) != [] && Inbox(n, left)[0] == m && Overfull(cfg, Side(n, left), m, luck)
    ensures Facing(cfg, tidy, n, left, m, luck)
  {
    var trace, turns :| RunsTo(cfg, tidy, trace, turns, n);
    assert Met(cfg, trace, turns, |turns|, |turns|, left, m, luck);
  }

  lemma FaceOn(cfg: Config, tidy: bool, n: Net, n': Net, t: Turn, left: bool, m: Msg, luck: Luck)
    requires Facing(cfg, tidy, n, left, m, luck) && May(cfg, tidy, n, n', t) && Plain(n, t) && !Receives(t, left)
    ensures Facing(cfg, tidy, n', left, m, luck)
  {
    var trace, turns, j :| RunsTo(cfg, tidy, trace, turns, n) && Met(cfg, trace, turns, |turns|, j, left, m, luck);
    PlainAnswered(cfg, trace, turns, n', t);
    Extend(cfg, tidy, trace, turns, n, n', t);
    MetOn(cfg, trace, turns, n', t, j, left, m, luck);
  }

  lemma MetOn(cfg: Config, trace: seq<Net>, turns: seq<Turn>, n: Net, t: Turn, j: nat, left: bool, m: Msg, luck: Luck)
    requires |trace| == |turns| + 1 && Met(cfg, trace, turns, |turns|, j, left, m, luck) && !Receives(t, left)
    ensures Met(cfg, trace + [n], turns + [t], |turns + [t]|, j, left, m, luck)
  {
    MetStill(cfg, trace, turns, n, t, |turns|, j, left, m, luck);
    assert (turns + [t])[|turns|] == t;
  }

  lemma FaceRefuses(cfg: Config, tidy: bool, n: Net, n': Net, left: bool, m: Msg, luck: Luck)
    requires Facing(cfg, tidy, n, left, m, luck) && May(cfg, tidy, n, n', Turn(left, Receive(luck)))
    requires Inbox(n, left) != [] && Inbox(n, left)[0] == m
    ensures Reached(cfg, tidy, n')
  {
    var trace, turns, j :| RunsTo(cfg, tidy, trace, turns, n) && Met(cfg, trace, turns, |turns|, j, left, m, luck);
    RefusalAnswered(cfg, trace, turns, n', j, left, m, luck);
    Extend(cfg, tidy, trace, turns, n, n', Turn(left, Receive(luck)));
  }

  lemma RefusalAnswered(cfg: Config, trace: seq<Net>, turns: seq<Turn>, n': Net, j: nat, left: bool, m: Msg, luck: Luck)
    requires |trace| == |turns| + 1 && Met(cfg, trace, turns, |turns|, j, left, m, luck)
    requires Inbox(trace[|turns|], left) != [] && Inbox(trace[|turns|], left)[0] == m
    ensures Answered(cfg, trace + [n'], turns + [Turn(left, Receive(luck))], |turns|)
  {
    var t := Turn(left, Receive(luck));
    MetStill(cfg, trace, turns, n', t, |turns|, j, left, m, luck);
    assert (trace + [n'])[|turns|] == trace[|turns|] && (turns + [t])[|turns|] == t;
  }

  /** The turns of such a run, one by one. */
  ghost predicate Moves(cfg: Config, tidy: bool, trace: seq<Net>, turns: seq<Turn>) {
    && |trace| == |turns| + 1 && trace[0] == START
    && forall i :: 0 <= i < |turns| ==> May(cfg, tidy, trace[i], trace[i + 1], turns[i])
  }

  lemma RunMoves(cfg: Config, tidy: bool, trace: seq<Net>, turns: seq<Turn>, n: Net)
    requires RunsTo(cfg, tidy, trace, turns, n)
    ensures Moves(cfg, tidy, trace, turns)
  {
    forall i | 0 <= i < |turns| ensures May(cfg, tidy, trace[i], trace[i + 1], turns[i]) {
      assert Obeys(cfg, trace, turns, i);
    }
  }

  lemma FacingReached(cfg: Config, tidy: bool, n: Net, left: bool, m: Msg, luck: Luck)
    requires Facing(cfg, tidy, n, left, m, luck)
    ensures Reached(cfg, tidy, n)
  {
  }

  /** A call, a worker or the writer goes on while the receiver of its side is about to refuse m. */
  lemma FaceLocal(cfg: Config, tidy: bool, n: Net, n': Net, left: bool, a: Action, m: Msg, luck: Luck)
    requires Checked(cfg) && Facing(cfg, tidy, n, left, m, luck) && Enabled(cfg, Side(n, left), a)
    requires Plain(n, Turn(left, Local(a))) && !Spoils(Local(a)) && (tidy ==> Disciplined(Side(n, left), Local(a)))
    requires Next(cfg, Side(n, left), a) == Side(n', left) && Inbox(n, !left) + Emits(Side(n, left), a) == Inbox(n', !left)
    requires Side(n', !left) == Side(n, !left) && Inbox(n', left) == Inbox(n, left) && Within(cfg.limits, Side(n', left))
    ensures Facing(cfg, tidy, n', left, m, luck)
  {
    FacingReached(cfg, tidy, n, left, m, luck);
    ReachedWithin(cfg, tidy, n);
    FaceOn(cfg, tidy, n, n', Turn(left, Local(a)), left, m, luck);
  }

  /** The receiver refuses m. */
  lemma FaceRefusal(cfg: Config, tidy: bool, n: Net, n': Net, left: bool, m: Msg, luck: Luck)
    requires Checked(cfg) && Facing(cfg, tidy, n, left, m, luck) && Inbox(n, left) != [] && Inbox(n, left)[0] == m
    requires Route(cfg, Side(n, left), m, luck) == Ok(Side(n', left)) && Within(cfg.limits, Side(n', left))
    requires Side(n', !left) == Side(n, !left) && Inbox(n', left) == Inbox(n, left)[1..] && Inbox(n', !left) == Inbox(n, !left)
    ensures Reached(cfg, tidy, n')
  {
    FacingReached(cfg, tidy, n, left, m, luck);
    ReachedWithin(cfg, tidy, n);
    FaceRefuses(cfg, tidy, n, n', left, m, luck);
  }

  lemma MovesAt(cfg: Config, tidy: bool, trace: seq<Net>, turns: seq<Turn>, i: nat)
    requires Moves(cfg, tidy, trace, turns) && 0 < i < |trace|
    ensures May(cfg, tidy, trace[i - 1], trace[i], turns[i - 1])
  {
    assert i - 1 + 1 == i;
  }

  /** What holds first, and with each state also of the next, holds along a run. */
  lemma {:induction false} KeptAlong(cfg: Config, tidy: bool, trace: seq<Net>, turns: seq<Turn>, good: Net -> bool, i: nat)
    requires Moves(cfg, tidy, trace, turns) && i < |trace| && good(trace[0])
    requires forall n, n', t :: May(cfg, tidy, n, n', t) && good(n) ==> good(n')
    ensures good(trace[i])
  {
    if i > 0 {
      KeptAlong(cfg, tidy, trace, turns, good, i - 1);
      MovesAt(cfg, tidy, trace, turns, i);
    }
  }

  // ----- honest runs are runs

  lemma TidyIsRun(cfg: Config, trace: seq<Net>, turns: seq<Turn>, n: Net)
    requires RunsTo(cfg, true, trace, turns, n)
    ensures Run(cfg, trace, turns)
  {
    forall i | 0 <= i < |turns| ensures Step(cfg, trace[i], trace[i + 1], turns[i]) {
      assert Obeys(cfg, trace, turns, i) && Keeps(trace[i], turns[i]);
    }
  }
}
