/**
 The same for runs in which the limits answer every time: a late send leads to a protocol error within
 the limits, provided that the peer has room for what is on the way to it.
 */
module LateWithin {
  import opened Types
  import opened SessionConfig
  import opened Envelope
  import opened Channel
  import opened Endpoint
  import opened Flight
  import opened Network
  import opened MuxErrors
  import opened LateSend
  import opened Budget
  import opened Texts

  // ----- what a run within the limits can still come to

  /** The run can go on, within the limits, disciplined and without closes or abandoned calls, to a protocol error. */
  ghost predicate FailsLater(cfg: Config, trace: seq<Net>, turns: seq<Turn>) {
    exists more, after, n :: GoesOnTo(cfg, trace, turns, more, after, n) && Fails(cfg, n)
  }

  ghost predicate GoesOnTo(cfg: Config, trace: seq<Net>, turns: seq<Turn>, more: seq<Net>, after: seq<Turn>, n: Net) {
    && |trace| == |turns| + 1 && |more| == |after| && RunsTo(cfg, false, trace + more, turns + after, n)
    && forall i :: |turns| <= i < |turns + after| ==> Keeps((trace + more)[i], (turns + after)[i])
  }

  lemma FailsNow(cfg: Config, trace: seq<Net>, turns: seq<Turn>, n: Net)
    requires RunsTo(cfg, false, trace, turns, n) && Fails(cfg, n)
    ensures FailsLater(cfg, trace, turns)
  {
    assert trace + [] == trace && turns + [] == turns;
    assert GoesOnTo(cfg, trace, turns, [], [], n);
  }

  lemma FailsOn(cfg: Config, trace: seq<Net>, turns: seq<Turn>, n: Net, t: Turn)
    requires |trace| == |turns| + 1 && Keeps(trace[|turns|], t) && FailsLater(cfg, trace + [n], turns + [t])
    ensures FailsLater(cfg, trace, turns)
  {
    var more, after, m :| GoesOnTo(cfg, trace + [n], turns + [t], more, after, m) && Fails(cfg, m);
    assert trace + [n] + more == trace + ([n] + more) && turns + [t] + after == turns + ([t] + after);
    assert GoesOnTo(cfg, trace, turns, [n] + more, [t] + after, m);
  }

  // ----- either endpoint may be the late one

  /** Net and turn as seen by a reader who calls the late endpoint the left one. */
  function Seen(n: Net, left: bool): Net {
    if left then n else Swap(n)
  }

  function By(t: Turn, left: bool): Turn {
    Turn(t.left == left, t.move)
  }

  lemma MaySeen(cfg: Config, n: Net, n': Net, t: Turn, left: bool)
    requires May(cfg, true, n, n', t)
    ensures May(cfg, true, Seen(n, left), Seen(n', left), By(t, left))
  {
    SwapTwice(n);
    SwapTwice(n');
  }

  lemma CleanSeen(cfg: Config, n: Net, left: bool)
    requires Clean(cfg, n)
    ensures Clean(cfg, Seen(n, left))
  {
    InvSwap(Raised(cfg), n);
  }

  lemma TakesTurn(cfg: Config, trace: seq<Net>, turns: seq<Turn>, n: Net, n': Net, t: Turn, left: bool)
    requires RunsTo(cfg, false, trace, turns, Seen(n, left)) && May(cfg, true, n, n', t) && Plain(n, t)
    ensures RunsTo(cfg, false, trace + [Seen(n', left)], turns + [By(t, left)], Seen(n', left)) && Keeps(Seen(n, left), By(t, left))
  {
    MaySeen(cfg, n, n', t, left);
    PlainAnswered(cfg, trace, turns, Seen(n', left), By(t, left));
    Extend(cfg, false, trace, turns, Seen(n, left), Seen(n', left), By(t, left));
  }

  // ----- the late endpoint writes, and stays within its limits

  lemma {:induction false} LoadsSame(chans: seq<Chan>, c: nat, ch: Chan)
    requires c < |chans| && LoadOf(ch) == LoadOf(chans[c])
    ensures Loads(chans[c := ch]) == Loads(chans)
  {
    var chans' := chans[c := ch];
    if c == 0 {
      assert chans'[1..] == chans[1..];
    } else {
      LoadsSame(chans[1..], c - 1, ch);
      assert chans'[1..] == chans[1..][c - 1 := ch];
      assert chans'[0] == chans[0];
    }
  }

  lemma ControlWithin(l: Limits, e: Endpoint)
    requires Within(l, e) && e.ctrl != []
    ensures Within(l, e.(ctrl := e.ctrl[1..]))
  {
  }

  lemma WriteWithin(l: Limits, e: Endpoint)
    requires Within(l, e) && e.out != []
    ensures Within(l, AfterWrite(e))
  {
    var w := e.out[0];
    if !w.cancelled && w.msg.OpenOk? && w.from.Some? && w.from.value < |e.chans| {
      LoadsSame(e.chans, w.from.value, e.chans[w.from.value].(live := true));
    }
  }

  // ----- the peer takes in what is on the way to it

  /** The limits have room for all of ms, taken in one by one with nothing read meanwhile. */
  predicate RoomFor(cfg: Config, e: Endpoint, ms: seq<Msg>)
    decreases |ms|
  {
    ms != [] && Route(cfg, e, ms[0], PLENTY).Ok? ==>
      Within(cfg.limits, Route(cfg, e, ms[0], PLENTY).next) && RoomFor(cfg, Route(cfg, e, ms[0], PLENTY).next, ms[1..])
  }

  /** What the left endpoint has sent or is going to send, control entries first. */
  function Coming(n: Net): seq<Msg> {
    n.lr + n.l.ctrl + Live(n.l.out)
  }

  /** The right end can take all of it in, and has ids for it. */
  predicate Ready(cfg: Config, n: Net) {
    RoomFor(cfg, n.r, Coming(n)) && IdsLeft(n)
  }

  lemma PeerAnswers(cfg: Config, n: Net)
    requires Checked(cfg) && Clean(cfg, n) && IdsLeft(n) && n.lr != []
    ensures Route(cfg, n.r, n.lr[0], PLENTY).Ok?
  {
    RaisedFit(cfg);
    PeerHandles(Raised(cfg), n);
    RouteRaised(cfg, n.r, n.lr[0], PLENTY);
  }

  /** Both n and n with the late frame are within the limits. */
  ghost predicate BothWithin(cfg: Config, n: Net, c: nat, i: nat)
    requires Ended(n.l, c, i)
  {
    Within(cfg.limits, n.l) && Within(cfg.limits, LateEnd(n.l, c, i)) && Within(cfg.limits, n.r)
  }

  /** From n the system moves on to n' with t, with and without the late frame. */
  ghost predicate Alongside(cfg: Config, n: Net, n': Net, t: Turn, c: nat, i: nat) {
    && Ended(n.l, c, i) && Ended(n'.l, c, i) && Ready(cfg, n') && BothWithin(cfg, n', c, i) && Ahead(n') < Ahead(n)
    && Plain(n, t) && !Spoils(t.move) && Step(cfg, n, n', t) && Step(cfg, Late(n, c, i), Late(n', c, i), t)
  }

  lemma AlongMay(cfg: Config, n: Net, n': Net, t: Turn, c: nat, i: nat)
    requires Alongside(cfg, n, n', t, c, i)
    ensures May(cfg, true, n, n', t) && May(cfg, true, Late(n, c, i), Late(n', c, i), t)
  {
  }

  lemma ComesNext(cfg: Config, n: Net, e: Endpoint)
    requires n.lr != [] && RoomFor(cfg, n.r, Coming(n)) && Route(cfg, n.r, n.lr[0], PLENTY) == Ok(e)
    ensures Within(cfg.limits, e) && RoomFor(cfg, e, Coming(n.(r := e, lr := n.lr[1..])))
  {
    assert Coming(n)[0] == n.lr[0] && Coming(n)[1..] == Coming(n.(r := e, lr := n.lr[1..]));
  }

  lemma ReceivesAlong(cfg: Config, n: Net, c: nat, i: nat) returns (n': Net, t: Turn)
    requires Ended(n.l, c, i) && BothWithin(cfg, n, c, i) && Ready(cfg, n) && n.lr != [] && Route(cfg, n.r, n.lr[0], PLENTY).Ok?
    ensures Alongside(cfg, n, n', t, c, i)
  {
    ComesNext(cfg, n, Route(cfg, n.r, n.lr[0], PLENTY).next);
    n', t := PeerReceives(cfg, n, c, i);
  }

  lemma ControlComes(n: Net)
    requires n.l.ctrl != []
    ensures Coming(n.(l := n.l.(ctrl := n.l.ctrl[1..]), lr := n.lr + [n.l.ctrl[0]])) == Coming(n)
  {
    assert n.l.ctrl == [n.l.ctrl[0]] + n.l.ctrl[1..];
  }

  lemma ControlsAlong(cfg: Config, n: Net, c: nat, i: nat) returns (n': Net, t: Turn)
    requires Ended(n.l, c, i) && BothWithin(cfg, n, c, i) && Ready(cfg, n) && n.l.ctrl != []
    ensures Alongside(cfg, n, n', t, c, i)
  {
    n', t := WritesControl(cfg, n, c, i);
    ControlComes(n);
    ControlWithin(cfg.limits, n.l);
    ControlWithin(cfg.limits, LateEnd(n.l, c, i));
    assert LateEnd(n'.l, c, i) == LateEnd(n.l, c, i).(ctrl := n.l.ctrl[1..]);
  }

  lemma WriteComes(n: Net)
    requires n.l.ctrl == [] && n.l.out != []
    ensures Coming(n.(l := AfterWrite(n.l), lr := n.lr + Emits(n.l, WriteOutbound))) == Coming(n)
  {
    assert Live(n.l.out) == Emits(n.l, WriteOutbound) + Live(n.l.out[1..]);
  }

  lemma WritesAlong(cfg: Config, n: Net, c: nat, i: nat) returns (n': Net, t: Turn)
    requires Ended(n.l, c, i) && BothWithin(cfg, n, c, i) && Ready(cfg, n) && n.l.ctrl == [] && n.l.out != []
    ensures Alongside(cfg, n, n', t, c, i)
  {
    n', t := WritesOut(cfg, n, c, i);
    WriteComes(n);
    WriteLate(n.l, c, i);
    WriteWithin(cfg.limits, n.l);
    WriteWithin(cfg.limits, LateEnd(n.l, c, i));
  }

  /** The late frame alone, written. */
  lemma LastMay(cfg: Config, n: Net, n': Net, c: nat, i: nat)
    requires Ended(n.l, c, i) && BothWithin(cfg, n, c, i) && n.lr == [] && n.l.out == []
    requires n' == Late(n, c, i).(l := LateEnd(n.l, c, i).(out := []), lr := [Data(n.l.chans[c].peer.value, n.l.chans[c].reserved[i])])
    ensures May(cfg, true, Late(n, c, i), n', Turn(true, Local(WriteOutbound)))
  {
    WriteWithin(cfg.limits, LateEnd(n.l, c, i));
    LastWrite(cfg, Late(n, c, i), n');
  }

  lemma LastWrite(cfg: Config, n: Net, n': Net)
    requires n.lr == [] && |n.l.out| == 1 && !n.l.out[0].cancelled && !n.l.out[0].msg.OpenOk?
    requires n' == n.(l := n.l.(out := []), lr := [n.l.out[0].msg])
    ensures Step(cfg, n, n', Turn(true, Local(WriteOutbound))) && n'.l == AfterWrite(n.l)
  {
    assert n.l.out[1..] == [] && n.lr + Emits(n.l, WriteOutbound) == n'.lr;
  }

  lemma LastRefused(cfg: Config, n: Net, e: Endpoint, c: nat, i: nat)
    requires Clean(cfg, n) && Ended(n.l, c, i) && n.lr == [] && n.l.ctrl == [] && n.l.out == []
    ensures Fails(cfg, n.(l := e, lr := [Data(n.l.chans[c].peer.value, n.l.chans[c].reserved[i])]))
  {
    PeerEnded(Raised(cfg), n, c, i);
    DataRefused(cfg, n.(l := e, lr := [Data(n.l.chans[c].peer.value, n.l.chans[c].reserved[i])]));
  }

  lemma DataRefused(cfg: Config, n: Net)
    ensures n.lr != [] && n.lr[0].Data? && n.lr[0].to < |n.r.chans| && !n.r.chans[n.lr[0].to].state.CanReceiveData() ==> Fails(cfg, n)
  {
  }

  lemma LastFails(cfg: Config, trace: seq<Net>, turns: seq<Turn>, n: Net, c: nat, i: nat, left: bool)
    requires Clean(cfg, n) && Ended(n.l, c, i) && BothWithin(cfg, n, c, i) && n.lr == [] && n.l.ctrl == [] && n.l.out == []
    requires RunsTo(cfg, false, trace, turns, Seen(Late(n, c, i), left))
    ensures FailsLater(cfg, trace, turns)
  {
    var n' := Late(n, c, i).(l := LateEnd(n.l, c, i).(out := []), lr := [Data(n.l.chans[c].peer.value, n.l.chans[c].reserved[i])]);
    var t := Turn(true, Local(WriteOutbound));
    LastMay(cfg, n, n', c, i);
    LastRefused(cfg, n, n'.l, c, i);
    TakesTurn(cfg, trace, turns, Late(n, c, i), n', t, left);
    FailsNow(cfg, trace + [Seen(n', left)], turns + [By(t, left)], Seen(n', left));
    FailsOn(cfg, trace, turns, Seen(n', left), By(t, left));
  }

  lemma {:induction false} LateFailsWithin(cfg: Config, trace: seq<Net>, turns: seq<Turn>, n: Net, c: nat, i: nat, left: bool)
    requires Checked(cfg) && TextsFit(cfg.limits) && Clean(cfg, n) && Ended(n.l, c, i) && BothWithin(cfg, n, c, i) && Ready(cfg, n)
    requires RunsTo(cfg, false, trace, turns, Seen(Late(n, c, i), left))
    ensures FailsLater(cfg, trace, turns)
    decreases Ahead(n)
  {
    if n.lr == [] && n.l.ctrl == [] && n.l.out == [] {
      LastFails(cfg, trace, turns, n, c, i, left);
    } else {
      var n', t;
      if n.lr != [] {
        PeerAnswers(cfg, n);
        n', t := ReceivesAlong(cfg, n, c, i);
      } else if n.l.ctrl != [] {
        n', t := ControlsAlong(cfg, n, c, i);
      } else {
        n', t := WritesAlong(cfg, n, c, i);
      }
      AlongMay(cfg, n, n', t, c, i);
      GoesOn(cfg, n, n', t);
      TakesTurn(cfg, trace, turns, Late(n, c, i), Late(n', c, i), t, left);
      LateFailsWithin(cfg, trace + [Seen(Late(n', c, i), left)], turns + [By(t, left)], n', c, i, left);
      FailsOn(cfg, trace, turns, Seen(Late(n', c, i), left), By(t, left));
    }
  }

  // ----- exactly the late sends

  /** A run that goes on as disciplined as it was does not come to a protocol error. */
  lemma KeptIsSafe(cfg: Config, trace: seq<Net>, turns: seq<Turn>, n: Net)
    requires Checked(cfg) && TextsFit(cfg.limits) && RunsTo(cfg, true, trace, turns, n)
    ensures !FailsLater(cfg, trace, turns)
  {
    if FailsLater(cfg, trace, turns) {
      var more, after, m :| GoesOnTo(cfg, trace, turns, more, after, m) && Fails(cfg, m);
      forall i | 0 <= i < |turns + after| ensures Keeps((trace + more)[i], (turns + after)[i]) {
        if i < |turns| {
          assert (trace + more)[i] == trace[i] && (turns + after)[i] == turns[i];
        }
      }
      assert RunsTo(cfg, true, trace + more, turns + after, m);
      SafeWithin(cfg, trace + more, turns + after, m);
    }
  }

  lemma LateTurnFails(cfg: Config, trace: seq<Net>, turns: seq<Turn>, n: Net, n': Net, t: Turn)
    requires Checked(cfg) && TextsFit(cfg.limits) && RunsTo(cfg, true, trace, turns, n) && !Keeps(n, t)
    requires RunsTo(cfg, false, trace + [n'], turns + [t], n') && Ready(cfg, Seen(n, t.left))
    ensures FailsLater(cfg, trace + [n'], turns + [t])
  {
    var v, left := Seen(n, t.left), t.left;
    RunMoves(cfg, true, trace, turns, n);
    RunClean(cfg, trace, turns, |turns|);
    CleanSeen(cfg, n, left);
    ReachedWithin(cfg, true, n) by { assert RunsTo(cfg, true, trace, turns, n); }
    assert Obeys(cfg, trace + [n'], turns + [t], |turns|);
    LateMove(cfg, v, Seen(n', left), Turn(true, t.move));
    SwapTwice(n');
    LateFailsWithin(cfg, trace + [n'], turns + [t], v, t.move.a.c, t.move.a.i, left);
  }

  /**
   After a disciplined run within the limits, and whatever turn t comes next, the run can come to a
   protocol error, with everybody disciplined from then on, only if t puts a frame in the queue after
   the EOF of its channel; and then it can, if the peer has room for what is on the way to it.
   */
  lemma DisciplineWithin(cfg: Config, trace: seq<Net>, turns: seq<Turn>, n: Net, n': Net, t: Turn)
    requires Checked(cfg) && TextsFit(cfg.limits)
    requires RunsTo(cfg, true, trace, turns, n) && RunsTo(cfg, false, trace + [n'], turns + [t], n')
    ensures FailsLater(cfg, trace + [n'], turns + [t]) ==> !Keeps(n, t)
    ensures !Keeps(n, t) && Ready(cfg, Seen(n, t.left)) ==> FailsLater(cfg, trace + [n'], turns + [t])
  {
    if Keeps(n, t) {
      forall i | 0 <= i < |turns + [t]| ensures Keeps((trace + [n'])[i], (turns + [t])[i]) {
        assert (trace + [n'])[i] == trace[i];
      }
      assert RunsTo(cfg, true, trace + [n'], turns + [t], n');
      KeptIsSafe(cfg, trace + [n'], turns + [t], n');
    } else if Ready(cfg, Seen(n, t.left)) {
      LateTurnFails(cfg, trace, turns, n, n', t);
    }
  }
}
