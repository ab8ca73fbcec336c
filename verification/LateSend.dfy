/**
 Why applications must not let a Send put its frame in the queue after CloseWrite: exactly the turns
 that do so open the way to a protocol error.
 */
module LateSend {
  import opened Types
  import opened SessionConfig
  import opened Envelope
  import opened Channel
  import opened Endpoint
  import opened Flight
  import opened Direction
  import opened Network
  import opened Traffic
  import opened MuxSafety
  import opened MuxErrors

  /** Turns of any application, disciplined or not. */
  predicate LooseStep(cfg: Config, n: Net, n': Net, t: Turn) {
    if t.left then LeftMoves(cfg, n, n', t.move) else LeftMoves(cfg, Swap(n), Swap(n'), t.move)
  }

  predicate Keeps(n: Net, t: Turn) {
    Disciplined(if t.left then n.l else n.r, t.move)
  }

  /** The states and turns after n, up to n', in which nobody closes, gives up or breaks the discipline. */
  predicate Onwards(cfg: Config, n: Net, trace: seq<Net>, turns: seq<Turn>, n': Net) {
    && |trace| == |turns| + 1 && trace[0] == n && trace[|turns|] == n'
    && forall i :: 0 <= i < |turns| ==> Step(cfg, trace[i], trace[i + 1], turns[i]) && !Spoils(turns[i].move)
  }

  ghost predicate Leads(cfg: Config, n: Net, n': Net) {
    exists trace, turns :: Onwards(cfg, n, trace, turns, n')
  }

  /** Some envelope at the front of a link is a protocol error for its receiver. */
  predicate Fails(cfg: Config, n: Net) {
    || (n.lr != [] && Route(cfg, n.r, n.lr[0], PLENTY).ProtocolError?)
    || (n.rl != [] && Route(cfg, n.l, n.rl[0], PLENTY).ProtocolError?)
  }

  ghost predicate CanFail(cfg: Config, n: Net) {
    exists n' :: Leads(cfg, n, n') && Fails(cfg, n')
  }

  lemma LeadsHere(cfg: Config, n: Net)
    ensures Leads(cfg, n, n)
  {
    assert Onwards(cfg, n, [n], [], n);
  }

  lemma LeadsOn(cfg: Config, n: Net, t: Turn, n1: Net, n': Net)
    requires Step(cfg, n, n1, t) && !Spoils(t.move) && Leads(cfg, n1, n')
    ensures Leads(cfg, n, n')
  {
    var trace, turns :| Onwards(cfg, n1, trace, turns, n');
    var trace', turns' := [n] + trace, [t] + turns;
    forall i | 0 <= i < |turns'| ensures Step(cfg, trace'[i], trace'[i + 1], turns'[i]) && !Spoils(turns'[i].move) {
      if i > 0 {
        assert trace'[i] == trace[i - 1] && trace'[i + 1] == trace[i] && turns'[i] == turns[i - 1];
      }
    }
    assert Onwards(cfg, n, trace', turns', n');
  }

  lemma CanFailOn(cfg: Config, n: Net, t: Turn, n1: Net)
    requires Step(cfg, n, n1, t) && !Spoils(t.move) && CanFail(cfg, n1)
    ensures CanFail(cfg, n)
  {
    var n' :| Leads(cfg, n1, n') && Fails(cfg, n');
    LeadsOn(cfg, n, t, n1, n');
  }

  // ----- the left endpoint queues a frame after its EOF

  /** Nobody has closed or given up anything, and the two ends fit together. */
  ghost predicate Sound(cfg: Config, n: Net) {
    Inv(cfg, n) && Unspoiled(n.l) && Unspoiled(n.r)
  }

  predicate Ended(e: Endpoint, c: nat, i: nat) {
    Held(e, c) && i < |e.chans[c].reserved| && e.chans[c].state.SentEof()
  }

  function LateEnd(e: Endpoint, c: nat, i: nat): Endpoint
    requires Ended(e, c, i)
  {
    PutOut(SetChan(e, c, Queued(e.chans[c], i)), Data(e.chans[c].peer.value, e.chans[c].reserved[i]), Some(c))
  }

  /** n once the i-th reserved frame of channel c went into the queue. */
  function Late(n: Net, c: nat, i: nat): Net
    requires Ended(n.l, c, i)
  {
    n.(l := LateEnd(n.l, c, i))
  }

  /** What the left endpoint has still to send before that frame. */
  function Ahead(n: Net): nat {
    2 * (|n.l.ctrl| + |n.l.out|) + |n.lr|
  }

  /** Enough channel ids are left for all of it. */
  predicate IdsLeft(n: Net) {
    |n.r.chans| + |n.l.ctrl| + |n.l.out| + |n.lr| < MAX_U64
  }

  lemma SoundStep(cfg: Config, n: Net, n': Net, t: Turn)
    requires Fit(cfg) && Sound(cfg, n) && Step(cfg, n, n', t) && !Spoils(t.move)
    ensures Sound(cfg, n')
  {
    StepKeeps(cfg, n, n', t);
    StepUnspoiled(cfg, n, n', t);
  }

  lemma RouteGrows(cfg: Config, e: Endpoint, m: Msg, luck: Luck)
    requires Route(cfg, e, m, luck).Ok?
    ensures |Route(cfg, e, m, luck).next.chans| <= |e.chans| + 1
  {
  }

  /** The peer handles the next envelope if it has room. */
  lemma PeerHandles(cfg: Config, n: Net)
    requires Fit(cfg) && Sound(cfg, n) && IdsLeft(n) && n.lr != []
    ensures Route(cfg, n.r, n.lr[0], PLENTY).Ok?
  {
    InvSwap(cfg, n);
    RouteSafe(cfg, Swap(n), PLENTY);
  }

  /** It does so late frame or not. */
  lemma PeerReceives(cfg: Config, n: Net, c: nat, i: nat) returns (n': Net, t: Turn)
    requires Ended(n.l, c, i) && IdsLeft(n) && n.lr != [] && Route(cfg, n.r, n.lr[0], PLENTY).Ok?
    ensures Step(cfg, n, n', t) && !Spoils(t.move) && n'.l == n.l
    ensures Step(cfg, Late(n, c, i), Late(n', c, i), t)
    ensures IdsLeft(n') && Ahead(n') < Ahead(n)
    ensures t == Turn(false, Receive(PLENTY)) && n' == n.(r := Route(cfg, n.r, n.lr[0], PLENTY).next, lr := n.lr[1..])
  {
    t := Turn(false, Receive(PLENTY));
    RouteGrows(cfg, n.r, n.lr[0], PLENTY);
    n' := n.(r := Route(cfg, n.r, n.lr[0], PLENTY).next, lr := n.lr[1..]);
  }

  lemma WritesControl(cfg: Config, n: Net, c: nat, i: nat) returns (n': Net, t: Turn)
    requires Ended(n.l, c, i) && IdsLeft(n) && n.l.ctrl != []
    ensures Step(cfg, n, n', t) && !Spoils(t.move) && Ended(n'.l, c, i)
    ensures Step(cfg, Late(n, c, i), Late(n', c, i), t)
    ensures IdsLeft(n') && Ahead(n') < Ahead(n)
    ensures t == Turn(true, Local(WriteControl)) && n' == n.(l := n.l.(ctrl := n.l.ctrl[1..]), lr := n.lr + [n.l.ctrl[0]])
  {
    t := Turn(true, Local(WriteControl));
    n' := n.(l := n.l.(ctrl := n.l.ctrl[1..]), lr := n.lr + [n.l.ctrl[0]]);
    assert Late(n', c, i).l == Late(n, c, i).l.(ctrl := n.l.ctrl[1..]);
  }

  /** Writing the head of the queue is the same with and without the late frame at its end. */
  lemma WriteLate(e: Endpoint, c: nat, i: nat)
    requires Ended(e, c, i) && e.out != []
    ensures Ended(AfterWrite(e), c, i) && AfterWrite(LateEnd(e, c, i)) == LateEnd(AfterWrite(e), c, i)
  {
    var late := LateEnd(e, c, i);
    var w := e.out[0];
    assert late.out[0] == w && late.out[1..] == e.out[1..] + [late.out[|e.out|]];
    if !w.cancelled && w.msg.OpenOk? && w.from.Some? && w.from.value < |e.chans| {
      var k := w.from.value;
      assert AfterWrite(late).chans == LateEnd(AfterWrite(e), c, i).chans;
    }
  }

  lemma WritesOut(cfg: Config, n: Net, c: nat, i: nat) returns (n': Net, t: Turn)
    requires Ended(n.l, c, i) && IdsLeft(n) && n.l.out != []
    ensures Step(cfg, n, n', t) && !Spoils(t.move) && Ended(n'.l, c, i)
    ensures Step(cfg, Late(n, c, i), Late(n', c, i), t)
    ensures IdsLeft(n') && Ahead(n') < Ahead(n)
    ensures t == Turn(true, Local(WriteOutbound)) && n' == n.(l := AfterWrite(n.l), lr := n.lr + Emits(n.l, WriteOutbound))
  {
    t := Turn(true, Local(WriteOutbound));
    WriteLate(n.l, c, i);
    n' := n.(l := AfterWrite(n.l), lr := n.lr + Emits(n.l, WriteOutbound));
  }

  /** A peer that still takes data is the channel's mate. */
  lemma OpenMate(x: Endpoint, y: Endpoint, c: nat, q: nat)
    requires MatesOk(x, y) && MatesOk(y, x) && Unspoiled(x) && Unspoiled(y) && Speaks(x, c, q) && ChanOk(x.chans[c])
    requires q < |y.chans| && ChanOk(y.chans[q]) && y.chans[q].state.CanReceiveData()
    ensures Mated(x, y, c, q)
  {
    assert MateOk(x, y, c);
    if y.chans[q].peer.Some? {
      assert MateOk(y, x, q);
    }
  }

  /** Once everything before it has arrived, the peer knows of the EOF. */
  lemma PeerEnded(cfg: Config, n: Net, c: nat, i: nat)
    requires Sound(cfg, n) && Ended(n.l, c, i) && n.lr == [] && n.l.ctrl == [] && n.l.out == []
    ensures var q := n.l.chans[c].peer.value; q < |n.r.chans| && !n.r.chans[q].state.CanReceiveData()
  {
    var q := n.l.chans[c].peer.value;
    ChanFacts(cfg, n, c);
    assert Fly(n.l, n.lr) == [];
    if n.r.chans[q].state.CanReceiveData() {
      assert ChanOk(n.r.chans[q]);
      OpenMate(n.l, n.r, c, q);
      var v, w := Views(cfg, n.l, n.r, [], Fly(n.r, n.rl), c, q);
    }
  }

  /** The late frame is all that is left, and the peer does not take it. */
  lemma LateFails(cfg: Config, n: Net, c: nat, i: nat)
    requires Ended(n.l, c, i) && n.lr == [] && n.l.ctrl == [] && n.l.out == []
    requires var q := n.l.chans[c].peer.value; q < |n.r.chans| && !n.r.chans[q].state.CanReceiveData()
    ensures CanFail(cfg, Late(n, c, i))
  {
    var late := Late(n, c, i);
    var n' := late.(l := late.l.(out := []), lr := [late.l.out[0].msg]);
    var t := Turn(true, Local(WriteOutbound));
    assert late.l.out[1..] == [] && late.lr + Emits(late.l, WriteOutbound) == n'.lr;
    assert Step(cfg, late, n', t);
    assert Fails(cfg, n');
    LeadsHere(cfg, n');
    CanFailOn(cfg, late, t, n');
  }

  /** From every state in which a frame went into the queue after the EOF, some way leads to a protocol error. */
  lemma {:induction false} LateSendFails(cfg: Config, n: Net, c: nat, i: nat)
    requires Fit(cfg) && Sound(cfg, n) && Ended(n.l, c, i) && IdsLeft(n)
    ensures CanFail(cfg, Late(n, c, i))
    decreases Ahead(n)
  {
    if n.lr == [] && n.l.ctrl == [] && n.l.out == [] {
      PeerEnded(cfg, n, c, i);
      LateFails(cfg, n, c, i);
    } else {
      var n', t;
      if n.lr != [] {
        PeerHandles(cfg, n);
        n', t := PeerReceives(cfg, n, c, i);
      } else if n.l.ctrl != [] {
        n', t := WritesControl(cfg, n, c, i);
      } else {
        n', t := WritesOut(cfg, n, c, i);
      }
      SoundStep(cfg, n, n', t);
      LateSendFails(cfg, n', c, i);
      CanFailOn(cfg, Late(n, c, i), t, Late(n', c, i));
    }
  }

  // ----- both endpoints, and the other direction

  lemma FailsSwap(cfg: Config, n: Net)
    requires CanFail(cfg, Swap(n))
    ensures CanFail(cfg, n)
  {
    var n' :| Leads(cfg, Swap(n), n') && Fails(cfg, n');
    var trace: seq<Net>, turns: seq<Turn> :| Onwards(cfg, Swap(n), trace, turns, n');
    var trace' := seq(|trace|, k requires 0 <= k < |trace| => Swap(trace[k]));
    var turns' := seq(|turns|, k requires 0 <= k < |turns| => Turn(!turns[k].left, turns[k].move));
    forall k | 0 <= k < |turns'| ensures Step(cfg, trace'[k], trace'[k + 1], turns'[k]) && !Spoils(turns'[k].move) {
      assert Step(cfg, trace[k], trace[k + 1], turns[k]);
      SwapTwice(trace[k]);
      SwapTwice(trace[k + 1]);
    }
    SwapTwice(n);
    assert Onwards(cfg, n, trace', turns', Swap(n'));
    assert Fails(cfg, Swap(n'));
  }

  lemma SwapTwice(n: Net)
    ensures Swap(Swap(n)) == n
  {
  }

  lemma {:induction false} SoundOnwards(cfg: Config, n: Net, trace: seq<Net>, turns: seq<Turn>, n': Net, i: nat)
    requires Fit(cfg) && Sound(cfg, n) && Onwards(cfg, n, trace, turns, n') && i < |trace|
    ensures Sound(cfg, trace[i])
  {
    if i > 0 {
      SoundOnwards(cfg, n, trace, turns, n', i - 1);
      SoundStep(cfg, trace[i - 1], trace[i], turns[i - 1]);
    }
  }

  lemma SoundIsSafe(cfg: Config, n: Net)
    requires Fit(cfg) && Sound(cfg, n)
    ensures !CanFail(cfg, n)
  {
    if CanFail(cfg, n) {
      var n' :| Leads(cfg, n, n') && Fails(cfg, n');
      var trace, turns :| Onwards(cfg, n, trace, turns, n');
      SoundOnwards(cfg, n, trace, turns, n', |turns|);
      SafeLeft(cfg, n');
      InvSwap(cfg, n');
      SafeLeft(cfg, Swap(n'));
    }
  }

  lemma LateMove(cfg: Config, n: Net, n': Net, t: Turn)
    requires t.left && LooseStep(cfg, n, n', t) && !Keeps(n, t)
    ensures t.move.Local? && t.move.a.QueueSend? && Ended(n.l, t.move.a.c, t.move.a.i) && n' == Late(n, t.move.a.c, t.move.a.i)
  {
    assert n.lr + Emits(n.l, t.move.a) == n.lr;
  }

  lemma LateLeft(cfg: Config, n: Net, n': Net, t: Turn)
    requires Fit(cfg) && Sound(cfg, n) && IdsLeft(n) && t.left && LooseStep(cfg, n, n', t) && !Keeps(n, t)
    ensures CanFail(cfg, n')
  {
    LateMove(cfg, n, n', t);
    LateSendFails(cfg, n, t.move.a.c, t.move.a.i);
  }

  /**
   In a run without closes, abandoned calls and late sends so far, the next turn opens the way to a
   protocol error exactly if it puts a frame in the queue after the EOF of its channel.
   */
  lemma DisciplineExact(cfg: Config, trace: seq<Net>, turns: seq<Turn>, n': Net, t: Turn)
    requires Fit(cfg) && Run(cfg, trace, turns) && forall j :: 0 <= j < |turns| ==> !Spoils(turns[j].move)
    requires LooseStep(cfg, trace[|turns|], n', t) && !Spoils(t.move)
    requires IdsLeft(trace[|turns|]) && IdsLeft(Swap(trace[|turns|]))
    ensures CanFail(cfg, n') <==> !Keeps(trace[|turns|], t)
  {
    var n := trace[|turns|];
    RunKeeps(cfg, trace, turns, |turns|);
    RunUnspoiled(cfg, trace, turns, |turns|);
    if Keeps(n, t) {
      SoundStep(cfg, n, n', t);
      SoundIsSafe(cfg, n');
    } else if t.left {
      LateLeft(cfg, n, n', t);
    } else {
      InvSwap(cfg, n);
      LateLeft(cfg, Swap(n), Swap(n'), Turn(true, t.move));
      FailsSwap(cfg, n');
    }
  }
}
