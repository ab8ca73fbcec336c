/** What every run of two honest endpoints keeps, and when one can make the other fail. */
module MuxSafety {
  import opened Types
  import opened SessionConfig
  import opened Envelope
  import opened Channel
  import opened Endpoint
  import opened Flight
  import opened Direction
  import opened PairEvents
  import opened Network
  import opened Links
  import opened Mates
  import opened Traffic
  import opened Control
  import opened Removal
  import opened Writer
  import opened Opening
  import opened Receiving
  import opened Parting
  import opened Greeting
  import opened Incoming

  /** The shared configuration: valid, and with room for the reject codes the session invents. */
  predicate Fit(cfg: Config) {
    Checked(cfg) && RoomForRejects(cfg)
  }

  // ----- every step keeps the invariant

  lemma CancelKeeps(cfg: Config, n: Net, i: nat)
    requires Fit(cfg) && Inv(cfg, n) && Cancellable(n.l, i)
    ensures Inv(cfg, n.(l := AfterCancel(n.l, i)))
  {
    match n.l.out[i].msg
    case Data(_, _) => StepCancelData(cfg, n, i);
    case Request(_, _, _, _, _) => StepCancelRequest(cfg, n, i);
    case Open(_, _, _, _, _) => StepCancelOpen(cfg, n, i);
  }

  lemma HandleGlobalKeeps(cfg: Config, n: Net, v: Verdict)
    requires Fit(cfg) && Inv(cfg, n) && Enabled(cfg, n.l, HandleGlobal(v))
    ensures Inv(cfg, n.(l := Next(cfg, n.l, HandleGlobal(v))))
  {
    if n.l.dispatch[0].want {
      StepHandleGlobalWant(cfg, n, v);
    } else {
      StepHandleGlobalPlain(cfg, n, v);
    }
  }

  predicate Writes(a: Action) {
    a.WriteControl? || a.WriteOutbound?
  }

  predicate Calls(a: Action) {
    a.OpenChannel? || a.ReserveSend? || a.QueueSend? || a.FailSend? || a.CancelWrite? || a.RecvFrame? || a.SendRequest? || a.CloseWrite?
  }

  lemma CallKeeps(cfg: Config, n: Net, a: Action)
    requires Fit(cfg) && Inv(cfg, n) && Enabled(cfg, n.l, a) && Disciplined(n.l, Local(a)) && Calls(a)
    ensures Inv(cfg, n.(l := Next(cfg, n.l, a)))
  {
    match a
    case OpenChannel(typ, payload) => StepOpen(cfg, n, typ, payload);
    case ReserveSend(c, frame) => StepReserve(cfg, n, c, frame);
    case QueueSend(c, i) => StepQueue(cfg, n, c, i);
    case FailSend(c, i) => StepFailSend(cfg, n, c, i);
    case CancelWrite(i) => CancelKeeps(cfg, n, i);
    case RecvFrame(c) => StepRecv(cfg, n, c);
    case SendRequest(c, typ, payload, want) => StepRequest(cfg, n, c, typ, payload, want);
    case CloseWrite(c) => StepCloseWrite(cfg, n, c);
  }

  predicate Ends(a: Action) {
    a.CloseChannel? || a.CloseTimeout? || a.AbandonOpen? || a.AbandonRequest?
  }

  lemma EndKeeps(cfg: Config, n: Net, a: Action)
    requires Fit(cfg) && Inv(cfg, n) && Enabled(cfg, n.l, a) && Ends(a)
    ensures Inv(cfg, n.(l := Next(cfg, n.l, a)))
  {
    match a
    case CloseChannel(c) => StepClose(cfg, n, c);
    case CloseTimeout(c) => StepTimeout(cfg, n, c);
    case AbandonOpen(c) => StepAbandonOpen(cfg, n, c);
    case AbandonRequest(c, id) => StepAbandonRequest(cfg, n, c, id);
  }

  lemma QuietKeeps(cfg: Config, n: Net, a: Action)
    requires Fit(cfg) && Inv(cfg, n) && Enabled(cfg, n.l, a) && !Calls(a) && !Ends(a) && !Writes(a)
    ensures Inv(cfg, n.(l := Next(cfg, n.l, a)))
  {
    match a
    case SendGlobal(typ, payload, want) => StepSendGlobal(cfg, n, typ, payload, want);
    case HandleGlobal(v) => HandleGlobalKeeps(cfg, n, v);
    case HandleEvent(c, v) => StepEvent(cfg, n, c, v);
    case FinishRequest(c, id) => StepFinish(cfg, n, c, id);
    case FinishGlobal(id) => StepFinishGlobal(cfg, n, id);
    case SpendChannelId => StepSpendChannel(cfg, n);
    case SpendRequestId(c) => StepSpendRequest(cfg, n, c);
    case AbandonGlobal(id) => StepAbandonGlobal(cfg, n, id);
    case CancelGlobal(i) => StepCancelGlobal(cfg, n, i);
    case SpendGlobalId => StepSpendGlobal(cfg, n);
  }

  lemma ReceiveKeeps(cfg: Config, n: Net, luck: Luck)
    requires Fit(cfg) && Inv(cfg, n) && n.rl != [] && Route(cfg, n.l, n.rl[0], luck).Ok?
    ensures Inv(cfg, n.(l := Route(cfg, n.l, n.rl[0], luck).next, rl := n.rl[1..]))
  {
    match n.rl[0]
    case Open(_, _, _, _, _) => StepOpened(cfg, n, luck);
    case OpenOk(_, _, _, _, _) => StepOpenOk(cfg, n);
    case OpenReject(_, _) => StepOpenReject(cfg, n);
    case Data(_, _) => StepData(cfg, n, luck);
    case Adjust(_, _) => StepAdjust(cfg, n);
    case Eof(_) => StepEof(cfg, n, luck);
    case Close(c) => if n.l.chans[c].state.Closing? { StepCloseAcked(cfg, n, luck); } else { StepClosed(cfg, n, luck); }
    case Request(_, _, _, _, _) => if luck.queue { StepRequested(cfg, n, luck); } else { StepRequestRefused(cfg, n, luck); }
    case Reply(_, _, _) => StepReplied(cfg, n);
    case GlobalRequest(_, _, _, _) => if luck.queue { StepGlobalQueued(cfg, n, luck); } else { StepGlobalRefused(cfg, n, luck); }
    case GlobalReply(_, _) => StepGlobalReplied(cfg, n);
  }

  lemma AdmissionKeeps(cfg: Config, n: Net, d: Verdict)
    requires Fit(cfg) && Inv(cfg, n) && n.l.dispatch != [] && n.l.dispatch[0].Open? && VerdictOk(cfg, d)
    ensures Admit(cfg, n.l, d).Ok? && Inv(cfg, n.(l := Admit(cfg, n.l, d).next))
  {
    match d
    case Granted(payload) => StepAccept(cfg, n, payload);
    case Denied(r) => StepRefuse(cfg, n, r);
  }

  lemma LocalKeeps(cfg: Config, n: Net, a: Action)
    requires Fit(cfg) && Inv(cfg, n) && Enabled(cfg, n.l, a) && Disciplined(n.l, Local(a))
    ensures Inv(cfg, n.(l := Next(cfg, n.l, a), lr := n.lr + Emits(n.l, a)))
  {
    if a.WriteControl? {
      StepWriteControl(cfg, n);
    } else if a.WriteOutbound? {
      StepWrite(cfg, n);
    } else {
      assert n.lr + Emits(n.l, a) == n.lr;
      if Calls(a) {
        CallKeeps(cfg, n, a);
      } else if Ends(a) {
        EndKeeps(cfg, n, a);
      } else {
        QuietKeeps(cfg, n, a);
      }
    }
  }

  lemma LeftKeeps(cfg: Config, n: Net, n': Net, mv: Move)
    requires Fit(cfg) && Inv(cfg, n) && LeftMoves(cfg, n, n', mv) && Disciplined(n.l, mv)
    ensures Inv(cfg, n')
  {
    match mv
    case Local(a) => LocalKeeps(cfg, n, a);
    case Admission(d) => AdmissionKeeps(cfg, n, d);
    case Receive(luck) => ReceiveKeeps(cfg, n, luck);
  }

  /** Every move of either endpoint keeps the invariant. */
  lemma StepKeeps(cfg: Config, n: Net, n': Net, t: Turn)
    requires Fit(cfg) && Inv(cfg, n) && Step(cfg, n, n', t)
    ensures Inv(cfg, n')
  {
    if t.left {
      LeftKeeps(cfg, n, n', t.move);
    } else {
      InvSwap(cfg, n);
      LeftKeeps(cfg, Swap(n), Swap(n'), t.move);
      InvSwap(cfg, Swap(n'));
    }
  }

  /** The invariant holds in every state of every run. */
  lemma {:induction false} RunKeeps(cfg: Config, trace: seq<Net>, turns: seq<Turn>, i: nat)
    requires Fit(cfg) && Run(cfg, trace, turns) && i < |trace|
    ensures Inv(cfg, trace[i])
  {
    if i == 0 {
      StartOk(cfg);
    } else {
      RunKeeps(cfg, trace, turns, i - 1);
      StepKeeps(cfg, trace[i - 1], trace[i], turns[i - 1]);
    }
  }
}
