/**
 The reject codes and messages the session writes itself. A budget too small to carry one of them
 keeps it off the wire, so short limits on codes and messages do no harm there.
 */
module Texts {
  import opened Types
  import opened SessionConfig
  import opened Protobuf
  import opened Envelope
  import opened Channel
  import opened Endpoint
  import opened Network
  import opened MuxSafety
  import opened MuxErrors
  import opened LateSend
  import opened Budget

  /** A fallback of n bytes for a handler's missing code or message travels with one byte or more of the other. */
  predicate FallbackFits(l: Limits, n: nat) {
    9 + n <= l.maxQueuedBytesTotal ==> n <= l.maxCodeLength && n <= l.maxMessageLength
  }

  /** A message of n bytes about a full queue travels with the code "resource-limit". */
  predicate NoticeFits(l: Limits, n: nat) {
    22 + n <= l.maxQueuedBytesTotal ==> n <= l.maxMessageLength
  }

  /**
   Every text of the session's own that the byte budget can carry is within the limits for codes and
   messages. The fallbacks for channel requests, of 24 bytes, need a request in a channel's queue first,
   and the smallest has 5 bytes.
   */
  predicate TextsFit(l: Limits) {
    && FallbackFits(l, 21) && FallbackFits(l, 23) && (l.maxQueuedBytesPerChannel >= 5 ==> FallbackFits(l, 24))
    && NoticeFits(l, 27) && NoticeFits(l, 34) && NoticeFits(l, 35)
  }

  /** In all but tiny budgets that means all of them. */
  lemma LargeBudget(cfg: Config)
    requires cfg.limits.maxQueuedBytesTotal >= 57 && cfg.limits.maxQueuedBytesPerChannel >= 5
    ensures TextsFit(cfg.limits) <==> RoomForRejects(cfg)
  {
  }

  lemma TextLengths()
    ensures |"channel-open-rejected"| == 21 && |"channel open rejected"| == 21
    ensures |"global-request-rejected"| == 23 && |"global request rejected"| == 23
    ensures |"channel-request-rejected"| == 24 && |"channel request rejected"| == 24
    ensures |"resource-limit"| == 14 && |"channel limit reached"| == 21 && |"channel queue limit reached"| == 27
    ensures |"global request queue limit reached"| == 34 && |"channel request queue limit reached"| == 35
  {
  }

  // ----- what a reject takes

  lemma FieldAtLeast(n: nat)
    ensures n > 0 ==> TextSize(n) >= n + 2
    ensures MessageSize(n) >= n + 2
  {
  }

  /** A reject with a code and a message. */
  predicate Full(r: Reject) {
    r.code != "" && r.message != ""
  }

  lemma RejectAtLeast(r: Reject)
    requires Full(r)
    ensures RejectSize(r) >= |r.code| + |r.message| + 4
  {
    FieldAtLeast(|r.code|);
    FieldAtLeast(|r.message|);
  }

  /** An envelope that carries r. */
  predicate Carries(m: Msg, r: Reject) {
    || m == OpenReject(if m.OpenReject? then m.opener else 0, r)
    || ((m.Reply? || m.GlobalReply?) && m.verdict == Denied(r))
  }

  lemma EnvelopeAtLeast(m: Msg, r: Reject)
    requires Carries(m, r) && Full(r)
    ensures Size(m) >= |r.code| + |r.message| + 8
  {
    RejectAtLeast(r);
    FieldAtLeast(RejectSize(r));
    FieldAtLeast(Body(m));
  }

  predicate TextsOk(cfg: Config, m: Msg) {
    match m
    case OpenReject(_, r) => RejectOk(cfg, r)
    case Reply(_, _, v) => VerdictOk(cfg, v)
    case GlobalReply(_, v) => VerdictOk(cfg, v)
    case Disconnect(code, message) => RejectOk(cfg, Reject(code, message, []))
    case _ => true
  }

  /** The fallback texts of one kind of request have the same length n. */
  lemma FallbackOk(cfg: Config, m: Msg, r: Reject, code: string, message: string)
    requires FallbackFits(cfg.limits, |code|) && RejectOk(cfg, r) && code != "" && |code| == |message|
    requires Carries(m, Normalize(r, code, message)) && Size(m) <= cfg.limits.maxQueuedBytesTotal
    ensures RejectOk(cfg, Normalize(r, code, message))
  {
    EnvelopeAtLeast(m, Normalize(r, code, message));
  }

  lemma LimitOk(cfg: Config, m: Msg, message: string)
    requires TextsFit(cfg.limits) && (|message| == 21 || |message| == 27 || |message| == 34 || |message| == 35)
    requires Carries(m, LimitReject(message)) && Size(m) <= cfg.limits.maxQueuedBytesTotal
    ensures RejectOk(cfg, LimitReject(message))
  {
    TextLengths();
    EnvelopeAtLeast(m, LimitReject(message));
  }

  // ----- what is queued is within the budget

  lemma {:induction false} OutMember(out: seq<Write>, i: nat)
    requires i < |out|
    ensures Size(out[i].msg) <= OutBytes(out)
  {
    if i > 0 {
      OutMember(out[1..], i - 1);
    }
  }

  lemma {:induction false} ControlMember(ctrl: seq<Msg>, i: nat)
    requires i < |ctrl|
    ensures Size(ctrl[i]) <= ControlBytes(ctrl)
  {
    if i > 0 {
      ControlMember(ctrl[1..], i - 1);
    }
  }

  /** All texts an endpoint has queued are within the limits. */
  ghost predicate Tells(cfg: Config, e: Endpoint) {
    && (forall i :: 0 <= i < |e.ctrl| ==> TextsOk(cfg, e.ctrl[i]))
    && (forall i :: 0 <= i < |e.out| ==> TextsOk(cfg, e.out[i].msg))
  }

  ghost predicate Told(cfg: Config, ms: seq<Msg>) {
    forall i :: 0 <= i < |ms| ==> TextsOk(cfg, ms[i])
  }

  lemma PutOutTells(cfg: Config, e: Endpoint, e': Endpoint, m: Msg)
    requires Tells(cfg, e) && e'.ctrl == e.ctrl && |e'.out| == |e.out| + 1 && e'.out[|e.out|].msg == m
    requires forall i :: 0 <= i < |e.out| ==> e'.out[i].msg == e.out[i].msg
    requires TextsOk(cfg, m)
    ensures Tells(cfg, e')
  {
  }

  lemma LastOut(l: Limits, e: Endpoint)
    requires Within(l, e) && e.out != []
    ensures Size(e.out[|e.out| - 1].msg) <= l.maxQueuedBytesTotal
  {
    OutMember(e.out, |e.out| - 1);
  }

  lemma LastControl(l: Limits, e: Endpoint)
    requires Within(l, e) && e.ctrl != []
    ensures Size(e.ctrl[|e.ctrl| - 1]) <= l.maxQueuedBytesTotal
  {
    ControlMember(e.ctrl, |e.ctrl| - 1);
  }

  lemma AdmitTells(cfg: Config, e: Endpoint, d: Verdict)
    requires TextsFit(cfg.limits) && Tells(cfg, e) && e.dispatch != [] && e.dispatch[0].Open?
    requires Admit(cfg, e, d).Ok? && Within(cfg.limits, Admit(cfg, e, d).next)
    ensures Tells(cfg, Admit(cfg, e, d).next)
  {
    var e' := Admit(cfg, e, d).next;
    var m := e'.out[|e.out|].msg;
    LastOut(cfg.limits, e');
    if d.Denied? {
      TextLengths();
      FallbackOk(cfg, m, d.reject, "channel-open-rejected", "channel open rejected");
    }
    PutOutTells(cfg, e, e', m);
  }

  /** A request in a channel's queue is one that passed the receiver's checks. */
  predicate EventOk(ev: Event) {
    ev.RequestEvent? ==> ev.request.Request? && ev.request.typ != "" && ev.request.want == ev.want
  }

  /** Events are well formed, and the queues of a channel in the table count. */
  predicate ChanTells(ch: Chan) {
    && (forall i :: 0 <= i < |ch.events| ==> EventOk(ch.events[i]))
    && (ch.discarded ==> ch.slot == NoSlot)
  }

  ghost predicate EventsOk(e: Endpoint) {
    forall c :: 0 <= c < |e.chans| ==> ChanTells(e.chans[c])
  }

  lemma RequestAtLeast(l: Limits, ch: Chan)
    requires ChanWithin(l, ch) && !ch.discarded && ch.events != [] && ch.events[0].RequestEvent? && ch.events[0].want && EventOk(ch.events[0])
    ensures l.maxQueuedBytesPerChannel >= 5
  {
    FieldAtLeast(|ch.events[0].request.typ|);
  }

  lemma EventTells(cfg: Config, e: Endpoint, c: nat, v: Verdict)
    requires TextsFit(cfg.limits) && Tells(cfg, e) && Enabled(cfg, e, HandleEvent(c, v)) && Within(cfg.limits, AfterEvent(e, c, v))
    requires Within(cfg.limits, e) && ChanTells(e.chans[c]) && e.chans[c].slot == Active
    ensures Tells(cfg, AfterEvent(e, c, v))
  {
    var e' := AfterEvent(e, c, v);
    if e'.out != e.out {
      var m := e'.out[|e.out|].msg;
      LastOut(cfg.limits, e');
      if v.Denied? {
        TextLengths();
        RequestAtLeast(cfg.limits, e.chans[c]);
        FallbackOk(cfg, m, v.reject, "channel-request-rejected", "channel request rejected");
      }
      PutOutTells(cfg, e, e', m);
    }
  }

  lemma GlobalTells(cfg: Config, e: Endpoint, v: Verdict)
    requires TextsFit(cfg.limits) && Tells(cfg, e) && Enabled(cfg, e, HandleGlobal(v)) && Within(cfg.limits, Next(cfg, e, HandleGlobal(v)))
    ensures Tells(cfg, Next(cfg, e, HandleGlobal(v)))
  {
    var e' := Next(cfg, e, HandleGlobal(v));
    if e.dispatch[0].want {
      var m := e'.out[|e.out|].msg;
      LastOut(cfg.limits, e');
      if v.Denied? {
        TextLengths();
        FallbackOk(cfg, m, v.reject, "global-request-rejected", "global request rejected");
      }
      PutOutTells(cfg, e, e', m);
    }
  }

  lemma LocalTells(cfg: Config, e: Endpoint, a: Action)
    requires TextsFit(cfg.limits) && Tells(cfg, e) && Enabled(cfg, e, a) && Within(cfg.limits, Next(cfg, e, a))
    requires Within(cfg.limits, e) && EventsOk(e) && LiveActive(e)
    ensures Tells(cfg, Next(cfg, e, a)) && Told(cfg, Emits(e, a))
  {
    if a.HandleEvent? {
      EventTells(cfg, e, a.c, a.verdict);
    } else if a.HandleGlobal? {
      GlobalTells(cfg, e, a.verdict);
    } else {
      OtherTells(cfg, e, a);
    }
  }

  lemma OtherTells(cfg: Config, e: Endpoint, a: Action)
    requires Tells(cfg, e) && Enabled(cfg, e, a) && !a.HandleEvent? && !a.HandleGlobal?
    ensures Tells(cfg, Next(cfg, e, a)) && Told(cfg, Emits(e, a))
  {
    if a.CancelWrite? {
      MarkTells(cfg, e, AfterCancel(e, a.i), a.i);
    } else if a.CancelGlobal? {
      MarkTells(cfg, e, AfterUnasked(e, a.i), a.i);
    } else {
      PlainTells(cfg, e, a);
    }
  }

  lemma MarkTells(cfg: Config, e: Endpoint, e': Endpoint, i: nat)
    requires Tells(cfg, e) && i < |e.out| && e'.ctrl == e.ctrl && e'.out == e.out[i := e.out[i].(cancelled := true)]
    ensures Tells(cfg, e')
  {
  }

  /** These queue no text, or take the head of a queue. */
  lemma PlainTells(cfg: Config, e: Endpoint, a: Action)
    requires Tells(cfg, e) && Enabled(cfg, e, a) && !a.HandleEvent? && !a.HandleGlobal? && !a.CancelWrite? && !a.CancelGlobal?
    ensures Tells(cfg, Next(cfg, e, a)) && Told(cfg, Emits(e, a))
  {
  }

  /** The only text the receiver writes is the one about a limit. */
  lemma RouteTells(cfg: Config, e: Endpoint, m: Msg, luck: Luck)
    requires TextsFit(cfg.limits) && Tells(cfg, e) && Route(cfg, e, m, luck).Ok? && Within(cfg.limits, Route(cfg, e, m, luck).next)
    ensures Tells(cfg, Route(cfg, e, m, luck).next)
  {
    var e' := Route(cfg, e, m, luck).next;
    if e'.ctrl != e.ctrl {
      LastControl(cfg.limits, e');
      RefusalTells(cfg, e, m, luck, e'.ctrl[|e.ctrl|]);
    }
  }

  lemma RefusalTells(cfg: Config, e: Endpoint, m: Msg, luck: Luck, no: Msg)
    requires TextsFit(cfg.limits) && Route(cfg, e, m, luck).Ok? && Route(cfg, e, m, luck).next.ctrl == e.ctrl + [no]
    requires Size(no) <= cfg.limits.maxQueuedBytesTotal
    ensures TextsOk(cfg, no)
  {
    assert (e.ctrl + [no])[|e.ctrl|] == no;
    TextLengths();
    if no.OpenReject? {
      LimitOk(cfg, no, no.reject.message);
    } else if no.Reply? || no.GlobalReply? {
      LimitOk(cfg, no, no.verdict.reject.message);
    }
  }

  lemma LocalEvents(cfg: Config, e: Endpoint, a: Action)
    requires EventsOk(e) && Enabled(cfg, e, a) && !Spoils(Local(a))
    ensures EventsOk(Next(cfg, e, a))
  {
    var e' := Next(cfg, e, a);
    forall c | 0 <= c < |e'.chans| ensures ChanTells(e'.chans[c]) {
      if c < |e.chans| {
        LocalEvent(cfg, e, a, c);
      }
    }
  }

  lemma LocalEvent(cfg: Config, e: Endpoint, a: Action, c: nat)
    requires Enabled(cfg, e, a) && !Spoils(Local(a)) && c < |e.chans| && ChanTells(e.chans[c])
    ensures ChanTells(Next(cfg, e, a).chans[c])
  {
    if a.HandleEvent? {
      HandledEvent(cfg, e, a.c, a.verdict, c);
    } else if a.CancelWrite? {
      CancelledEvent(e, a.i, c);
    } else {
      OtherEvent(cfg, e, a, c);
    }
  }

  lemma HandledEvent(cfg: Config, e: Endpoint, h: nat, v: Verdict, c: nat)
    requires Enabled(cfg, e, HandleEvent(h, v)) && c < |e.chans| && ChanTells(e.chans[c])
    ensures ChanTells(AfterEvent(e, h, v).chans[c])
  {
  }

  lemma CancelledEvent(e: Endpoint, i: nat, c: nat)
    requires Cancellable(e, i) && c < |e.chans| && ChanTells(e.chans[c])
    ensures ChanTells(AfterCancel(e, i).chans[c])
  {
  }

  lemma OtherEvent(cfg: Config, e: Endpoint, a: Action, c: nat)
    requires Enabled(cfg, e, a) && !Spoils(Local(a)) && !a.HandleEvent? && !a.CancelWrite? && c < |e.chans| && ChanTells(e.chans[c])
    ensures ChanTells(Next(cfg, e, a).chans[c])
  {
    var ch, ch' := e.chans[c], Next(cfg, e, a).chans[c];
    assert ch'.events == ch.events && ch'.discarded == ch.discarded && (ch.slot == NoSlot ==> ch'.slot == NoSlot);
  }

  lemma RouteEvents(cfg: Config, e: Endpoint, m: Msg, luck: Luck)
    requires EventsOk(e) && Route(cfg, e, m, luck).Ok?
    ensures EventsOk(Route(cfg, e, m, luck).next)
  {
    var e' := Route(cfg, e, m, luck).next;
    forall c | 0 <= c < |e'.chans| ensures ChanTells(e'.chans[c]) {
      if c < |e.chans| {
        assert ChanTells(e.chans[c]);
      }
    }
  }

  lemma AdmitEvents(cfg: Config, e: Endpoint, d: Verdict)
    requires EventsOk(e) && e.dispatch != [] && e.dispatch[0].Open? && Admit(cfg, e, d).Ok?
    ensures EventsOk(Admit(cfg, e, d).next)
  {
    var e' := Admit(cfg, e, d).next;
    forall c | 0 <= c < |e'.chans| ensures ChanTells(e'.chans[c]) {
      assert ChanTells(e.chans[c]);
    }
  }

  /** While nobody closes or gives up, a channel in an application's hands is in the table. */
  predicate LiveActive(e: Endpoint) {
    forall c :: 0 <= c < |e.chans| && e.chans[c].live ==> e.chans[c].slot == Active
  }

  lemma SoundLive(cfg: Config, n: Net)
    requires Sound(cfg, n)
    ensures LiveActive(n.l)
  {
    forall c | 0 <= c < |n.l.chans| && n.l.chans[c].live ensures n.l.chans[c].slot == Active {
      assert ChanOk(n.l.chans[c]);
      assert MateOk(n.l, n.r, c);
    }
  }

  /** What one side has queued and on its link. */
  ghost predicate Tidy(cfg: Config, e: Endpoint, wire: seq<Msg>) {
    Within(cfg.limits, e) && EventsOk(e) && Tells(cfg, e) && Told(cfg, wire)
  }

  lemma LeftTells(cfg: Config, n: Net, n': Net, mv: Move)
    requires TextsFit(cfg.limits) && LiveActive(n.l) && LeftMoves(cfg, n, n', mv) && !Spoils(mv)
    requires Tidy(cfg, n.l, n.lr) && Within(cfg.limits, n'.l)
    ensures Tidy(cfg, n'.l, n'.lr)
  {
    match mv
    case Local(a) => LocalEvents(cfg, n.l, a); LocalTells(cfg, n.l, a);
    case Admission(d) => AdmitEvents(cfg, n.l, d); AdmitTells(cfg, n.l, d);
    case Receive(luck) => RouteEvents(cfg, n.l, n.rl[0], luck); RouteTells(cfg, n.l, n.rl[0], luck);
  }

  lemma StillTidy(cfg: Config, e: Endpoint, wire: seq<Msg>)
    requires Tidy(cfg, e, wire) && wire != []
    ensures Tidy(cfg, e, wire[1..])
  {
    forall i | 0 <= i < |wire[1..]| ensures TextsOk(cfg, wire[1..][i]) {
      assert TextsOk(cfg, wire[i + 1]);
    }
  }

  ghost predicate AllTidy(cfg: Config, n: Net) {
    Tidy(cfg, n.l, n.lr) && Tidy(cfg, n.r, n.rl)
  }

  lemma LeftTidy(cfg: Config, n: Net, n': Net, mv: Move)
    requires TextsFit(cfg.limits) && LiveActive(n.l) && LeftMoves(cfg, n, n', mv) && !Spoils(mv)
    requires AllTidy(cfg, n) && Within(cfg.limits, n'.l)
    ensures AllTidy(cfg, n')
  {
    LeftTells(cfg, n, n', mv);
    if mv.Receive? {
      StillTidy(cfg, n.r, n.rl);
    }
  }

  lemma StepTidy(cfg: Config, n: Net, n': Net, t: Turn)
    requires TextsFit(cfg.limits) && LiveActive(n.l) && LiveActive(n.r) && LooseStep(cfg, n, n', t) && !Spoils(t.move)
    requires AllTidy(cfg, n) && Within(cfg.limits, n'.l) && Within(cfg.limits, n'.r)
    ensures AllTidy(cfg, n')
  {
    if t.left {
      LeftTidy(cfg, n, n', t.move);
    } else {
      LeftTidy(cfg, Swap(n), Swap(n'), t.move);
    }
  }

  lemma EmptyTidy(cfg: Config, e: Endpoint)
    requires Checked(cfg) && e.chans == [] && e.dispatch == [] && e.ctrl == [] && e.out == [] && e.pendingGlobal == {}
    ensures Tidy(cfg, e, [])
  {
    assert Loads(e.chans) == Load(0, 0, 0, 0, 0) && UsedFrames(e) == 0 && UsedBytes(e) == 0;
  }

  // ----- the same run under wider text limits

  function Raised(cfg: Config): Config {
    cfg.(limits := cfg.limits.(
      maxCodeLength := if cfg.limits.maxCodeLength < 24 then 24 else cfg.limits.maxCodeLength,
      maxMessageLength := if cfg.limits.maxMessageLength < 35 then 35 else cfg.limits.maxMessageLength))
  }

  lemma RaisedFit(cfg: Config)
    requires Checked(cfg)
    ensures Fit(Raised(cfg))
  {
  }

  lemma RouteRaised(cfg: Config, e: Endpoint, m: Msg, luck: Luck)
    ensures Route(cfg, e, m, luck).Ok? ==> Route(Raised(cfg), e, m, luck) == Route(cfg, e, m, luck)
    ensures TextsOk(cfg, m) ==> Route(Raised(cfg), e, m, luck) == Route(cfg, e, m, luck)
  {
  }

  lemma AdmitRaised(cfg: Config, e: Endpoint, d: Verdict)
    requires e.dispatch != [] && e.dispatch[0].Open? && VerdictOk(cfg, d)
    ensures Admit(Raised(cfg), e, d) == Admit(cfg, e, d)
  {
  }

  lemma LocalRaised(cfg: Config, e: Endpoint, a: Action)
    requires Enabled(cfg, e, a)
    ensures Enabled(Raised(cfg), e, a) && Next(Raised(cfg), e, a) == Next(cfg, e, a)
  {
  }

  lemma MovesRaised(cfg: Config, n: Net, n': Net, mv: Move)
    requires LeftMoves(cfg, n, n', mv)
    ensures LeftMoves(Raised(cfg), n, n', mv)
  {
    match mv
    case Local(a) => LocalRaised(cfg, n.l, a);
    case Admission(d) => AdmitRaised(cfg, n.l, d);
    case Receive(luck) => RouteRaised(cfg, n.l, n.rl[0], luck);
  }

  lemma StepRaised(cfg: Config, n: Net, n': Net, t: Turn)
    requires Step(cfg, n, n', t)
    ensures Step(Raised(cfg), n, n', t)
  {
    if t.left {
      MovesRaised(cfg, n, n', t.move);
    } else {
      MovesRaised(cfg, Swap(n), Swap(n'), t.move);
    }
  }

  lemma RunRaised(cfg: Config, trace: seq<Net>, turns: seq<Turn>)
    requires Run(cfg, trace, turns)
    ensures Run(Raised(cfg), trace, turns)
  {
    forall i | 0 <= i < |turns| ensures Step(Raised(cfg), trace[i], trace[i + 1], turns[i]) {
      StepRaised(cfg, trace[i], trace[i + 1], turns[i]);
    }
  }

  /** What every state of a disciplined run within the limits is like. */
  ghost predicate Clean(cfg: Config, n: Net) {
    AllTidy(cfg, n) && Sound(Raised(cfg), n)
  }

  lemma StartSound(cfg: Config, n: Net)
    requires n == START
    ensures Sound(cfg, n)
  {
    StartOk(cfg);
  }

  lemma StartTidy(cfg: Config, n: Net)
    requires Checked(cfg) && n == START
    ensures AllTidy(cfg, n)
  {
    EmptyTidy(cfg, n.l);
    EmptyTidy(cfg, n.r);
  }

  lemma StartClean(cfg: Config, n: Net)
    requires Checked(cfg) && n == START
    ensures Clean(cfg, n)
  {
    StartTidy(cfg, n);
    StartSound(Raised(cfg), n);
  }

  lemma CleanOn(cfg: Config, good: Net -> bool)
    requires Checked(cfg) && TextsFit(cfg.limits) && forall n {:trigger Clean(cfg, n)} :: good(n) == Clean(cfg, n)
    ensures forall n, n', t :: May(cfg, true, n, n', t) && good(n) ==> good(n')
  {
    forall n, n', t | May(cfg, true, n, n', t) && good(n) ensures good(n') {
      GoesOn(cfg, n, n', t);
    }
  }

  lemma StartGood(cfg: Config, good: Net -> bool, n: Net)
    requires Checked(cfg) && n == START && forall k {:trigger Clean(cfg, k)} :: good(k) == Clean(cfg, k)
    ensures good(n)
  {
    StartClean(cfg, n);
  }

  lemma RunGood(cfg: Config, trace: seq<Net>, turns: seq<Turn>, good: Net -> bool, i: nat)
    requires Checked(cfg) && TextsFit(cfg.limits) && Moves(cfg, true, trace, turns) && i < |trace|
    requires forall n {:trigger Clean(cfg, n)} :: good(n) == Clean(cfg, n)
    ensures good(trace[i])
  {
    StartGood(cfg, good, trace[0]);
    CleanOn(cfg, good);
    KeptAlong(cfg, true, trace, turns, good, i);
  }

  lemma RunClean(cfg: Config, trace: seq<Net>, turns: seq<Turn>, i: nat)
    requires Checked(cfg) && TextsFit(cfg.limits) && Moves(cfg, true, trace, turns) && i < |trace|
    ensures Clean(cfg, trace[i])
  {
    RunGood(cfg, trace, turns, n => Clean(cfg, n), i);
  }

  lemma GoesOn(cfg: Config, n: Net, n': Net, t: Turn)
    requires Checked(cfg) && TextsFit(cfg.limits) && May(cfg, true, n, n', t) && Clean(cfg, n)
    ensures Clean(cfg, n')
  {
    StaysSound(cfg, n, n', t);
    SoundLive(Raised(cfg), n);
    InvSwap(Raised(cfg), n);
    SoundLive(Raised(cfg), Swap(n));
    StepTidy(cfg, n, n', t);
  }

  lemma StaysSound(cfg: Config, n: Net, n': Net, t: Turn)
    requires Checked(cfg) && Step(cfg, n, n', t) && !Spoils(t.move) && Sound(Raised(cfg), n)
    ensures Sound(Raised(cfg), n')
  {
    RaisedFit(cfg);
    StepRaised(cfg, n, n', t);
    SoundStep(Raised(cfg), n, n', t);
  }

  lemma SafeLowered(cfg: Config, n: Net)
    requires SafeHere(Raised(cfg), n) && Told(cfg, n.rl)
    ensures SafeHere(cfg, n)
  {
    if n.rl != [] {
      forall luck ensures Route(Raised(cfg), n.l, n.rl[0], luck) == Route(cfg, n.l, n.rl[0], luck) {
        RouteRaised(cfg, n.l, n.rl[0], luck);
      }
    }
    if n.l.dispatch != [] && n.l.dispatch[0].Open? {
      forall d | VerdictOk(cfg, d) ensures Admit(cfg, n.l, d).Ok? {
        AdmitRaised(cfg, n.l, d);
        assert VerdictOk(Raised(cfg), d);
      }
    }
  }

  /**
   Within the limits of a valid configuration whose texts fit, no disciplined run without closes and
   abandoned calls leads to a protocol error.
   */
  lemma SafeWithin(cfg: Config, trace: seq<Net>, turns: seq<Turn>, n: Net)
    requires Checked(cfg) && TextsFit(cfg.limits) && RunsTo(cfg, true, trace, turns, n)
    ensures SafeHere(cfg, n) && SafeHere(cfg, Swap(n))
  {
    RunMoves(cfg, true, trace, turns, n);
    RunClean(cfg, trace, turns, |turns|);
    RaisedFit(cfg);
    SafeLeft(Raised(cfg), n);
    InvSwap(Raised(cfg), n);
    SafeLeft(Raised(cfg), Swap(n));
    SafeLowered(cfg, n);
    SafeLowered(cfg, Swap(n));
  }
}
