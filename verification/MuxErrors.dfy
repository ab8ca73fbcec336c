/** When an envelope of an honest peer can be a protocol error: only if its channel pair was spoiled. */
module MuxErrors {
  import opened Types
  import opened SessionConfig
  import opened Envelope
  import opened Channel
  import opened Endpoint
  import opened Flight
  import opened Direction
  import opened PairEvents
  import opened Network
  import opened Links
  import opened Mates
  import opened Traffic
  import opened Receiving
  import opened Parting
  import opened Greeting
  import opened Incoming
  import opened MuxSafety

  /**
   Envelope m from y concerns a channel pair that an application spoiled: it closed one of the ends,
   abandoned the open, or abandoned a request; or m answers a global request that was abandoned.
   */
  ghost predicate Blamed(x: Endpoint, y: Endpoint, m: Msg) {
    || (Addressed(m) && m.to < |x.chans| && exists o: nat :: Speaks(y, o, m.to) && (x.chans[m.to].spoiled || y.chans[o].spoiled))
    || (m.GlobalReply? && m.id in x.forsaken)
    || ((m.OpenOk? || m.OpenReject?) && m.opener < |x.chans| && x.chans[m.opener].spoiled)
  }

  /** Where an envelope for an open channel finds it. */
  ghost predicate Welcome(x: Endpoint, y: Endpoint, c: nat, o: nat) {
    && InTable(x, c) && x.chans[c].state.AllowsRequests() && x.chans[c].peer == Some(o) && Mated(x, y, c, o)
  }

  lemma MeetsOpener(x: Endpoint, y: Endpoint, c: nat, o: nat)
    requires MatesOk(x, y) && MatesOk(y, x) && Speaks(y, o, c) && c < |x.chans| && ChanOk(x.chans[c])
    requires !x.chans[c].spoiled && !y.chans[o].spoiled && x.chans[c].peer.Some?
    ensures Welcome(x, y, c, o)
  {
    assert MateOk(y, x, o);
    assert MateOk(x, y, c);
  }

  /** An accepted opener never sees traffic before the answer to its open. */
  lemma NotBefore(x: Endpoint, y: Endpoint, yx: seq<Msg>, g: seq<Msg>, c: nat, o: nat, m: Msg)
    requires MatesOk(y, x) && GreetingsOk(y, x, yx) && yx != [] && m == yx[0] && Has(m, For(c)) && Speaks(y, o, c)
    requires c < |x.chans| && ChanOk(x.chans[c]) && !x.chans[c].spoiled
    ensures x.chans[c].peer.Some?
  {
    assert MateOk(y, x, o);
    assert !OpenFirst(yx, c);
  }

  lemma TrafficMeets(cfg: Config, x: Endpoint, y: Endpoint, yx: seq<Msg>, f: seq<Msg>, g: seq<Msg>, g': seq<Msg>, m: Msg) returns (o: nat)
    requires EndpointOk(cfg, x) && MatesOk(x, y) && LinksOk(y, x, yx, g, f) && yx != [] && m == yx[0] && Popped(g, g', m)
    requires Addressed(m) && !Blamed(x, y, m)
    ensures Welcome(x, y, m.to, o) && Speaks(y, o, m.to)
  {
    HeadFor(g, g', m);
    o :| Speaks(y, o, m.to);
    assert MateOk(y, x, o);
    assert ChanOk(x.chans[m.to]);
    NotBefore(x, y, yx, g, m.to, o, m);
    MeetsOpener(x, y, m.to, o);
  }

  // ----- each kind of envelope

  const PLENTY := Luck(true, true, true)

  lemma DataWelcome(cfg: Config, x: Endpoint, y: Endpoint, f: seq<Msg>, g: seq<Msg>, g': seq<Msg>, c: nat, o: nat, m: Msg)
    requires PairsOk(cfg, x, y, f, g) && Welcome(x, y, c, o) && Popped(g, g', m) && m.Data? && m.to == c
    ensures AcceptsData(x.chans[c], m.data)
  {
    var v, w := Views(cfg, x, y, f, g, c, o);
    PopAt(g, g', m, c);
    DataPopped(x.chans[c], y.chans[o], x.chans[c], c, o, f, g, g', m);
    Arriving(cfg, v, w, m.data, Stream(g', c));
  }

  lemma AdjustWelcome(cfg: Config, x: Endpoint, y: Endpoint, f: seq<Msg>, g: seq<Msg>, g': seq<Msg>, c: nat, o: nat, m: Msg)
    requires Checked(cfg) && PairsOk(cfg, x, y, f, g) && Welcome(x, y, c, o) && Popped(g, g', m) && m.Adjust? && m.to == c
    ensures AcceptsAdjust(x.chans[c], m.bytes)
  {
    var v, w := Views(cfg, x, y, f, g, c, o);
    PopAt(g, g', m, c);
    AdjustShift(g, g', m, c);
    Crediting(cfg, v, w, m.bytes);
  }

  lemma EofWelcome(cfg: Config, x: Endpoint, y: Endpoint, f: seq<Msg>, g: seq<Msg>, g': seq<Msg>, c: nat, o: nat, m: Msg)
    requires PairsOk(cfg, x, y, f, g) && Welcome(x, y, c, o) && Popped(g, g', m) && m.Eof? && m.to == c
    ensures x.chans[c].state.CanReceiveData()
  {
    var v, w := Views(cfg, x, y, f, g, c, o);
    PopAt(g, g', m, c);
    EofPopped(x.chans[c], y.chans[o], x.chans[c], c, o, f, g, g', m);
    EndArriving(cfg, v, w, Stream(g', c));
  }

  lemma RequestWelcome(cfg: Config, x: Endpoint, y: Endpoint, f: seq<Msg>, g: seq<Msg>, g': seq<Msg>, c: nat, o: nat, m: Msg)
    requires PairsOk(cfg, x, y, f, g) && Welcome(x, y, c, o) && Popped(g, g', m) && m.Request? && m.to == c
    ensures m.want ==> m.id !in x.chans[c].incoming
  {
    var v, w := Views(cfg, x, y, f, g, c, o);
    PopAt(g, g', m, c);
    RequestShift(g, g', m, c);
    Noting(cfg, v, w, m.id, m.want, Asks(g', Some(c)), Some(m));
  }

  lemma ReplyWelcome(cfg: Config, x: Endpoint, y: Endpoint, f: seq<Msg>, g: seq<Msg>, g': seq<Msg>, c: nat, o: nat, m: Msg)
    requires PairsOk(cfg, x, y, f, g) && Welcome(x, y, c, o) && Popped(g, g', m) && m.Reply? && m.to == c
    ensures m.id in x.chans[c].pending
  {
    var v, w := Views(cfg, x, y, f, g, c, o);
    PopAt(g, g', m, c);
    ReplyPopped(x.chans[c], y.chans[o], x.chans[c], c, o, f, g, g', m);
    KeepReplyArrives(v, m.id, Replies(g', Some(c)));
  }

  /** No channel has this peer, so the peer table does not have it either. */
  lemma Unlisted(e: Endpoint, s: nat)
    requires PeersOk(e) && CountPeer(e.chans, s) == 0
    ensures s !in e.peers
  {
    if s in e.peers {
      PeerFound(e.chans, e.peers[s], s);
    }
  }

  lemma GlobalWelcome(x: Endpoint, y: Endpoint, f: seq<Msg>, g: seq<Msg>, g': seq<Msg>, m: Msg)
    requires GlobalsOk(y, x, g, f) && Popped(g, g', m) && m.GlobalRequest?
    ensures m.want ==> m.id !in x.incomingGlobal
  {
    GlobalPopped(g, g', m);
    if m.want {
      assert m.id in Asks(g, None);
    }
  }

  lemma AddressedSafe(cfg: Config, x: Endpoint, y: Endpoint, xy: seq<Msg>, yx: seq<Msg>, f: seq<Msg>, g: seq<Msg>, g': seq<Msg>, m: Msg, luck: Luck)
    requires Fit(cfg) && InvAt(cfg, x, y, xy, yx, f, g) && yx != [] && m == yx[0] && Popped(g, g', m)
    requires Addressed(m) && !Blamed(x, y, m) && !m.Close?
    ensures !Route(cfg, x, m, luck).ProtocolError? && Route(cfg, x, m, PLENTY).Ok?
  {
    var o := TrafficMeets(cfg, x, y, yx, f, g, g', m);
    assert StaticOk(cfg, m);
    match m
    case Data(c, _) => DataWelcome(cfg, x, y, f, g, g', c, o, m);
    case Adjust(c, _) => AdjustWelcome(cfg, x, y, f, g, g', c, o, m);
    case Eof(c) => EofWelcome(cfg, x, y, f, g, g', c, o, m);
    case Request(c, _, _, _, _) => RequestWelcome(cfg, x, y, f, g, g', c, o, m);
    case Reply(c, _, _) => ReplyWelcome(cfg, x, y, f, g, g', c, o, m);
  }

  /** A close of an honest peer is always blamed on somebody. */
  lemma CloseBlamed(cfg: Config, x: Endpoint, y: Endpoint, yx: seq<Msg>, f: seq<Msg>, g: seq<Msg>, g': seq<Msg>, m: Msg)
    requires EndpointOk(cfg, x) && LinksOk(y, x, yx, g, f) && Popped(g, g', m) && m.Close?
    ensures Blamed(x, y, m)
  {
    HeadFor(g, g', m);
    var o: nat :| Speaks(y, o, m.to);
    assert MateOk(y, x, o);
  }

  lemma AnswerSafe(cfg: Config, x: Endpoint, y: Endpoint, xy: seq<Msg>, yx: seq<Msg>, f: seq<Msg>, g: seq<Msg>, g': seq<Msg>, m: Msg, luck: Luck)
    requires Fit(cfg) && InvAt(cfg, x, y, xy, yx, f, g) && yx != [] && m == yx[0] && Popped(g, g', m)
    requires (m.OpenOk? || m.OpenReject?) && !Blamed(x, y, m)
    ensures Route(cfg, x, m, luck).Ok?
  {
    AnswerDue(x, y, xy, f, g, g', m.opener, m);
    assert StaticOk(cfg, m) && ChanOk(x.chans[m.opener]);
    if m.OpenOk? {
      GrantFacts(cfg, x, y, yx, f, g, g', m);
      Unlisted(x, m.sender);
    }
  }

  lemma OpenSafe(cfg: Config, x: Endpoint, y: Endpoint, xy: seq<Msg>, yx: seq<Msg>, f: seq<Msg>, g: seq<Msg>, g': seq<Msg>, m: Msg, luck: Luck)
    requires Fit(cfg) && InvAt(cfg, x, y, xy, yx, f, g) && yx != [] && m == yx[0] && Popped(g, g', m) && m.Open?
    ensures !Route(cfg, x, m, luck).ProtocolError? && (|x.chans| < MAX_U64 ==> Route(cfg, x, m, PLENTY).Ok?)
  {
    OpenFacts(cfg, x, y, yx, f, g, g', m);
    Unlisted(x, m.sender);
    assert StaticOk(cfg, m);
  }

  lemma GlobalSafe(cfg: Config, x: Endpoint, y: Endpoint, xy: seq<Msg>, yx: seq<Msg>, f: seq<Msg>, g: seq<Msg>, g': seq<Msg>, m: Msg, luck: Luck)
    requires Fit(cfg) && InvAt(cfg, x, y, xy, yx, f, g) && yx != [] && m == yx[0] && Popped(g, g', m) && (m.GlobalRequest? || m.GlobalReply?) && !Blamed(x, y, m)
    ensures !Route(cfg, x, m, luck).ProtocolError? && Route(cfg, x, m, PLENTY).Ok?
  {
    assert StaticOk(cfg, m);
    if m.GlobalRequest? {
      GlobalWelcome(x, y, f, g, g', m);
    } else {
      ReplyOwed(x, y, f, g, g', m);
    }
  }

  /**
   The next envelope on the wire is a protocol error only if its channel pair was spoiled. If not, and
   no limit stands in the way, it is handled.
   */
  lemma RouteSafe(cfg: Config, n: Net, luck: Luck)
    requires Fit(cfg) && Inv(cfg, n) && n.rl != [] && !Blamed(n.l, n.r, n.rl[0])
    ensures !Route(cfg, n.l, n.rl[0], luck).ProtocolError?
    ensures |n.l.chans| < MAX_U64 ==> Route(cfg, n.l, n.rl[0], PLENTY).Ok?
  {
    var m, f, g, g' := n.rl[0], Fly(n.l, n.lr), Fly(n.r, n.rl), Fly(n.r, n.rl[1..]);
    WirePops(n.r, n.rl);
    assert m in g && StaticOk(cfg, m);
    if Addressed(m) {
      if m.Close? {
        CloseBlamed(cfg, n.l, n.r, n.rl, f, g, g', m);
      } else {
        AddressedSafe(cfg, n.l, n.r, n.lr, n.rl, f, g, g', m, luck);
      }
    } else if m.OpenOk? || m.OpenReject? {
      AnswerSafe(cfg, n.l, n.r, n.lr, n.rl, f, g, g', m, luck);
      AnswerSafe(cfg, n.l, n.r, n.lr, n.rl, f, g, g', m, PLENTY);
    } else if m.Open? {
      OpenSafe(cfg, n.l, n.r, n.lr, n.rl, f, g, g', m, luck);
    } else if m.GlobalRequest? || m.GlobalReply? {
      GlobalSafe(cfg, n.l, n.r, n.lr, n.rl, f, g, g', m, luck);
    }
  }

  // ----- runs in which nobody closes or gives up

  predicate Spoils(mv: Move) {
    mv.Local? && (mv.a.CloseChannel? || mv.a.AbandonOpen? || mv.a.AbandonRequest? || mv.a.AbandonGlobal?)
  }

  predicate Unspoiled(e: Endpoint) {
    e.forsaken == {} && forall c :: 0 <= c < |e.chans| ==> !e.chans[c].spoiled
  }

  lemma LocalUnspoiled(cfg: Config, e: Endpoint, a: Action)
    requires Unspoiled(e) && Enabled(cfg, e, a) && !Spoils(Local(a))
    ensures Unspoiled(Next(cfg, e, a))
  {
  }

  lemma RouteUnspoiled(cfg: Config, e: Endpoint, m: Msg, luck: Luck)
    requires Unspoiled(e) && Route(cfg, e, m, luck).Ok?
    ensures Unspoiled(Route(cfg, e, m, luck).next)
  {
  }

  lemma AdmitUnspoiled(cfg: Config, e: Endpoint, d: Verdict)
    requires Unspoiled(e) && e.dispatch != [] && e.dispatch[0].Open? && Admit(cfg, e, d).Ok?
    ensures Unspoiled(Admit(cfg, e, d).next)
  {
  }

  lemma StepUnspoiled(cfg: Config, n: Net, n': Net, t: Turn)
    requires Unspoiled(n.l) && Unspoiled(n.r) && Step(cfg, n, n', t) && !Spoils(t.move)
    ensures Unspoiled(n'.l) && Unspoiled(n'.r)
  {
    var x := if t.left then n.l else n.r;
    match t.move
    case Local(a) => LocalUnspoiled(cfg, x, a);
    case Admission(d) => AdmitUnspoiled(cfg, x, d);
    case Receive(luck) => RouteUnspoiled(cfg, x, if t.left then n.rl[0] else n.lr[0], luck);
  }

  lemma {:induction false} RunUnspoiled(cfg: Config, trace: seq<Net>, turns: seq<Turn>, i: nat)
    requires Run(cfg, trace, turns) && i < |trace| && forall j :: 0 <= j < i ==> !Spoils(turns[j].move)
    ensures Unspoiled(trace[i].l) && Unspoiled(trace[i].r)
  {
    if i > 0 {
      RunUnspoiled(cfg, trace, turns, i - 1);
      StepUnspoiled(cfg, trace[i - 1], trace[i], turns[i - 1]);
    }
  }

  /** Nothing the left endpoint can meet next is a protocol error. */
  ghost predicate SafeHere(cfg: Config, n: Net) {
    && (n.rl != [] ==> forall luck :: !Route(cfg, n.l, n.rl[0], luck).ProtocolError?)
    && (n.rl != [] && |n.l.chans| < MAX_U64 ==> Route(cfg, n.l, n.rl[0], PLENTY).Ok?)
    && (n.l.dispatch != [] && n.l.dispatch[0].Open? ==> forall d :: VerdictOk(cfg, d) ==> Admit(cfg, n.l, d).Ok?)
  }

  lemma SafeLeft(cfg: Config, n: Net)
    requires Fit(cfg) && Inv(cfg, n) && Unspoiled(n.l) && Unspoiled(n.r)
    ensures SafeHere(cfg, n)
  {
    if n.rl != [] {
      forall luck ensures !Route(cfg, n.l, n.rl[0], luck).ProtocolError? {
        RouteSafe(cfg, n, luck);
      }
      RouteSafe(cfg, n, PLENTY);
    }
    if n.l.dispatch != [] && n.l.dispatch[0].Open? {
      forall d | VerdictOk(cfg, d) ensures Admit(cfg, n.l, d).Ok? {
        AdmissionKeeps(cfg, n, d);
      }
    }
  }

  /**
   Two endpoints that share a configuration, in a run in which no application closes a channel or
   abandons an open or a request, never make each other report a protocol error.
   */
  lemma NoProtocolError(cfg: Config, trace: seq<Net>, turns: seq<Turn>, i: nat)
    requires Fit(cfg) && Run(cfg, trace, turns) && i < |trace| && forall j :: 0 <= j < i ==> !Spoils(turns[j].move)
    ensures SafeHere(cfg, trace[i]) && SafeHere(cfg, Swap(trace[i]))
  {
    RunKeeps(cfg, trace, turns, i);
    RunUnspoiled(cfg, trace, turns, i);
    SafeLeft(cfg, trace[i]);
    InvSwap(cfg, trace[i]);
    SafeLeft(cfg, Swap(trace[i]));
  }
}
