/**
 A busy endpoint: its own application fills the outbound queue, so the next request of its peer finds
 no room and is refused; the refusal goes out once the writer has made way for it.
 */
module Flood {
  import opened Types
  import opened SessionConfig
  import opened Protobuf
  import opened Envelope
  import opened Channel
  import opened Endpoint
  import opened Network
  import opened MuxErrors
  import opened LateSend
  import opened Budget
  import opened Texts
  import opened Witness
  import opened Refusals

  // ----- how much of its own traffic fits

  /** The j-th global request of the flood; the first may carry one byte. */
  function Filler(j: nat, b: nat): Msg {
    GlobalRequest(j, TYPE, false, if j == 0 then Zeros(b) else [])
  }

  function Fillers(k: nat, b: nat): seq<Msg> {
    if k == 0 then [] else Fillers(k - 1, b) + [Filler(k - 1, b)]
  }

  function Writes(ms: seq<Msg>): seq<Write> {
    seq(|ms|, i requires 0 <= i < |ms| => Write(ms[i], None, false))
  }

  function Weight(k: nat, b: nat): nat {
    if k == 0 then 0 else Weight(k - 1, b) + Size(Filler(k - 1, b))
  }

  lemma FillerSize(j: nat, b: nat)
    requires j < 65536 && b <= 1
    ensures Body(Filler(j, b)) == NumberSize(j) + 3 + (if j == 0 then 3 * b else 0)
    ensures Size(Filler(j, b)) == Body(Filler(j, b)) + 2 && 5 <= Size(Filler(j, b)) <= 9
  {
    assert TextSize(|TYPE|) == 3 && |Zeros(b)| == b && TextSize(b) == 3 * b;
    if j > 0 {
      VarintGrows(j, 65535);
      assert VarintSize(65535) == 3;
    }
    SmallMessage(Body(Filler(j, b)));
  }

  lemma {:induction false} WeightShift(k: nat)
    requires 0 < k <= 65536
    ensures Weight(k, 1) == Weight(k, 0) + 3
  {
    FillerSize(k - 1, 0);
    FillerSize(k - 1, 1);
    if k > 1 {
      WeightShift(k - 1);
    } else {
      assert Weight(1, 1) == Size(Filler(0, 1)) && Weight(1, 0) == Size(Filler(0, 0));
    }
  }

  lemma {:induction false} WeightGrows(j: nat, k: nat, b: nat)
    requires j <= k
    ensures Weight(j, b) <= Weight(k, b)
  {
    if j < k {
      WeightGrows(j, k - 1, b);
    }
  }

  /** The flood has taken all frames of the budget, or all but seven bytes of it. */
  predicate FilledUp(l: Limits, k: nat, b: nat) {
    && b <= 1 && k <= l.maxQueuedFramesTotal && Weight(k, b) <= l.maxQueuedBytesTotal
    && (k == l.maxQueuedFramesTotal || Weight(k, b) + 8 > l.maxQueuedBytesTotal)
  }

  lemma {:induction false} FillUp(l: Limits, k: nat) returns (k': nat, b: nat)
    requires LimitsChecked(l) && l.maxQueuedBytesTotal >= 9 && k <= l.maxQueuedFramesTotal && Weight(k, 0) <= l.maxQueuedBytesTotal
    ensures FilledUp(l, k', b)
    decreases l.maxQueuedFramesTotal - k
  {
    if k == l.maxQueuedFramesTotal {
      k', b := k, 0;
    } else {
      FillerSize(k, 0);
      if Weight(k + 1, 0) <= l.maxQueuedBytesTotal {
        k', b := FillUp(l, k + 1);
      } else if Weight(k, 0) + 8 > l.maxQueuedBytesTotal {
        k', b := k, 0;
      } else {
        WeightShift(k);
        k', b := k, 1;
      }
    }
  }

  // ----- the weight of queues

  lemma {:induction false} OutAppend(out: seq<Write>, w: Write)
    ensures OutBytes(out + [w]) == OutBytes(out) + Size(w.msg)
  {
    if out == [] {
      assert out + [w] == [w];
      OneWrite(w);
    } else {
      assert (out + [w])[1..] == out[1..] + [w];
      OutAppend(out[1..], w);
    }
  }

  lemma {:induction false} OutSuffix(out: seq<Write>, j: nat)
    requires j <= |out|
    ensures OutBytes(out[j..]) <= OutBytes(out)
  {
    if j == 0 {
      assert out[j..] == out;
    } else {
      assert out[j..] == out[1..][j - 1..];
      OutSuffix(out[1..], j - 1);
    }
  }

  lemma WritesAppend(ms: seq<Msg>, m: Msg)
    ensures Writes(ms + [m]) == Writes(ms) + [Write(m, None, false)]
  {
  }

  lemma {:induction false} FillersWeigh(k: nat, b: nat)
    ensures |Fillers(k, b)| == k && OutBytes(Writes(Fillers(k, b))) == Weight(k, b)
  {
    if k == 0 {
      assert Writes([]) == [];
    } else {
      FillersWeigh(k - 1, b);
      WritesAppend(Fillers(k - 1, b), Filler(k - 1, b));
      OutAppend(Writes(Fillers(k - 1, b)), Write(Filler(k - 1, b), None, false));
    }
  }

  lemma {:induction false} FillerAt(k: nat, b: nat, i: nat)
    requires i < k
    ensures |Fillers(k, b)| == k && Fillers(k, b)[i] == Filler(i, b)
  {
    if k > 1 && i < k - 1 {
      FillerAt(k - 1, b, i);
    }
    FillersWeigh(k - 1, b);
  }

  // ----- the flood

  /** The right end with some of its own requests queued and k ids spent. */
  function Flooded(r: Endpoint, k: nat, out: seq<Write>): Endpoint {
    r.(nextGlobal := k, out := out)
  }

  lemma FloodedWithin(l: Limits, r: Endpoint, k: nat, b: nat, j: nat, out: seq<Write>)
    requires LimitsChecked(l) && Idle(r) && Within(l, r) && FilledUp(l, k, b) && j <= k
    requires |out| <= k && OutBytes(out) <= Weight(k, b)
    ensures Within(l, Flooded(r, j, out))
  {
    Carrying(l, r, Flooded(r, j, out));
  }

  lemma Pours(cfg: Config, l: Endpoint, r: Endpoint, m: Msg, j: nat, b: nat)
    requires Checked(cfg) && j < 65536 && b <= 1 && r.ctrl == []
    requires Reached(cfg, true, Net(l, Flooded(r, j, Writes(Fillers(j, b))), [m], []))
    requires Within(cfg.limits, Flooded(r, j + 1, Writes(Fillers(j + 1, b))))
    ensures Reached(cfg, true, Net(l, Flooded(r, j + 1, Writes(Fillers(j + 1, b))), [m], []))
  {
    var n := Net(l, Flooded(r, j, Writes(Fillers(j, b))), [m], []);
    var n' := Net(l, Flooded(r, j + 1, Writes(Fillers(j + 1, b))), [m], []);
    WritesAppend(Fillers(j, b), Filler(j, b));
    assert |Zeros(b)| == b;
    ReachLocal(cfg, true, n, n', false, SendGlobal(TYPE, Filler(j, b).payload, false));
  }

  lemma {:induction false} Floods(cfg: Config, l: Endpoint, r: Endpoint, m: Msg, k: nat, b: nat, j: nat)
    requires Checked(cfg) && Idle(r) && Within(cfg.limits, r) && r.nextGlobal == 0 && FilledUp(cfg.limits, k, b) && j <= k
    requires Reached(cfg, true, Net(l, r, [m], []))
    ensures Reached(cfg, true, Net(l, Flooded(r, j, Writes(Fillers(j, b))), [m], []))
  {
    if j == 0 {
      assert Flooded(r, 0, Writes(Fillers(0, b))) == r;
    } else {
      Floods(cfg, l, r, m, k, b, j - 1);
      FillersWeigh(j, b);
      WeightGrows(j, k, b);
      FloodedWithin(cfg.limits, r, k, b, j, Writes(Fillers(j, b)));
      Pours(cfg, l, r, m, j - 1, b);
    }
  }

  // ----- no room for the peer's request

  const REFUSE := Luck(true, false, true)

  /** m, of 8 bytes or more, on top of the flood is too much. */
  lemma TooMuch(l: Limits, e: Endpoint, e': Endpoint, k: nat, b: nat, m: Msg)
    requires FilledUp(l, k, b) && Body(m) >= 8 && e.out == Writes(Fillers(k, b)) && e'.out == e.out
    requires UsedFrames(e') >= |e'.out| + 1 && UsedBytes(e') >= OutBytes(e'.out) + Body(m)
    ensures !QueuesWithin(l, e')
  {
    FillersWeigh(k, b);
  }

  lemma CrowdedGlobal(cfg: Config, r: Endpoint, k: nat, b: nat, m: Msg)
    requires FilledUp(cfg.limits, k, b) && m.GlobalRequest? && TypeOk(cfg, m.typ, m.payload) && m.id !in r.incomingGlobal && Body(m) >= 8
    requires r.dispatch == []
    ensures Overfull(cfg, Flooded(r, k, Writes(Fillers(k, b))), m, REFUSE)
  {
    var e := Flooded(r, k, Writes(Fillers(k, b)));
    var e' := Route(cfg, e, m, PLENTY).next;
    assert e'.dispatch == [m];
    OneTask(m);
    TooMuch(cfg.limits, e, e', k, b, m);
  }

  lemma CrowdedOpen(cfg: Config, r: Endpoint, k: nat, b: nat, m: Msg)
    requires Checked(cfg) && FilledUp(cfg.limits, k, b) && m.Open? && TypeOk(cfg, m.typ, m.payload) && Body(m) >= 8
    requires r.dispatch == [] && r.chans == [] && r.peers == map[]
    ensures Overfull(cfg, Flooded(r, k, Writes(Fillers(k, b))), m, REFUSE)
  {
    var e := Flooded(r, k, Writes(Fillers(k, b)));
    var e' := Route(cfg, e, m, PLENTY).next;
    assert e'.dispatch == [m] && e'.chans == [NewIncoming(cfg, m, Pending)];
    OneTask(m);
    OneLoad(NewIncoming(cfg, m, Pending));
    TooMuch(cfg.limits, e, e', k, b, m);
  }

  lemma CrowdedRequest(cfg: Config, ch: Chan, k: nat, b: nat, m: Msg)
    requires FilledUp(cfg.limits, k, b) && m.Request? && m.want && TypeOk(cfg, m.typ, m.payload) && Body(m) >= 8 && m.to == 0
    requires ch.slot != NoSlot && ch.state.AllowsRequests() && !ch.discarded && ch.events == [] && m.id !in ch.incoming
    ensures Overfull(cfg, Flooded(Holding(ch), k, Writes(Fillers(k, b))), m, REFUSE)
  {
    var e := Flooded(Holding(ch), k, Writes(Fillers(k, b)));
    var e' := Route(cfg, e, m, PLENTY).next;
    var busy := e'.chans[0];
    assert busy.events == [RequestEvent(m.id, m.want, m)] && busy.events[1..] == [] && e'.chans == [busy];
    assert EventBytes(busy.events) == EventSize(busy.events[0]) == Body(m);
    OneLoad(busy);
    TooMuch(cfg.limits, e, e', k, b, m);
  }

  // ----- the writer makes way

  function Draining(l: Endpoint, r: Endpoint, k: nat, b: nat, j: nat, m: Msg): Net
    requires j <= |Fillers(k, b)|
  {
    Net(l, Flooded(r, k, Writes(Fillers(k, b))[j..]), [m], Fillers(k, b)[..j])
  }

  lemma Drains(cfg: Config, l: Endpoint, r: Endpoint, k: nat, b: nat, j: nat, m: Msg)
    requires Checked(cfg) && r.ctrl == [] && j < |Fillers(k, b)| && Facing(cfg, true, Draining(l, r, k, b, j, m), false, m, REFUSE)
    requires Fillers(k, b)[j].GlobalRequest? && Within(cfg.limits, Draining(l, r, k, b, j + 1, m).r)
    ensures Facing(cfg, true, Draining(l, r, k, b, j + 1, m), false, m, REFUSE)
  {
    var fs := Fillers(k, b);
    var n, n' := Draining(l, r, k, b, j, m), Draining(l, r, k, b, j + 1, m);
    assert n.r.out[0] == Write(fs[j], None, false) && n.r.out[1..] == Writes(fs)[j + 1..];
    assert fs[..j] + [fs[j]] == fs[..j + 1];
    FaceLocal(cfg, true, n, n', false, WriteOutbound, m, REFUSE);
  }

  lemma {:induction false} DrainsAll(cfg: Config, l: Endpoint, r: Endpoint, k: nat, b: nat, j: nat, m: Msg)
    requires Checked(cfg) && Idle(r) && Within(cfg.limits, r) && FilledUp(cfg.limits, k, b)
    requires |Fillers(k, b)| == k && j <= k && Facing(cfg, true, Draining(l, r, k, b, 0, m), false, m, REFUSE)
    ensures Facing(cfg, true, Draining(l, r, k, b, j, m), false, m, REFUSE)
  {
    if j > 0 {
      DrainsAll(cfg, l, r, k, b, j - 1, m);
      FillerAt(k, b, j - 1);
      FillersWeigh(k, b);
      OutSuffix(Writes(Fillers(k, b)), j);
      FloodedWithin(cfg.limits, r, k, b, k, Writes(Fillers(k, b))[j..]);
      Drains(cfg, l, r, k, b, j - 1, m);
    }
  }

  lemma Refuses(cfg: Config, l: Endpoint, r: Endpoint, k: nat, fs: seq<Msg>, m: Msg, after: Endpoint, no: Msg)
    requires Checked(cfg) && Facing(cfg, true, Net(l, Flooded(r, k, []), [m], fs), false, m, REFUSE)
    requires Route(cfg, Flooded(r, k, []), m, REFUSE) == Ok(after.(ctrl := [no])) && Within(cfg.limits, after.(ctrl := [no]))
    ensures Reached(cfg, true, Net(l, after.(ctrl := [no]), [], fs))
  {
    var n := Net(l, Flooded(r, k, []), [m], fs);
    FaceRefusal(cfg, true, n, Net(l, after.(ctrl := [no]), [], fs), false, m, REFUSE);
  }

  lemma Answers(cfg: Config, l: Endpoint, after: Endpoint, fs: seq<Msg>, no: Msg)
    requires Checked(cfg) && after.ctrl == [] && Within(cfg.limits, after) && Reached(cfg, true, Net(l, after.(ctrl := [no]), [], fs))
    ensures Reached(cfg, true, Net(l, after, [], fs + [no]))
  {
    ReachLocal(cfg, true, Net(l, after.(ctrl := [no]), [], fs), Net(l, after, [], fs + [no]), false, WriteControl);
  }

  // ----- the peer works through the flood

  lemma Hears(cfg: Config, l: Endpoint, r: Endpoint, f: Msg, rest: seq<Msg>)
    requires Checked(cfg) && f.GlobalRequest? && !f.want && TypeOk(cfg, f.typ, f.payload) && l.dispatch == []
    requires Within(cfg.limits, l.(dispatch := [f])) && Reached(cfg, true, Net(l, r, [], [f] + rest))
    ensures Reached(cfg, true, Net(l.(dispatch := [f]), r, [], rest))
  {
    ReachReceive(cfg, true, Net(l, r, [], [f] + rest), Net(l.(dispatch := [f]), r, [], rest), true);
  }

  lemma Handles(cfg: Config, l: Endpoint, r: Endpoint, f: Msg, rest: seq<Msg>)
    requires Checked(cfg) && f.GlobalRequest? && !f.want && l.dispatch == [] && Within(cfg.limits, l)
    requires Reached(cfg, true, Net(l.(dispatch := [f]), r, [], rest))
    ensures Reached(cfg, true, Net(l, r, [], rest))
  {
    ReachLocal(cfg, true, Net(l.(dispatch := [f]), r, [], rest), Net(l, r, [], rest), true, HandleGlobal(Granted([])));
  }

  lemma HearsOne(cfg: Config, l: Endpoint, r: Endpoint, j: nat, b: nat, rest: seq<Msg>)
    requires Checked(cfg) && Idle(l) && Within(cfg.limits, l) && j < 65536 && b <= 1 && cfg.limits.maxQueuedBytesTotal >= 9
    requires Reached(cfg, true, Net(l, r, [], [Filler(j, b)] + rest))
    ensures Reached(cfg, true, Net(l.(dispatch := [Filler(j, b)]), r, [], rest))
  {
    FillerSize(j, b);
    assert |Zeros(b)| == b;
    CarriesOne(cfg.limits, l, Filler(j, b), None);
    Hears(cfg, l, r, Filler(j, b), rest);
  }

  lemma {:induction false} WorksThrough(cfg: Config, l: Endpoint, r: Endpoint, k: nat, b: nat, j: nat, no: Msg)
    requires Checked(cfg) && Idle(l) && Within(cfg.limits, l) && FilledUp(cfg.limits, k, b) && cfg.limits.maxQueuedBytesTotal >= 9
    requires |Fillers(k, b)| == k && j <= k && Reached(cfg, true, Net(l, r, [], Fillers(k, b) + [no]))
    ensures Reached(cfg, true, Net(l, r, [], Fillers(k, b)[j..] + [no]))
  {
    var fs := Fillers(k, b);
    if j == 0 {
      assert fs[0..] == fs;
    } else {
      WorksThrough(cfg, l, r, k, b, j - 1, no);
      FillerAt(k, b, j - 1);
      assert fs[j - 1..] + [no] == [Filler(j - 1, b)] + (fs[j..] + [no]);
      HearsOne(cfg, l, r, j - 1, b, fs[j..] + [no]);
      Handles(cfg, l, r, Filler(j - 1, b), fs[j..] + [no]);
    }
  }

  // ----- all of it

  /** m reaches a busy right end, which meets its limits and then makes way. */
  lemma FloodFaces(cfg: Config, l: Endpoint, r: Endpoint, k: nat, b: nat, m: Msg)
    requires Checked(cfg) && Idle(r) && r.nextGlobal == 0 && FilledUp(cfg.limits, k, b) && Reached(cfg, true, Net(l, r, [m], []))
    requires Overfull(cfg, Flooded(r, k, Writes(Fillers(k, b))), m, REFUSE)
    ensures |Fillers(k, b)| == k && Facing(cfg, true, Draining(l, r, k, b, 0, m), false, m, REFUSE)
  {
    var fs := Fillers(k, b);
    ReachedWithin(cfg, true, Net(l, r, [m], []));
    Floods(cfg, l, r, m, k, b, k);
    FillersWeigh(k, b);
    assert Writes(fs)[0..] == Writes(fs) && fs[..0] == [];
    FaceNow(cfg, true, Draining(l, r, k, b, 0, m), false, m, REFUSE);
  }

  /** It refuses m with `no`. */
  lemma BusyRefuses(cfg: Config, l: Endpoint, r: Endpoint, k: nat, b: nat, m: Msg, after: Endpoint, no: Msg)
    requires Checked(cfg) && Idle(r) && r.nextGlobal == 0 && FilledUp(cfg.limits, k, b) && Reached(cfg, true, Net(l, r, [m], []))
    requires Overfull(cfg, Flooded(r, k, Writes(Fillers(k, b))), m, REFUSE)
    requires Route(cfg, Flooded(r, k, []), m, REFUSE) == Ok(after.(ctrl := [no])) && Within(cfg.limits, after.(ctrl := [no]))
    ensures Reached(cfg, true, Net(l, after.(ctrl := [no]), [], Fillers(k, b)))
  {
    var fs := Fillers(k, b);
    FloodFaces(cfg, l, r, k, b, m);
    ReachedWithin(cfg, true, Net(l, r, [m], []));
    DrainsAll(cfg, l, r, k, b, k, m);
    assert Writes(fs)[k..] == [] && fs[..k] == fs;
    Refuses(cfg, l, r, k, fs, m, after, no);
  }

  lemma RefusalHeard(cfg: Config, l: Endpoint, k: nat, b: nat, after: Endpoint, no: Msg)
    requires Checked(cfg) && Idle(l) && Within(cfg.limits, l) && FilledUp(cfg.limits, k, b) && cfg.limits.maxQueuedBytesTotal >= 9
    requires after.ctrl == [] && Within(cfg.limits, after) && Reached(cfg, true, Net(l, after.(ctrl := [no]), [], Fillers(k, b)))
    requires !TextsOk(cfg, no) && !no.Disconnect?
    ensures !SafeAlways(cfg)
  {
    Answers(cfg, l, after, Fillers(k, b), no);
    FillersWeigh(k, b);
    WorksThrough(cfg, l, after, k, b, k, no);
    assert Fillers(k, b)[k..] + [no] == [no];
    TooLong(cfg, Net(l, after, [], [no]));
  }

  /** The notice is too long for the limits, but not for the budget. */
  lemma NoticeFails(cfg: Config, no: Msg, message: string)
    requires !NoticeFits(cfg.limits, |message|) && 0 < |message| < 80 && Carries(no, LimitReject(message))
    requires match no case OpenReject(o, _) => o == 0 case Reply(t, i, _) => t == 0 && i == 0 case GlobalReply(i, _) => i == 0 case _ => false
    ensures !TextsOk(cfg, no) && Size(no) <= cfg.limits.maxQueuedBytesTotal
  {
    TextLengths();
    ShortReject(no, LimitReject(message));
  }

  lemma OpenRefusalUnsafe(cfg: Config)
    requires Checked(cfg) && !NoticeFits(cfg.limits, 27)
    ensures !SafeAlways(cfg)
  {
    var m, no := OpenMsg(cfg, [0]), OpenReject(0, LimitReject("channel queue limit reached"));
    var k, b := FillUp(cfg.limits, 0);
    TextLengths();
    NoticeFails(cfg, no, "channel queue limit reached");
    OpenSizes(cfg, [0]);
    ReachAsked(cfg, true, m);
    VarintSmall(cfg.initialWindow);
    VarintSmall(cfg.maxPacketSize);
    CrowdedOpen(cfg, INITIAL, k, b, m);
    OpenRefused(cfg, k, b, m, no);
  }

  /** The right end after it has turned the open down, with its k ids spent. */
  function TurnedAway(cfg: Config, k: nat): Endpoint {
    INITIAL.(nextGlobal := k, chans := [Fail(NewIncoming(cfg, OpenMsg(cfg, [0]), Pending))])
  }

  lemma TurnsAway(cfg: Config, k: nat, m: Msg, no: Msg)
    requires Checked(cfg) && m == OpenMsg(cfg, [0]) && no == OpenReject(0, LimitReject("channel queue limit reached"))
    requires Size(no) <= cfg.limits.maxQueuedBytesTotal
    ensures Within(cfg.limits, TurnedAway(cfg, k).(ctrl := [no])) && Within(cfg.limits, TurnedAway(cfg, k))
  {
    RoomForOne(cfg.limits, TurnedAway(cfg, k), Fail(NewIncoming(cfg, m, Pending)), no, None);
  }

  lemma TurnedAwayBy(cfg: Config, r: Endpoint, k: nat, m: Msg, no: Msg)
    requires Checked(cfg) && r == INITIAL && m == OpenMsg(cfg, [0]) && no == OpenReject(0, LimitReject("channel queue limit reached"))
    ensures Route(cfg, Flooded(r, k, []), m, REFUSE) == Ok(TurnedAway(cfg, k).(ctrl := [no]))
  {
  }

  lemma OpenRefused(cfg: Config, k: nat, b: nat, m: Msg, no: Msg)
    requires Checked(cfg) && m == OpenMsg(cfg, [0]) && no == OpenReject(0, LimitReject("channel queue limit reached"))
    requires FilledUp(cfg.limits, k, b) && Size(no) <= cfg.limits.maxQueuedBytesTotal && cfg.limits.maxQueuedBytesTotal >= 9
    requires Overfull(cfg, Flooded(INITIAL, k, Writes(Fillers(k, b))), m, REFUSE) && !TextsOk(cfg, no)
    requires Reached(cfg, true, Net(ASKING, INITIAL, [m], []))
    ensures !SafeAlways(cfg)
  {
    TurnsAway(cfg, k, m, no);
    TurnedAwayBy(cfg, INITIAL, k, m, no);
    NoneWithin(cfg.limits, INITIAL);
    CalmWithin(cfg.limits, ASKING, NewOutgoing());
    BusyRefuses(cfg, ASKING, INITIAL, k, b, m, TurnedAway(cfg, k), no);
    RefusalHeard(cfg, ASKING, k, b, TurnedAway(cfg, k), no);
  }

  lemma GlobalRefused(cfg: Config, k: nat, b: nat, m: Msg, no: Msg)
    requires Checked(cfg) && m == GlobalAsk([0]) && no == GlobalReply(0, Denied(LimitReject("global request queue limit reached")))
    requires FilledUp(cfg.limits, k, b) && Size(no) <= cfg.limits.maxQueuedBytesTotal && cfg.limits.maxQueuedBytesTotal >= 9
    requires Overfull(cfg, Flooded(INITIAL, k, Writes(Fillers(k, b))), m, REFUSE) && !TextsOk(cfg, no)
    requires Reached(cfg, true, Net(WAITING, INITIAL, [m], []))
    ensures !SafeAlways(cfg)
  {
    var after := INITIAL.(nextGlobal := k, incomingGlobal := {0});
    RoomWithNone(cfg.limits, after, no, None);
    NoneWithin(cfg.limits, INITIAL);
    NoneWithin(cfg.limits, WAITING);
    assert INITIAL.incomingGlobal + {0} == {0};
    BusyRefuses(cfg, WAITING, INITIAL, k, b, m, after, no);
    RefusalHeard(cfg, WAITING, k, b, after, no);
  }

  lemma GlobalRefusalUnsafe(cfg: Config)
    requires Checked(cfg) && !NoticeFits(cfg.limits, 34)
    ensures !SafeAlways(cfg)
  {
    var m, no := GlobalAsk([0]), GlobalReply(0, Denied(LimitReject("global request queue limit reached")));
    var k, b := FillUp(cfg.limits, 0);
    TextLengths();
    NoticeFails(cfg, no, "global request queue limit reached");
    AskSizes([0]);
    GlobalAsked(cfg, m);
    CrowdedGlobal(cfg, INITIAL, k, b, m);
    GlobalRefused(cfg, k, b, m, no);
  }

  lemma RequestRefused(cfg: Config, k: nat, b: nat, m: Msg, no: Msg)
    requires Checked(cfg) && m == RequestAsk([0]) && no == Reply(0, 0, Denied(LimitReject("channel request queue limit reached")))
    requires FilledUp(cfg.limits, k, b) && Size(no) <= cfg.limits.maxQueuedBytesTotal && cfg.limits.maxQueuedBytesTotal >= 9
    requires Overfull(cfg, Flooded(Holding(Reader(cfg, 0)), k, Writes(Fillers(k, b))), m, REFUSE) && !TextsOk(cfg, no)
    requires Reached(cfg, true, Net(Holding(Asker(cfg)), Holding(Reader(cfg, 0)), [m], []))
    ensures !SafeAlways(cfg)
  {
    var l, r, after := Holding(Asker(cfg)), Holding(Reader(cfg, 0)), Holding(Hearer(cfg)).(nextGlobal := k);
    RoomForOne(cfg.limits, after, Hearer(cfg), no, None);
    CalmWithin(cfg.limits, r, Reader(cfg, 0));
    CalmWithin(cfg.limits, l, Asker(cfg));
    RequestFills(cfg, k, m, no);
    BusyRefuses(cfg, l, r, k, b, m, after, no);
    RefusalHeard(cfg, l, k, b, after, no);
  }

  lemma RequestFills(cfg: Config, k: nat, m: Msg, no: Msg)
    requires Checked(cfg) && m == RequestAsk([0]) && no == Reply(0, 0, Denied(LimitReject("channel request queue limit reached")))
    ensures Route(cfg, Flooded(Holding(Reader(cfg, 0)), k, []), m, REFUSE) == Ok(Holding(Hearer(cfg)).(nextGlobal := k, ctrl := [no]))
  {
    assert Reader(cfg, 0).incoming + {0} == {0};
  }

  lemma RequestRefusalUnsafe(cfg: Config)
    requires Checked(cfg) && !NoticeFits(cfg.limits, 35)
    ensures !SafeAlways(cfg)
  {
    var m, no := RequestAsk([0]), Reply(0, 0, Denied(LimitReject("channel request queue limit reached")));
    var k, b := FillUp(cfg.limits, 0);
    TextLengths();
    NoticeFails(cfg, no, "channel request queue limit reached");
    RequestSizes([0]);
    RequestAsked(cfg, m);
    CrowdedRequest(cfg, Reader(cfg, 0), k, b, m);
    RequestRefused(cfg, k, b, m, no);
  }

  /**
   A valid configuration is safe exactly if its limits on codes and messages leave room for those of
   the session's own texts that its budget lets out.
   */
  lemma SafeExactly(cfg: Config)
    requires Checked(cfg)
    ensures SafeAlways(cfg) <==> TextsFit(cfg.limits)
  {
    if TextsFit(cfg.limits) {
      FitIsSafe(cfg);
    } else if !FallbackFits(cfg.limits, 21) {
      OpenUnsafe(cfg);
    } else if !FallbackFits(cfg.limits, 23) {
      GlobalUnsafe(cfg);
    } else if !FallbackFits(cfg.limits, 24) && cfg.limits.maxQueuedBytesPerChannel >= 5 {
      RequestUnsafe(cfg);
    } else if !NoticeFits(cfg.limits, 27) {
      OpenRefusalUnsafe(cfg);
    } else if !NoticeFits(cfg.limits, 34) {
      GlobalRefusalUnsafe(cfg);
    } else {
      RequestRefusalUnsafe(cfg);
    }
  }

  // ----- what validation does and does not promise

  const NO_LIMITS := Limits(0, 0, 0, 0, 0, 0, 0, 0, 0, 0, 0, 0, 0)
  const ZERO := Config(0, 0, 0, 0, 0, NO_LIMITS)

  /** The defaults are valid, leave room for the session's reject texts and never get stuck. */
  lemma DefaultsAreFine()
    ensures Validate(ZERO) && SafeAlways(WithDefaults(ZERO)) && !CanGetStuck(WithDefaults(ZERO))
  {
    SafeExactly(WithDefaults(ZERO));
    StuckExactly(WithDefaults(ZERO));
  }

  /** Validation alone implies neither. */
  lemma ValidationIsNotEnough()
    ensures exists c :: Validate(c) && !SafeAlways(WithDefaults(c))
    ensures exists c :: Validate(c) && TextsFit(WithDefaults(c).limits) && CanGetStuck(WithDefaults(c))
  {
    var terse := ZERO.(limits := NO_LIMITS.(maxCodeLength := 1));
    SafeExactly(WithDefaults(terse));
    var slow := ZERO.(windowAdjustThreshold := 262144);
    SmallOpens(WithDefaults(slow));
    StuckExactly(WithDefaults(slow));
    assert Validate(terse) && !SafeAlways(WithDefaults(terse));
    assert Validate(slow) && TextsFit(WithDefaults(slow).limits) && CanGetStuck(WithDefaults(slow));
  }
}
