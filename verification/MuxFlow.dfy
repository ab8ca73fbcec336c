/** Flow control over whole runs: credit is conserved, nothing wraps, and a drained sender can go on. */
module MuxFlow {
  import opened Types
  import opened SessionConfig
  import opened Envelope
  import opened Channel
  import opened Endpoint
  import opened Flight
  import opened Direction
  import opened Network
  import opened Traffic
  import opened MuxSafety

  /** Channels c and q are two ends of one channel, in the hands of applications that spoil nothing. */
  predicate Paired(n: Net, c: nat, q: nat) {
    && Mated(n.l, n.r, c, q) && n.l.chans[c].live && n.r.chans[q].live
  }

  /** Bytes sent to channel q that its endpoint has not taken in. */
  function DataUnderWay(f: seq<Msg>, q: nat): nat {
    Total(DataOf(Stream(f, q)))
  }

  /**
   The sender's window, what Send has reserved, data and credit under way, credit the receiver holds
   back and what waits to be read always add up to the initial window.
   */
  predicate Conserved(cfg: Config, s: Chan, t: Chan, f: seq<Msg>, g: seq<Msg>, c: nat, q: nat) {
    && s.remoteWindow + Total(s.reserved) + DataUnderWay(f, q) + Adjusts(g, c) + t.pendingWindow + Total(t.frames) == cfg.initialWindow
    && t.localWindow + Total(t.frames) == cfg.initialWindow
  }

  /** None of the 32-bit additions of Recv, of the window adjust or of Send's refund wraps or saturates. */
  predicate NothingWraps(s: Chan, t: Chan, f: seq<Msg>, g: seq<Msg>, c: nat, q: nat) {
    && (t.frames != [] ==> t.localWindow + |t.frames[0]| <= MAX_U32 && t.pendingWindow + |t.frames[0]| <= MAX_U32)
    && (forall m :: m in g && m.Adjust? && m.to == c ==> s.remoteWindow + m.bytes <= MAX_U32)
    && (forall i :: 0 <= i < |s.reserved| ==> s.remoteWindow + |s.reserved[i]| <= MAX_U32)
    && (forall m :: m in f && m.Data? && m.to == q ==> s.remoteWindow + |m.data| <= MAX_U32 && |m.data| <= t.localWindow)
  }

  lemma {:induction false} AdjustCounted(ms: seq<Msg>, c: nat, m: Msg)
    requires m in ms && m.Adjust? && m.to == c
    ensures m.bytes <= Adjusts(ms, c)
  {
    if m != ms[0] {
      assert m in ms[1..];
      AdjustCounted(ms[1..], c, m);
    }
  }

  lemma {:induction false} DataCounted(ms: seq<Msg>, q: nat, m: Msg)
    requires m in ms && m.Data? && m.to == q
    ensures |m.data| <= DataUnderWay(ms, q)
  {
    DataConcat(StreamOf(ms[0], q), Stream(ms[1..], q));
    TotalConcat(DataOf(StreamOf(ms[0], q)), DataOf(Stream(ms[1..], q)));
    if m == ms[0] {
      DataUnit(Frame(m.data));
      TotalSingle(m.data);
    } else {
      assert m in ms[1..];
      DataCounted(ms[1..], q, m);
    }
  }

  lemma {:induction false} TotalMember(frames: seq<Bytes>, i: nat)
    requires i < |frames|
    ensures |frames[i]| <= Total(frames)
  {
    if i > 0 {
      TotalMember(frames[1..], i - 1);
    }
  }

  lemma ConservedNeverWraps(cfg: Config, s: Chan, t: Chan, f: seq<Msg>, g: seq<Msg>, c: nat, q: nat)
    requires Checked(cfg) && Conserved(cfg, s, t, f, g, c, q)
    ensures NothingWraps(s, t, f, g, c, q)
  {
    forall m | m in g && m.Adjust? && m.to == c ensures s.remoteWindow + m.bytes <= MAX_U32 {
      AdjustCounted(g, c, m);
    }
    forall m | m in f && m.Data? && m.to == q ensures s.remoteWindow + |m.data| <= MAX_U32 && |m.data| <= t.localWindow {
      DataCounted(f, q, m);
    }
    forall i | 0 <= i < |s.reserved| ensures s.remoteWindow + |s.reserved[i]| <= MAX_U32 {
      TotalMember(s.reserved, i);
    }
    if t.frames != [] {
      TotalMember(t.frames, 0);
    }
  }

  lemma PairConserved(cfg: Config, n: Net, c: nat, q: nat)
    requires Fit(cfg) && Inv(cfg, n) && Paired(n, c, q)
    ensures Conserved(cfg, n.l.chans[c], n.r.chans[q], Fly(n.l, n.lr), Fly(n.r, n.rl), c, q)
  {
    ChanFacts(cfg, n, c);
    assert ChanOk(n.r.chans[q]);
    var v, w := Views(cfg, n.l, n.r, Fly(n.l, n.lr), Fly(n.r, n.rl), c, q);
  }

  /** Credit is conserved in both directions of every pair, in every state of every run. */
  lemma CreditConserved(cfg: Config, trace: seq<Net>, turns: seq<Turn>, i: nat, c: nat, q: nat)
    requires Fit(cfg) && Run(cfg, trace, turns) && i < |trace| && Paired(trace[i], c, q)
    ensures var n := trace[i];
            var s, t, f, g := n.l.chans[c], n.r.chans[q], Fly(n.l, n.lr), Fly(n.r, n.rl);
            && Conserved(cfg, s, t, f, g, c, q) && Conserved(cfg, t, s, g, f, q, c)
            && NothingWraps(s, t, f, g, c, q) && NothingWraps(t, s, g, f, q, c)
  {
    var n := trace[i];
    RunKeeps(cfg, trace, turns, i);
    PairConserved(cfg, n, c, q);
    InvSwap(cfg, n);
    PairConserved(cfg, Swap(n), q, c);
    ConservedNeverWraps(cfg, n.l.chans[c], n.r.chans[q], Fly(n.l, n.lr), Fly(n.r, n.rl), c, q);
    ConservedNeverWraps(cfg, n.r.chans[q], n.l.chans[c], Fly(n.r, n.rl), Fly(n.l, n.lr), q, c);
  }

  // ----- progress

  /** Everything sent from c to q has been read, and all credit that was handed back has arrived. */
  predicate Drained(n: Net, c: nat, q: nat) {
    && Paired(n, c, q)
    && n.l.chans[c].reserved == []
    && DataUnderWay(Fly(n.l, n.lr), q) == 0
    && Adjusts(Fly(n.r, n.rl), c) == 0
    && n.r.chans[q].frames == []
  }

  /** The sender of a drained direction lacks at most what the receiver holds back below its threshold. */
  lemma DrainedWindow(cfg: Config, n: Net, c: nat, q: nat)
    requires Fit(cfg) && Inv(cfg, n) && Drained(n, c, q)
    ensures n.l.chans[c].remoteWindow + n.r.chans[q].pendingWindow == cfg.initialWindow
    ensures n.l.chans[c].remoteWindow >= cfg.initialWindow - (cfg.windowAdjustThreshold - 1)
    ensures n.l.chans[c].maxRemotePacket == cfg.maxPacketSize
  {
    PairConserved(cfg, n, c, q);
    ChanFacts(cfg, n, c);
    var v, w := Views(cfg, n.l, n.r, Fly(n.l, n.lr), Fly(n.r, n.rl), c, q);
  }

  /** A frame Send would take, on a channel that is open for sending, has no window although nothing is left to wait for. */
  predicate Stuck(n: Net, c: nat, q: nat, frame: Bytes) {
    && Drained(n, c, q) && n.l.chans[c].state.CanSendData()
    && 0 < |frame| <= n.l.chans[c].maxRemotePacket && !CanReserve(n.l.chans[c], frame)
  }

  predicate Roomy(cfg: Config) {
    cfg.maxPacketSize + cfg.windowAdjustThreshold <= cfg.initialWindow + 1
  }

  /** With the margin, no run ever gets stuck. */
  lemma NeverStuck(cfg: Config, trace: seq<Net>, turns: seq<Turn>, i: nat, c: nat, q: nat, frame: Bytes)
    requires Fit(cfg) && Roomy(cfg) && Run(cfg, trace, turns) && i < |trace|
    ensures !Stuck(trace[i], c, q, frame)
  {
    RunKeeps(cfg, trace, turns, i);
    if Drained(trace[i], c, q) {
      DrainedWindow(cfg, trace[i], c, q);
    }
  }
}
