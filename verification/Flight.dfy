/**
 What one direction of the connection has under way: messages on the wire, live entries of the
 outbound queue and entries of the control queue, and their projections to single channels.
 */
module Flight {
  import opened Types
  import opened SessionConfig
  import opened Envelope
  import opened Channel
  import opened Endpoint

  datatype Item = Frame(data: Bytes) | End

  /** The channel-data and EOF messages for channel q, in order. */
  function Stream(ms: seq<Msg>, q: nat): seq<Item> {
    if ms == [] then []
    else StreamOf(ms[0], q) + Stream(ms[1..], q)
  }

  function StreamOf(m: Msg, q: nat): seq<Item> {
    if m.Data? && m.to == q then [Frame(m.data)]
    else if m.Eof? && m.to == q then [End]
    else []
  }

  /** Window credit under way to channel q. */
  function Adjusts(ms: seq<Msg>, q: nat): nat {
    if ms == [] then 0 else AdjustOf(ms[0], q) + Adjusts(ms[1..], q)
  }

  function AdjustOf(m: Msg, q: nat): nat {
    if m.Adjust? && m.to == q then m.bytes else 0
  }

  /** Ids of the requests under way that await a reply; None stands for global requests. */
  function Asks(ms: seq<Msg>, q: Option<nat>): multiset<nat> {
    if ms == [] then multiset{} else AskOf(ms[0], q) + Asks(ms[1..], q)
  }

  function AskOf(m: Msg, q: Option<nat>): multiset<nat> {
    if m.Request? && q == Some(m.to) && m.want then multiset{m.id}
    else if m.GlobalRequest? && q == None && m.want then multiset{m.id}
    else multiset{}
  }

  /** Ids of the requests whose replies are under way. */
  function Replies(ms: seq<Msg>, q: Option<nat>): multiset<nat> {
    if ms == [] then multiset{} else ReplyOf(ms[0], q) + Replies(ms[1..], q)
  }

  function ReplyOf(m: Msg, q: Option<nat>): multiset<nat> {
    if m.Reply? && q == Some(m.to) then multiset{m.id}
    else if m.GlobalReply? && q == None then multiset{m.id}
    else multiset{}
  }

  /** Properties of single messages that are counted along a direction. */
  datatype Key =
    | Announces(id: nat)   // carries channel id `id` of its sender to the peer
    | Opens(id: nat)       // asks to open the sender's channel `id`
    | Answers(id: nat)     // answers the receiver's open of channel `id`
    | For(id: nat)         // is addressed to the receiver's open channel `id`
    | Closes(id: nat)      // closes the receiver's channel `id`

  predicate Has(m: Msg, k: Key) {
    match k
    case Announces(id) => (m.Open? || m.OpenOk?) && m.sender == id
    case Opens(id) => m.Open? && m.sender == id
    case Answers(id) => (m.OpenOk? || m.OpenReject?) && m.opener == id
    case For(id) => Addressed(m) && m.to == id
    case Closes(id) => m.Close? && m.to == id
  }

  function CountOf(m: Msg, k: Key): nat {
    if Has(m, k) then 1 else 0
  }

  function Count(ms: seq<Msg>, k: Key): nat {
    if ms == [] then 0 else CountOf(ms[0], k) + Count(ms[1..], k)
  }

  function Live(ws: seq<Write>): seq<Msg> {
    if ws == [] then []
    else (if ws[0].cancelled then [] else [ws[0].msg]) + Live(ws[1..])
  }

  /** Everything endpoint e has sent that its peer has not handled; `wire` is the link itself. */
  function Fly(e: Endpoint, wire: seq<Msg>): seq<Msg> {
    wire + Live(e.out) + e.ctrl
  }

  // ----- projections add up over concatenation

  lemma {:induction false} StreamConcat(a: seq<Msg>, b: seq<Msg>, q: nat)
    ensures Stream(a + b, q) == Stream(a, q) + Stream(b, q)
  {
    if a == [] {
      assert a + b == b;
    } else {
      assert (a + b)[1..] == a[1..] + b;
      StreamConcat(a[1..], b, q);
    }
  }

  lemma {:induction false} AdjustsConcat(a: seq<Msg>, b: seq<Msg>, q: nat)
    ensures Adjusts(a + b, q) == Adjusts(a, q) + Adjusts(b, q)
  {
    if a == [] {
      assert a + b == b;
    } else {
      assert (a + b)[1..] == a[1..] + b;
      AdjustsConcat(a[1..], b, q);
    }
  }

  lemma {:induction false} AsksConcat(a: seq<Msg>, b: seq<Msg>, q: Option<nat>)
    ensures Asks(a + b, q) == Asks(a, q) + Asks(b, q)
  {
    if a == [] {
      assert a + b == b;
    } else {
      assert (a + b)[1..] == a[1..] + b;
      AsksConcat(a[1..], b, q);
    }
  }

  lemma {:induction false} RepliesConcat(a: seq<Msg>, b: seq<Msg>, q: Option<nat>)
    ensures Replies(a + b, q) == Replies(a, q) + Replies(b, q)
  {
    if a == [] {
      assert a + b == b;
    } else {
      assert (a + b)[1..] == a[1..] + b;
      RepliesConcat(a[1..], b, q);
    }
  }

  lemma {:induction false} CountConcat(a: seq<Msg>, b: seq<Msg>, k: Key)
    ensures Count(a + b, k) == Count(a, k) + Count(b, k)
  {
    if a == [] {
      assert a + b == b;
    } else {
      assert (a + b)[1..] == a[1..] + b;
      CountConcat(a[1..], b, k);
    }
  }

  lemma {:induction false} LiveConcat(a: seq<Write>, b: seq<Write>)
    ensures Live(a + b) == Live(a) + Live(b)
  {
    if a == [] {
      assert a + b == b;
    } else {
      assert (a + b)[1..] == a[1..] + b;
      LiveConcat(a[1..], b);
    }
  }

  lemma {:induction false} CountZero(ms: seq<Msg>, k: Key)
    ensures Count(ms, k) == 0 <==> forall m :: m in ms ==> !Has(m, k)
  {
    if ms != [] {
      CountZero(ms[1..], k);
      assert ms == [ms[0]] + ms[1..];
    }
  }

  // ----- how a direction changes

  /** No message of the control queue belongs to a data stream. */
  predicate CtrlOk(ctrl: seq<Msg>) {
    forall m :: m in ctrl ==> m.OpenReject? || m.Reply? || m.GlobalReply? || m.Close?
  }

  lemma {:induction false} CtrlStream(ctrl: seq<Msg>, q: nat)
    requires CtrlOk(ctrl)
    ensures Stream(ctrl, q) == []
  {
    if ctrl != [] {
      assert ctrl[0] in ctrl;
      CtrlStream(ctrl[1..], q);
    }
  }

  /** Directions f and g carry the same to every channel. */
  ghost predicate Same(f: seq<Msg>, g: seq<Msg>) {
    && (forall q :: Stream(g, q) == Stream(f, q))
    && (forall q :: Adjusts(g, q) == Adjusts(f, q))
    && (forall q :: Asks(g, q) == Asks(f, q))
    && (forall q :: Replies(g, q) == Replies(f, q))
    && (forall k :: Count(g, k) == Count(f, k))
    && (forall m :: m in g <==> m in f)
  }

  /** Direction g is f with m added at its end. */
  ghost predicate Grew(f: seq<Msg>, g: seq<Msg>, m: Msg) {
    && (forall q :: Stream(g, q) == Stream(f, q) + StreamOf(m, q))
    && (forall q :: Adjusts(g, q) == Adjusts(f, q) + AdjustOf(m, q))
    && (forall q :: Asks(g, q) == Asks(f, q) + AskOf(m, q))
    && (forall q :: Replies(g, q) == Replies(f, q) + ReplyOf(m, q))
    && (forall k :: Count(g, k) == Count(f, k) + CountOf(m, k))
    && (forall x :: x in g <==> x in f || x == m)
  }

  /** Direction f is g with m in front. */
  ghost predicate Popped(f: seq<Msg>, g: seq<Msg>, m: Msg) {
    && (forall q :: Stream(f, q) == StreamOf(m, q) + Stream(g, q))
    && (forall q :: Adjusts(f, q) == AdjustOf(m, q) + Adjusts(g, q))
    && (forall q :: Asks(f, q) == AskOf(m, q) + Asks(g, q))
    && (forall q :: Replies(f, q) == ReplyOf(m, q) + Replies(g, q))
    && (forall k :: Count(f, k) == CountOf(m, k) + Count(g, k))
    && m in f
    && (forall x :: x in g ==> x in f)
  }

  /** Direction g is f without one m. */
  ghost predicate Lost(f: seq<Msg>, g: seq<Msg>, m: Msg) {
    && (forall q :: Cut(Stream(f, q), Stream(g, q), StreamOf(m, q)))
    && (forall q :: Adjusts(f, q) == Adjusts(g, q) + AdjustOf(m, q))
    && (forall q :: Asks(f, q) == Asks(g, q) + AskOf(m, q))
    && (forall q :: Replies(f, q) == Replies(g, q) + ReplyOf(m, q))
    && (forall k :: Count(f, k) == Count(g, k) + CountOf(m, k))
    && m in f
    && (forall x :: x in g ==> x in f)
  }

  ghost predicate Cut(whole: seq<Item>, rest: seq<Item>, cut: seq<Item>) {
    exists a, b :: Split(whole, rest, a, b, cut)
  }

  ghost predicate Split(whole: seq<Item>, rest: seq<Item>, a: seq<Item>, b: seq<Item>, cut: seq<Item>) {
    whole == a + cut + b && rest == a + b
  }

  /** What the head m of the direction was worth to channel c. */
  ghost predicate PoppedAt(g: seq<Msg>, g': seq<Msg>, m: Msg, c: nat) {
    && Stream(g, c) == StreamOf(m, c) + Stream(g', c)
    && Adjusts(g, c) == AdjustOf(m, c) + Adjusts(g', c)
    && Asks(g, Some(c)) == AskOf(m, Some(c)) + Asks(g', Some(c))
    && Replies(g, Some(c)) == ReplyOf(m, Some(c)) + Replies(g', Some(c))
  }

  lemma PopAt(g: seq<Msg>, g': seq<Msg>, m: Msg, c: nat)
    requires Popped(g, g', m)
    ensures PoppedAt(g, g', m, c)
  {
  }

  /** What the lost message m was worth to channel q. */
  ghost predicate LostAt(f: seq<Msg>, f': seq<Msg>, m: Msg, q: nat) {
    && Cut(Stream(f, q), Stream(f', q), StreamOf(m, q))
    && Adjusts(f, q) == Adjusts(f', q) + AdjustOf(m, q)
    && Asks(f, Some(q)) == Asks(f', Some(q)) + AskOf(m, Some(q))
    && Replies(f, Some(q)) == Replies(f', Some(q)) + ReplyOf(m, Some(q))
  }

  lemma LoseAt(f: seq<Msg>, f': seq<Msg>, m: Msg, q: nat)
    requires Lost(f, f', m)
    ensures LostAt(f, f', m, q)
  {
  }

  lemma NoCut(whole: seq<Item>, rest: seq<Item>)
    requires Cut(whole, rest, [])
    ensures rest == whole
  {
    var a, b :| Split(whole, rest, a, b, []);
    assert a + [] + b == a + b;
  }

  ghost predicate Additive(a: seq<Msg>, b: seq<Msg>, ab: seq<Msg>) {
    && (forall q :: Stream(ab, q) == Stream(a, q) + Stream(b, q))
    && (forall q :: Adjusts(ab, q) == Adjusts(a, q) + Adjusts(b, q))
    && (forall q :: Asks(ab, q) == Asks(a, q) + Asks(b, q))
    && (forall q :: Replies(ab, q) == Replies(a, q) + Replies(b, q))
    && (forall k :: Count(ab, k) == Count(a, k) + Count(b, k))
    && (forall m :: m in ab <==> m in a || m in b)
  }

  lemma Concat(a: seq<Msg>, b: seq<Msg>)
    ensures Additive(a, b, a + b)
  {
    forall q ensures Stream(a + b, q) == Stream(a, q) + Stream(b, q) { StreamConcat(a, b, q); }
    forall q ensures Adjusts(a + b, q) == Adjusts(a, q) + Adjusts(b, q) { AdjustsConcat(a, b, q); }
    forall q ensures Asks(a + b, q) == Asks(a, q) + Asks(b, q) { AsksConcat(a, b, q); }
    forall q ensures Replies(a + b, q) == Replies(a, q) + Replies(b, q) { RepliesConcat(a, b, q); }
    forall k ensures Count(a + b, k) == Count(a, k) + Count(b, k) { CountConcat(a, b, k); }
  }

  ghost predicate Unit(m: Msg, ms: seq<Msg>) {
    && (forall q :: Stream(ms, q) == StreamOf(m, q))
    && (forall q :: Adjusts(ms, q) == AdjustOf(m, q))
    && (forall q :: Asks(ms, q) == AskOf(m, q))
    && (forall q :: Replies(ms, q) == ReplyOf(m, q))
    && (forall k :: Count(ms, k) == CountOf(m, k))
  }

  lemma Single(m: Msg)
    ensures Unit(m, [m])
  {
    assert [m][1..] == [];
  }

  lemma AppendGrows(f: seq<Msg>, m: Msg)
    ensures Grew(f, f + [m], m)
  {
    Concat(f, [m]);
    Single(m);
  }

  lemma HeadPops(f: seq<Msg>)
    requires f != []
    ensures Popped(f, f[1..], f[0])
  {
    assert f == [f[0]] + f[1..];
    Concat([f[0]], f[1..]);
    Single(f[0]);
  }

  /** A message may be put in front of control messages: the direction grows all the same. */
  lemma InsertGrows(a: seq<Msg>, m: Msg, c: seq<Msg>)
    requires CtrlOk(c)
    ensures Grew(a + c, a + [m] + c, m)
  {
    forall q ensures Stream(a + [m] + c, q) == Stream(a + c, q) + StreamOf(m, q) { InsertStream(a, m, c, q); }
    InsertCounts(a, m, c);
  }

  lemma InsertStream(a: seq<Msg>, m: Msg, c: seq<Msg>, q: nat)
    requires CtrlOk(c)
    ensures Stream(a + [m] + c, q) == Stream(a + c, q) + StreamOf(m, q)
  {
    StreamConcat(a + [m], c, q);
    StreamConcat(a, [m], q);
    StreamConcat(a, c, q);
    CtrlStream(c, q);
    Single(m);
  }

  lemma InsertCounts(a: seq<Msg>, m: Msg, c: seq<Msg>)
    ensures forall q :: Adjusts(a + [m] + c, q) == Adjusts(a + c, q) + AdjustOf(m, q)
    ensures forall q :: Asks(a + [m] + c, q) == Asks(a + c, q) + AskOf(m, q)
    ensures forall q :: Replies(a + [m] + c, q) == Replies(a + c, q) + ReplyOf(m, q)
    ensures forall k :: Count(a + [m] + c, k) == Count(a + c, k) + CountOf(m, k)
  {
    forall q ensures Adjusts(a + [m] + c, q) == Adjusts(a + c, q) + AdjustOf(m, q) { InsertAdjust(a, m, c, q); }
    forall q ensures Asks(a + [m] + c, q) == Asks(a + c, q) + AskOf(m, q) { InsertAsk(a, m, c, q); }
    forall q ensures Replies(a + [m] + c, q) == Replies(a + c, q) + ReplyOf(m, q) { InsertReply(a, m, c, q); }
    forall k ensures Count(a + [m] + c, k) == Count(a + c, k) + CountOf(m, k) { InsertCount(a, m, c, k); }
  }

  lemma InsertAdjust(a: seq<Msg>, m: Msg, c: seq<Msg>, q: nat)
    ensures Adjusts(a + [m] + c, q) == Adjusts(a + c, q) + AdjustOf(m, q)
  {
    AdjustsConcat(a + [m], c, q);
    AdjustsConcat(a, [m], q);
    AdjustsConcat(a, c, q);
    Single(m);
  }

  lemma InsertAsk(a: seq<Msg>, m: Msg, c: seq<Msg>, q: Option<nat>)
    ensures Asks(a + [m] + c, q) == Asks(a + c, q) + AskOf(m, q)
  {
    AsksConcat(a + [m], c, q);
    AsksConcat(a, [m], q);
    AsksConcat(a, c, q);
    Single(m);
  }

  lemma InsertReply(a: seq<Msg>, m: Msg, c: seq<Msg>, q: Option<nat>)
    ensures Replies(a + [m] + c, q) == Replies(a + c, q) + ReplyOf(m, q)
  {
    RepliesConcat(a + [m], c, q);
    RepliesConcat(a, [m], q);
    RepliesConcat(a, c, q);
    Single(m);
  }

  lemma InsertCount(a: seq<Msg>, m: Msg, c: seq<Msg>, k: Key)
    ensures Count(a + [m] + c, k) == Count(a + c, k) + CountOf(m, k)
  {
    CountConcat(a + [m], c, k);
    CountConcat(a, [m], k);
    CountConcat(a, c, k);
    Single(m);
  }

  lemma RemoveLoses(a: seq<Msg>, m: Msg, b: seq<Msg>)
    ensures Lost(a + [m] + b, a + b, m)
  {
    forall q ensures Cut(Stream(a + [m] + b, q), Stream(a + b, q), StreamOf(m, q)) { RemoveStream(a, m, b, q); }
    InsertCounts(a, m, b);
  }

  lemma RemoveStream(a: seq<Msg>, m: Msg, b: seq<Msg>, q: nat)
    ensures Cut(Stream(a + [m] + b, q), Stream(a + b, q), StreamOf(m, q))
  {
    StreamConcat(a + [m], b, q);
    StreamConcat(a, [m], q);
    StreamConcat(a, b, q);
    Single(m);
    assert Split(Stream(a + [m] + b, q), Stream(a + b, q), Stream(a, q), Stream(b, q), StreamOf(m, q));
  }

  /** Queueing on the outbound queue adds the message to the direction. */
  lemma OutGrows(e: Endpoint, wire: seq<Msg>, m: Msg, from: Option<nat>)
    requires CtrlOk(e.ctrl)
    ensures Grew(Fly(e, wire), Fly(PutOut(e, m, from), wire), m)
  {
    LiveAppend(e.out, m, from);
    InsertGrows(wire + Live(e.out), m, e.ctrl);
    assert wire + (Live(e.out) + [m]) == (wire + Live(e.out)) + [m];
  }

  lemma LiveAppend(out: seq<Write>, m: Msg, from: Option<nat>)
    ensures Live(out + [Write(m, from, false)]) == Live(out) + [m]
  {
    LiveConcat(out, [Write(m, from, false)]);
    assert [Write(m, from, false)][1..] == [];
  }

  /** So does queueing on the control queue. */
  lemma CtrlGrows(e: Endpoint, wire: seq<Msg>, m: Msg)
    ensures Grew(Fly(e, wire), Fly(PutCtrl(e, m), wire), m)
  {
    assert Fly(PutCtrl(e, m), wire) == Fly(e, wire) + [m];
    AppendGrows(Fly(e, wire), m);
  }

  /** The writer moves a control message onto the wire without changing the direction. */
  lemma WriteControlSame(e: Endpoint, wire: seq<Msg>)
    requires e.ctrl != [] && CtrlOk(e.ctrl)
    ensures Same(Fly(e, wire), Fly(e.(ctrl := e.ctrl[1..]), wire + [e.ctrl[0]]))
  {
    var m, mid, rest := e.ctrl[0], Live(e.out), e.ctrl[1..];
    assert m in e.ctrl && CtrlOk(rest);
    assert Fly(e, wire) == (wire + mid) + [m] + rest;
    assert Fly(e.(ctrl := rest), wire + [m]) == wire + [m] + (mid + rest);
    InsertGrows(wire + mid, m, rest);
    RemoveLoses(wire, m, mid + rest);
    assert wire + (mid + rest) == wire + mid + rest;
    forall q ensures StreamOf(m, q) == [] { }
    SameByCuts(Fly(e, wire), wire + mid + rest, Fly(e.(ctrl := rest), wire + [m]), m);
  }

  lemma SameByCuts(f: seq<Msg>, mid: seq<Msg>, g: seq<Msg>, m: Msg)
    requires Grew(mid, f, m) && Lost(g, mid, m)
    requires forall q :: StreamOf(m, q) == []
    requires forall x :: x in g <==> x in f
    ensures Same(f, g)
  {
    forall q ensures Stream(g, q) == Stream(f, q) {
      assert Cut(Stream(g, q), Stream(mid, q), StreamOf(m, q));
      var a, b :| Split(Stream(g, q), Stream(mid, q), a, b, StreamOf(m, q));
      assert a + [] + b == a + b;
    }
  }

  /** So does writing, or dropping, the head of the outbound queue. */
  lemma WriteOutboundSame(e: Endpoint, e': Endpoint, wire: seq<Msg>)
    requires e.out != [] && e'.out == e.out[1..] && e'.ctrl == e.ctrl
    ensures Same(Fly(e, wire), Fly(e', wire + Emits(e, WriteOutbound)))
  {
    assert Live(e.out) == Emits(e, WriteOutbound) + Live(e.out[1..]);
    assert wire + (Emits(e, WriteOutbound) + Live(e.out[1..])) == (wire + Emits(e, WriteOutbound)) + Live(e.out[1..]);
  }

  lemma LiveCancel(out: seq<Write>, i: nat)
    requires i < |out| && !out[i].cancelled
    ensures Live(out) == Live(out[..i]) + [out[i].msg] + Live(out[i + 1..])
    ensures Live(out[i := out[i].(cancelled := true)]) == Live(out[..i]) + Live(out[i + 1..])
  {
    var out' := out[i := out[i].(cancelled := true)];
    assert out == out[..i] + out[i..] && out' == out[..i] + out'[i..];
    LiveConcat(out[..i], out[i..]);
    LiveConcat(out[..i], out'[i..]);
    assert out[i..][1..] == out[i + 1..] && out'[i..][1..] == out[i + 1..];
  }

  /** Cancelling a queued write takes exactly that message out. */
  lemma CancelLoses(e: Endpoint, e': Endpoint, wire: seq<Msg>, i: nat)
    requires i < |e.out| && !e.out[i].cancelled
    requires e'.out == e.out[i := e.out[i].(cancelled := true)] && e'.ctrl == e.ctrl
    ensures Lost(Fly(e, wire), Fly(e', wire), e.out[i].msg)
  {
    var a, b := FlyCancel(e, e', wire, i);
    RemoveLoses(a, e.out[i].msg, b);
  }

  lemma FlyCancel(e: Endpoint, e': Endpoint, wire: seq<Msg>, i: nat) returns (a: seq<Msg>, b: seq<Msg>)
    requires i < |e.out| && !e.out[i].cancelled
    requires e'.out == e.out[i := e.out[i].(cancelled := true)] && e'.ctrl == e.ctrl
    ensures Fly(e, wire) == a + [e.out[i].msg] + b
    ensures Fly(e', wire) == a + b
  {
    LiveCancel(e.out, i);
    var m, x, y := e.out[i].msg, Live(e.out[..i]), Live(e.out[i + 1..]);
    a, b := wire + x, y + e.ctrl;
    assert wire + (x + [m] + y) + e.ctrl == (wire + x) + [m] + (y + e.ctrl);
    assert wire + (x + y) + e.ctrl == (wire + x) + (y + e.ctrl);
  }
}
