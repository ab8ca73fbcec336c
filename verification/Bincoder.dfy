/** The binary codec: growing encoder, cursor decoder with a sticky error, and length-prefixed streams. */
module Bincoder {
  import opened Types

  // ----- numbers

  /** Four bytes, most significant first. */
  function U32Bytes(n: nat): Bytes
    requires n < U32_LIMIT
  {
    [n / 0x100_0000, n / 0x1_0000 % 0x100, n / 0x100 % 0x100, n % 0x100]
  }

  function U32Of(b: Bytes): nat
    requires |b| == 4
  {
    (b[0] as int) * 0x100_0000 + (b[1] as int) * 0x1_0000 + (b[2] as int) * 0x100 + b[3]
  }

  lemma U32RoundTrip(n: nat)
    requires n < U32_LIMIT
    ensures U32Of(U32Bytes(n)) == n
  {
    var h, g, f := n / 0x100, n / 0x1_0000, n / 0x100_0000;
    assert n == h * 0x100 + n % 0x100 && g == h / 0x100 && f == g / 0x100;
    assert h == g * 0x100 + h % 0x100 && g == f * 0x100 + g % 0x100;
  }

  lemma U32Unique(b: Bytes)
    requires |b| == 4
    ensures U32Of(b) < U32_LIMIT && U32Bytes(U32Of(b)) == b
  {
    var f: int := b[0];
    var g := f * 0x100 + b[1];
    var h := g * 0x100 + b[2];
    var n := h * 0x100 + b[3];
    Digit(f, b[1]);
    Digit(g, b[2]);
    Digit(h, b[3]);
    assert n == U32Of(b);
    assert n / 0x1_0000 == n / 0x100 / 0x100 && n / 0x100_0000 == n / 0x100 / 0x100 / 0x100;
  }

  lemma Digit(high: nat, low: byte)
    ensures (high * 0x100 + low) / 0x100 == high && (high * 0x100 + low) % 0x100 == low
  {
  }

  // ----- UTF-8

  predicate Tail(b: byte) {
    0x80 <= b <= 0xBF
  }

  /** The length of the code point at the front of b, or 0 if there is none. */
  function RuneLength(b: Bytes): nat {
    if b == [] then 0
    else if b[0] < 0x80 then 1
    else if 0xC2 <= b[0] <= 0xDF && |b| >= 2 && Tail(b[1]) then 2
    else if 0xE0 <= b[0] <= 0xEF && |b| >= 3 && Tail(b[1]) && Tail(b[2])
         && (b[0] == 0xE0 ==> b[1] >= 0xA0) && (b[0] == 0xED ==> b[1] <= 0x9F) then 3
    else if 0xF0 <= b[0] <= 0xF4 && |b| >= 4 && Tail(b[1]) && Tail(b[2]) && Tail(b[3])
         && (b[0] == 0xF0 ==> b[1] >= 0x90) && (b[0] == 0xF4 ==> b[1] <= 0x8F) then 4
    else 0
  }

  /** utf8.Valid */
  predicate ValidUtf8(b: Bytes) {
    b == [] || (RuneLength(b) > 0 && ValidUtf8(b[RuneLength(b)..]))
  }

  // ----- items

  datatype Item = AByte(b: byte) | ABool(v: bool) | AU32(n: nat) | ABytes(bytes: Bytes) | AText(bytes: Bytes)

  /** What the wire can carry at all, and what a decoder with this limit takes. */
  predicate Legal(it: Item, max: nat) {
    match it
    case AU32(n) => n < U32_LIMIT
    case ABytes(b) => |b| <= max
    case AText(b) => |b| <= max && ValidUtf8(b)
    case _ => true
  }

  function Field(b: Bytes): Bytes
    requires |b| <= MAX_U32
  {
    U32Bytes(|b|) + b
  }

  function Enc(it: Item): Bytes
    requires Legal(it, MAX_U32)
  {
    match it
    case AByte(b) => [b]
    case ABool(v) => [if v then 1 else 0]
    case AU32(n) => U32Bytes(n)
    case ABytes(b) => Field(b)
    case AText(b) => Field(b)
  }

  // ----- the encoder

  class Encoder {
    var buf: Bytes
    var failed: bool

    constructor ()
      ensures buf == [] && !failed
    {
      buf, failed := [], false;
    }

    method Write(b: Bytes)
      modifies this`buf
      ensures buf == if failed then old(buf) else old(buf) + b
    {
      if failed {
        return;
      }
      buf := buf + b;
    }

    method Byte(b: byte)
      modifies this`buf
      ensures buf == if failed then old(buf) else old(buf) + Enc(AByte(b))
    {
      Write([b]);
    }

    method Bool(v: bool)
      modifies this`buf
      ensures buf == if failed then old(buf) else old(buf) + Enc(ABool(v))
    {
      if v {
        Byte(1);
      } else {
        Byte(0);
      }
    }

    method U32(n: nat)
      requires n < U32_LIMIT
      modifies this`buf
      ensures buf == if failed then old(buf) else old(buf) + Enc(AU32(n))
    {
      Write(U32Bytes(n));
    }

    /** Too long a string fails the encoder for good and writes nothing. */
    method BytesField(b: Bytes)
      modifies this
      ensures failed <==> old(failed) || |b| > MAX_U32
      ensures buf == if failed then old(buf) else old(buf) + Field(b)
    {
      if failed {
        return;
      }
      if |b| > MAX_U32 {
        failed := true;
        return;
      }
      U32(|b|);
      Write(b);
    }
  }

  // ----- the decoder, step by step

  datatype Cursor = Cursor(off: nat, failed: bool)

  datatype Got<T> = Got(value: T, cursor: Cursor)

  predicate Inside(buf: Bytes, c: Cursor) {
    c.off <= |buf|
  }

  function TakeAt(buf: Bytes, c: Cursor, n: nat): (r: Got<Bytes>)
    requires Inside(buf, c)
    ensures Inside(buf, r.cursor) && c.off <= r.cursor.off && (c.failed ==> r.cursor == c)
    ensures !r.cursor.failed ==> |r.value| == n
  {
    if c.failed then Got([], c)
    else if c.off + n > |buf| then Got([], c.(failed := true))
    else Got(buf[c.off..c.off + n], Cursor(c.off + n, false))
  }

  function ByteAt(buf: Bytes, c: Cursor): (r: Got<byte>)
    requires Inside(buf, c)
    ensures Inside(buf, r.cursor) && c.off <= r.cursor.off && (c.failed ==> r.cursor == c)
  {
    var t := TakeAt(buf, c, 1);
    Got(if t.cursor.failed then 0 else t.value[0], t.cursor)
  }

  function BoolAt(buf: Bytes, c: Cursor): (r: Got<bool>)
    requires Inside(buf, c)
    ensures Inside(buf, r.cursor) && c.off <= r.cursor.off && (c.failed ==> r.cursor == c)
  {
    var t := ByteAt(buf, c);
    if t.cursor.failed || t.value > 1 then Got(false, t.cursor.(failed := true)) else Got(t.value == 1, t.cursor)
  }

  function U32At(buf: Bytes, c: Cursor): (r: Got<nat>)
    requires Inside(buf, c)
    ensures Inside(buf, r.cursor) && c.off <= r.cursor.off && (c.failed ==> r.cursor == c)
  {
    var t := TakeAt(buf, c, 4);
    Got(if t.cursor.failed then 0 else U32Of(t.value), t.cursor)
  }

  function BytesAt(buf: Bytes, max: nat, c: Cursor): (r: Got<Bytes>)
    requires Inside(buf, c)
    ensures Inside(buf, r.cursor) && c.off <= r.cursor.off && (c.failed ==> r.cursor == c)
  {
    var n := U32At(buf, c);
    if n.cursor.failed then Got([], n.cursor)
    else if n.value > max then Got([], n.cursor.(failed := true))
    else TakeAt(buf, n.cursor, n.value)
  }

  function TextAt(buf: Bytes, max: nat, c: Cursor): (r: Got<Bytes>)
    requires Inside(buf, c)
    ensures Inside(buf, r.cursor) && c.off <= r.cursor.off && (c.failed ==> r.cursor == c)
  {
    var t := BytesAt(buf, max, c);
    if t.cursor.failed then Got([], t.cursor)
    else if !ValidUtf8(t.value) then Got([], t.cursor.(failed := true))
    else t
  }

  function ExpectAt(buf: Bytes, c: Cursor, want: Bytes): (r: Cursor)
    requires Inside(buf, c)
    ensures Inside(buf, r) && c.off <= r.off && (c.failed ==> r == c)
  {
    var t := TakeAt(buf, c, |want|);
    if t.cursor.failed || t.value == want then t.cursor else t.cursor.(failed := true)
  }

  class Decoder {
    const buf: Bytes
    const max: nat
    var off: nat
    var failed: bool

    predicate Valid()
      reads this
    {
      Inside(buf, At())
    }

    function At(): Cursor
      reads this
    {
      Cursor(off, failed)
    }

    constructor (buf: Bytes, max: nat)
      ensures Valid() && this.buf == buf && this.max == max && At() == Cursor(0, false)
    {
      this.buf, this.max, off, failed := buf, max, 0, false;
    }

    method Take(n: nat) returns (b: Bytes)
      requires Valid()
      modifies this
      ensures Valid() && Got(b, At()) == TakeAt(buf, old(At()), n)
    {
      if failed {
        return [];
      }
      if off + n > |buf| {
        failed := true;
        return [];
      }
      var start := off;
      off := off + n;
      b := buf[start..off];
    }

    method Byte() returns (b: byte)
      requires Valid()
      modifies this
      ensures Valid() && Got(b, At()) == ByteAt(buf, old(At()))
    {
      var t := Take(1);
      b := if failed then 0 else t[0];
    }

    method Bool() returns (v: bool)
      requires Valid()
      modifies this
      ensures Valid() && Got(v, At()) == BoolAt(buf, old(At()))
    {
      var b := Byte();
      if failed {
        return false;
      }
      match b
      case 0 => return false;
      case 1 => return true;
      case _ =>
        failed := true;
        return false;
    }

    method U32() returns (n: nat)
      requires Valid()
      modifies this
      ensures Valid() && Got(n, At()) == U32At(buf, old(At()))
    {
      var b := Take(4);
      n := if failed then 0 else U32Of(b);
    }

    method BytesField() returns (b: Bytes)
      requires Valid()
      modifies this
      ensures Valid() && Got(b, At()) == BytesAt(buf, max, old(At()))
    {
      var n := U32();
      if failed {
        return [];
      }
      if n > max {
        failed := true;
        return [];
      }
      b := Take(n);
    }

    method Text() returns (b: Bytes)
      requires Valid()
      modifies this
      ensures Valid() && Got(b, At()) == TextAt(buf, max, old(At()))
    {
      b := BytesField();
      if failed {
        return [];
      }
      if !ValidUtf8(b) {
        failed := true;
        return [];
      }
    }

    method Expect(want: Bytes)
      requires Valid()
      modifies this
      ensures Valid() && At() == ExpectAt(buf, old(At()), want)
    {
      var got := Take(|want|);
      if failed {
        return;
      }
      if got != want {
        failed := true;
      }
    }

    method Done() returns (ok: bool)
      requires Valid()
      ensures ok <==> At() == Cursor(|buf|, false)
    {
      ok := !failed && off == |buf|;
    }
  }

  // ----- any calls in any order

  datatype Call = TakeCall(n: nat) | ByteCall | BoolCall | U32Call | BytesCall | TextCall | ExpectCall(want: Bytes)

  function After(buf: Bytes, max: nat, c: Cursor, call: Call): (r: Cursor)
    requires Inside(buf, c)
    ensures Inside(buf, r)
  {
    match call
    case TakeCall(n) => TakeAt(buf, c, n).cursor
    case ByteCall => ByteAt(buf, c).cursor
    case BoolCall => BoolAt(buf, c).cursor
    case U32Call => U32At(buf, c).cursor
    case BytesCall => BytesAt(buf, max, c).cursor
    case TextCall => TextAt(buf, max, c).cursor
    case ExpectCall(want) => ExpectAt(buf, c, want)
  }

  function AfterAll(buf: Bytes, max: nat, c: Cursor, calls: seq<Call>): (r: Cursor)
    requires Inside(buf, c)
    ensures Inside(buf, r)
    decreases |calls|
  {
    if calls == [] then c else AfterAll(buf, max, After(buf, max, c, calls[0]), calls[1..])
  }

  /** Whatever is called, the offset only moves forward inside the buffer, and not after an error. */
  lemma {:induction false} CursorSafe(buf: Bytes, max: nat, c: Cursor, calls: seq<Call>)
    requires Inside(buf, c)
    ensures var r := AfterAll(buf, max, c, calls); c.off <= r.off <= |buf| && (c.failed ==> r == c)
    decreases |calls|
  {
    if calls != [] {
      CursorSafe(buf, max, After(buf, max, c, calls[0]), calls[1..]);
    }
  }

  // ----- reading back what was written, and only that

  function ItemAt(buf: Bytes, max: nat, c: Cursor, like: Item): (r: Got<Item>)
    requires Inside(buf, c)
    ensures Inside(buf, r.cursor) && c.off <= r.cursor.off && (c.failed ==> r.cursor.failed)
  {
    match like
    case AByte(_) => var g := ByteAt(buf, c); Got(AByte(g.value), g.cursor)
    case ABool(_) => var g := BoolAt(buf, c); Got(ABool(g.value), g.cursor)
    case AU32(_) => var g := U32At(buf, c); Got(AU32(g.value), g.cursor)
    case ABytes(_) => var g := BytesAt(buf, max, c); Got(ABytes(g.value), g.cursor)
    case AText(_) => var g := TextAt(buf, max, c); Got(AText(g.value), g.cursor)
  }

  /** The bytes b stand in buf at offset off. */
  predicate Stands(buf: Bytes, off: nat, b: Bytes) {
    off + |b| <= |buf| && buf[off..off + |b|] == b
  }

  lemma StandsSplit(buf: Bytes, off: nat, a: Bytes, b: Bytes)
    ensures Stands(buf, off, a + b) <==> Stands(buf, off, a) && Stands(buf, off + |a|, b)
  {
    if off + |a| + |b| <= |buf| {
      assert buf[off..off + |a + b|] == buf[off..off + |a|] + buf[off + |a|..off + |a| + |b|];
      if buf[off..off + |a + b|] == a + b {
        assert buf[off..off + |a|] == (a + b)[..|a|] && buf[off + |a|..off + |a| + |b|] == (a + b)[|a|..];
      }
    }
  }

  lemma TakeStands(buf: Bytes, c: Cursor, b: Bytes)
    requires Inside(buf, c) && !c.failed
    ensures Stands(buf, c.off, b) <==> TakeAt(buf, c, |b|) == Got(b, Cursor(c.off + |b|, false))
  {
  }

  /** A number is read exactly where its four bytes stand. */
  lemma U32Stands(buf: Bytes, c: Cursor)
    requires Inside(buf, c) && !c.failed
    ensures var r := U32At(buf, c);
            !r.cursor.failed ==> r.value < U32_LIMIT && Stands(buf, c.off, U32Bytes(r.value)) && r.cursor.off == c.off + 4
    ensures forall n: nat :: n < U32_LIMIT && Stands(buf, c.off, U32Bytes(n)) ==> U32At(buf, c) == Got(n, Cursor(c.off + 4, false))
  {
    var t := TakeAt(buf, c, 4);
    if !t.cursor.failed {
      U32Unique(t.value);
    }
    forall n: nat | n < U32_LIMIT && Stands(buf, c.off, U32Bytes(n)) ensures U32At(buf, c) == Got(n, Cursor(c.off + 4, false)) {
      U32RoundTrip(n);
      TakeStands(buf, c, U32Bytes(n));
    }
  }

  /** A byte string is read exactly where its field stands. */
  lemma BytesStand(buf: Bytes, max: nat, c: Cursor, b: Bytes)
    requires Inside(buf, c) && !c.failed && max <= MAX_U32
    ensures |b| <= max && Stands(buf, c.off, Field(b)) ==> BytesAt(buf, max, c) == Got(b, Cursor(c.off + 4 + |b|, false))
    ensures BytesAt(buf, max, c).value == b && !BytesAt(buf, max, c).cursor.failed ==>
              |b| <= max && Stands(buf, c.off, Field(b)) && BytesAt(buf, max, c).cursor.off == c.off + 4 + |b|
  {
    U32Stands(buf, c);
    var n := U32At(buf, c);
    if |b| <= MAX_U32 {
      StandsSplit(buf, c.off, U32Bytes(|b|), b);
    }
    if !n.cursor.failed {
      TakeStands(buf, n.cursor, b);
    }
  }

  /** An item is read exactly where its encoding stands, and is legal. */
  lemma ItemStands(buf: Bytes, max: nat, c: Cursor, it: Item)
    requires Inside(buf, c) && !c.failed && max <= MAX_U32
    ensures Legal(it, max) && Stands(buf, c.off, Enc(it)) <==>
              ItemAt(buf, max, c, it).value == it && !ItemAt(buf, max, c, it).cursor.failed
    ensures Legal(it, max) && Stands(buf, c.off, Enc(it)) ==> ItemAt(buf, max, c, it).cursor == Cursor(c.off + |Enc(it)|, false)
  {
    match it
    case AByte(b) => TakeStands(buf, c, [b]);
    case ABool(v) => TakeStands(buf, c, [if v then 1 else 0]);
    case AU32(n) => U32Stands(buf, c);
    case ABytes(b) => BytesStand(buf, max, c, b);
    case AText(b) => BytesStand(buf, max, c, b);
  }

  predicate AllLegal(items: seq<Item>, max: nat) {
    forall i :: 0 <= i < |items| ==> Legal(items[i], max)
  }

  function EncAll(items: seq<Item>): Bytes
    requires AllLegal(items, MAX_U32)
  {
    if items == [] then [] else Enc(items[0]) + EncAll(items[1..])
  }

  /** Decoder calls in the order of the items. */
  function ReadAll(buf: Bytes, max: nat, c: Cursor, like: seq<Item>): Got<seq<Item>>
    requires Inside(buf, c)
    decreases |like|
  {
    if like == [] then Got([], c)
    else
      var head := ItemAt(buf, max, c, like[0]);
      var tail := ReadAll(buf, max, head.cursor, like[1..]);
      Got([head.value] + tail.value, tail.cursor)
  }

  lemma ReadOn(buf: Bytes, max: nat, c: Cursor, items: seq<Item>, head: Got<Item>, tail: Got<seq<Item>>)
    requires Inside(buf, c) && items != [] && ItemAt(buf, max, c, items[0]) == head && head.value == items[0]
    requires ReadAll(buf, max, head.cursor, items[1..]) == tail && tail.value == items[1..]
    ensures ReadAll(buf, max, c, items) == Got(items, tail.cursor)
  {
    assert items == [items[0]] + items[1..];
  }

  lemma {:induction false} AllStand(buf: Bytes, max: nat, c: Cursor, items: seq<Item>)
    requires Inside(buf, c) && !c.failed && max <= MAX_U32 && AllLegal(items, max)
    requires AllLegal(items, MAX_U32) && Stands(buf, c.off, EncAll(items))
    ensures ReadAll(buf, max, c, items) == Got(items, Cursor(c.off + |EncAll(items)|, false))
    decreases |items|
  {
    if items != [] {
      var head, rest := items[0], items[1..];
      var c' := Cursor(c.off + |Enc(head)|, false);
      StandsSplit(buf, c.off, Enc(head), EncAll(rest));
      ItemStands(buf, max, c, head);
      AllStand(buf, max, c', rest);
      ReadOn(buf, max, c, items, Got(head, c'), Got(rest, Cursor(c'.off + |EncAll(rest)|, false)));
    }
  }

  lemma LegalAnyway(items: seq<Item>, max: nat)
    requires AllLegal(items, max) && max <= MAX_U32
    ensures AllLegal(items, MAX_U32)
  {
    forall i | 0 <= i < |items| ensures Legal(items[i], MAX_U32) {
      assert Legal(items[i], max);
    }
  }

  /** Decoding the encoder's output with matching calls gives the items back and reaches the end. */
  lemma RoundTrip(items: seq<Item>, max: nat)
    requires AllLegal(items, max) && max <= MAX_U32
    ensures AllLegal(items, MAX_U32)
    ensures var buf := EncAll(items); ReadAll(buf, max, Cursor(0, false), items) == Got(items, Cursor(|buf|, false))
  {
    LegalAnyway(items, max);
    assert EncAll(items)[0..|EncAll(items)|] == EncAll(items);
    AllStand(EncAll(items), max, Cursor(0, false), items);
  }

  // ----- streams

  /** How a writer answers one Write: it takes this many bytes at most, and may fail afterwards. */
  datatype Answer = Answer(takes: nat, fails: bool)

  /** An io.Writer with its answers to come; when they run out it takes everything. */
  class Sink {
    var written: Bytes
    var answers: seq<Answer>

    constructor (answers: seq<Answer>)
      ensures written == [] && this.answers == answers
    {
      written, this.answers := [], answers;
    }

    method Write(p: Bytes) returns (n: nat, ok: bool)
      modifies this
      ensures n <= |p| && written == old(written) + p[..n] && |answers| <= |old(answers)|
      ensures n < |p| || !ok ==> |answers| < |old(answers)|
    {
      if answers == [] {
        written := written + p;
        assert p[..|p|] == p;
        return |p|, true;
      }
      n := if answers[0].takes < |p| then answers[0].takes else |p|;
      ok := !answers[0].fails;
      written := written + p[..n];
      answers := answers[1..];
    }
  }

  /** What a write left behind: all of p, or less and an error. */
  predicate WroteSome(before: Bytes, after: Bytes, p: Bytes, ok: bool) {
    before <= after && after <= before + p && (ok ==> after == before + p)
  }

  /** writeFull: short writes are repeated until everything is out. */
  method WriteFull(w: Sink, p: Bytes) returns (ok: bool)
    modifies w
    ensures WroteSome(old(w.written), w.written, p, ok)
  {
    var rest := p;
    while rest != []
      invariant |rest| <= |p| && rest == p[|p| - |rest|..]
      invariant w.written == old(w.written) + p[..|p| - |rest|]
      decreases |rest|
    {
      var before := |p| - |rest|;
      var n, fine := w.Write(rest);
      assert p[..before] + rest[..n] == p[..before + n];
      if !fine {
        return false;
      }
      if n == 0 {
        return false;
      }
      rest := rest[n..];
    }
    return true;
  }

  method WriteBytes(w: Sink, b: Bytes) returns (ok: bool)
    modifies w
    ensures |b| > MAX_U32 ==> !ok && w.written == old(w.written)
    ensures |b| <= MAX_U32 ==> WroteSome(old(w.written), w.written, Field(b), ok)
  {
    if |b| > MAX_U32 {
      return false;
    }
    ok := WriteFull(w, U32Bytes(|b|));
    if !ok {
      return false;
    }
    ok := WriteFull(w, b);
  }

  /** Go's conversion of the limit to 32 bits. */
  function Limit(maxBytes: int): nat {
    maxBytes % U32_LIMIT
  }

  /** ReadBytes on a stream that holds src: the string and what follows it. */
  function ReadBytes(src: Bytes, maxBytes: int): Option<(Bytes, Bytes)> {
    if |src| < 4 then None
    else
      var n := U32Of(src[..4]);
      if maxBytes != 0 && n > Limit(maxBytes) then None
      else if |src| < 4 + n then None
      else Some((src[4..4 + n], src[4 + n..]))
  }

  /** Reading undoes writing, exactly for strings within the limit as 32 bits see it. */
  lemma ReadWritten(b: Bytes, rest: Bytes, maxBytes: int)
    requires |b| <= MAX_U32
    ensures ReadBytes(Field(b) + rest, maxBytes) == if maxBytes == 0 || |b| <= Limit(maxBytes) then Some((b, rest)) else None
  {
    var src := Field(b) + rest;
    assert src[..4] == U32Bytes(|b|);
    U32RoundTrip(|b|);
    assert src[4..4 + |b|] == b && src[4 + |b|..] == rest;
  }
}
