/** The parser for unencrypted OpenSSH Ed25519 private keys, and the serializer whose image it accepts. */
module OpensshKey {
  import opened Types
  import opened Bincoder

  /** A keypair: public key, private seed and comment. */
  datatype Keypair = Keypair(public: Bytes, private: Bytes, comment: Bytes)

  /** The fixed texts of the format. */
  datatype Names = Names(magic: Bytes, none: Bytes, keyType: Bytes)

  /** "openssh-key-v1" and a zero byte, "none", "ssh-ed25519" */
  const NAMES := Names([111, 112, 101, 110, 115, 115, 104, 45, 107, 101, 121, 45, 118, 49, 0],
                       [110, 111, 110, 101],
                       [115, 115, 104, 45, 101, 100, 50, 53, 53, 49, 57])

  const FIELD_LIMIT := 16384
  const PUBLIC_LIMIT := 1024
  const KEY_SIZE := 32
  const PRIVATE_SIZE := 64

  predicate AllAscii(b: Bytes) {
    forall i :: 0 <= i < |b| ==> b[i] < 128
  }

  /** All that matters about the texts. */
  predicate Plain(names: Names) {
    AllAscii(names.none) && AllAscii(names.keyType) && |names.none| <= 16 && |names.keyType| <= 16
  }

  lemma NamesPlain()
    ensures Plain(NAMES)
  {
  }

  lemma {:induction false} Ascii(b: Bytes)
    requires AllAscii(b)
    ensures ValidUtf8(b)
  {
    if b != [] {
      Ascii(b[1..]);
    }
  }

  /** The bytes 1, 2, 3, and so on, as bytes count. */
  function Padding(n: nat): Bytes {
    seq(n, i requires 0 <= i < n => (i + 1) % 256)
  }

  method ValidPadding(padding: Bytes) returns (ok: bool)
    ensures ok <==> padding == Padding(|padding|)
  {
    for i := 0 to |padding|
      invariant forall k :: 0 <= k < i ==> padding[k] == (k + 1) % 256
    {
      if padding[i] != (i + 1) % 256 {
        assert padding[i] != Padding(|padding|)[i];
        return false;
      }
    }
    return true;
  }

  // ----- the serializer

  function PublicItems(names: Names, public: Bytes): seq<Item> {
    [AText(names.keyType), ABytes(public)]
  }

  function PrivateItems(names: Names, kp: Keypair, check: nat): seq<Item> {
    [AU32(check), AU32(check), AText(names.keyType), ABytes(kp.public), ABytes(kp.private + kp.public), AText(kp.comment)]
  }

  function FileItems(names: Names, publicBlob: Bytes, privateBlob: Bytes): seq<Item> {
    [AText(names.none), AText(names.none), ABytes([]), AU32(1), ABytes(publicBlob), ABytes(privateBlob)]
  }

  /** A keypair the format can hold: sizes, matching halves and a readable comment. */
  predicate Proper(derive: Bytes -> Bytes, kp: Keypair) {
    && |kp.public| == KEY_SIZE && |kp.private| == KEY_SIZE && derive(kp.private) == kp.public
    && |kp.comment| <= FIELD_LIMIT && ValidUtf8(kp.comment)
  }

  lemma PrivateLegal(names: Names, kp: Keypair, check: nat)
    requires Plain(names) && |kp.public| == KEY_SIZE && |kp.private| == KEY_SIZE && check < U32_LIMIT
    requires |kp.comment| <= FIELD_LIMIT && ValidUtf8(kp.comment)
    ensures AllLegal(PrivateItems(names, kp, check), FIELD_LIMIT) && AllLegal(PrivateItems(names, kp, check), MAX_U32)
  {
    Ascii(names.keyType);
  }

  lemma PublicLegal(names: Names, public: Bytes)
    requires Plain(names) && |public| == KEY_SIZE
    ensures AllLegal(PublicItems(names, public), PUBLIC_LIMIT) && AllLegal(PublicItems(names, public), MAX_U32)
    ensures |EncAll(PublicItems(names, public))| <= PUBLIC_LIMIT
  {
    Ascii(names.keyType);
    var items := PublicItems(names, public);
    assert items[1..] == [ABytes(public)] && [ABytes(public)][1..] == [];
    assert EncAll([ABytes(public)]) == Field(public) + EncAll([]);
    assert EncAll(items) == Field(names.keyType) + EncAll([ABytes(public)]);
  }

  lemma FileLegal(names: Names, publicBlob: Bytes, privateBlob: Bytes)
    requires Plain(names) && |publicBlob| <= FIELD_LIMIT && |privateBlob| <= FIELD_LIMIT
    ensures AllLegal(FileItems(names, publicBlob, privateBlob), FIELD_LIMIT)
    ensures AllLegal(FileItems(names, publicBlob, privateBlob), MAX_U32)
  {
    Ascii(names.none);
  }

  function PublicBlob(names: Names, kp: Keypair): (b: Bytes)
    requires Plain(names) && |kp.public| == KEY_SIZE
    ensures |b| <= PUBLIC_LIMIT
  {
    PublicLegal(names, kp.public);
    EncAll(PublicItems(names, kp.public))
  }

  function PrivateBlob(derive: Bytes -> Bytes, names: Names, kp: Keypair, check: nat, pad: nat): Bytes
    requires Plain(names) && Proper(derive, kp) && check < U32_LIMIT
  {
    PrivateLegal(names, kp, check);
    EncAll(PrivateItems(names, kp, check)) + Padding(pad)
  }

  /** The private part has room in its field. */
  predicate Roomy(derive: Bytes -> Bytes, names: Names, kp: Keypair, check: nat, pad: nat) {
    Plain(names) && Proper(derive, kp) && check < U32_LIMIT && |PrivateBlob(derive, names, kp, check, pad)| <= FIELD_LIMIT
  }

  function Serialize(derive: Bytes -> Bytes, names: Names, kp: Keypair, check: nat, pad: nat): Bytes
    requires Roomy(derive, names, kp, check, pad)
  {
    FileLegal(names, PublicBlob(names, kp), PrivateBlob(derive, names, kp, check, pad));
    names.magic + EncAll(FileItems(names, PublicBlob(names, kp), PrivateBlob(derive, names, kp, check, pad)))
  }

  // ----- the parser

  /** The calls made on each part: only the kinds of these items matter. */
  function PublicCalls(names: Names): seq<Item> {
    PublicItems(names, [])
  }

  function PrivateCalls(names: Names): seq<Item> {
    PrivateItems(names, Keypair([], [], []), 0)
  }

  function FileCalls(names: Names): seq<Item> {
    FileItems(names, [], [])
  }

  const START := Cursor(0, false)

  function ParsePublic(names: Names, blob: Bytes): Option<Bytes> {
    var g := ReadAll(blob, PUBLIC_LIMIT, START, PublicCalls(names));
    if g.cursor != Cursor(|blob|, false) then None else PublicOf(names, g.value)
  }

  function PublicOf(names: Names, v: seq<Item>): Option<Bytes> {
    if |v| == 2 && v[0] == AText(names.keyType) && v[1].ABytes? && |v[1].bytes| == KEY_SIZE then Some(v[1].bytes) else None
  }

  function ParsePrivate(derive: Bytes -> Bytes, names: Names, blob: Bytes): Option<Keypair> {
    var g := ReadAll(blob, FIELD_LIMIT, START, PrivateCalls(names));
    if g.cursor.failed || g.cursor.off > |blob| || blob[g.cursor.off..] != Padding(|blob| - g.cursor.off) then None
    else KeypairOf(derive, names, g.value)
  }

  predicate PrivateShaped(v: seq<Item>) {
    |v| == 6 && v[0].AU32? && v[1].AU32? && v[2].AText? && v[3].ABytes? && v[4].ABytes? && v[5].AText?
  }

  /** The checks on the fields of the private part. */
  function KeypairOf(derive: Bytes -> Bytes, names: Names, v: seq<Item>): Option<Keypair> {
    if !PrivateShaped(v) then None
    else
      var public, private := v[3].bytes, v[4].bytes;
      if v[0].n != v[1].n || v[2].bytes != names.keyType || |public| != KEY_SIZE || |private| != PRIVATE_SIZE then None
      else if private[KEY_SIZE..] != public || derive(private[..KEY_SIZE]) != public then None
      else Some(Keypair(public, private[..KEY_SIZE], v[5].bytes))
  }

  function ParseKey(derive: Bytes -> Bytes, names: Names, key: Bytes): Option<Keypair> {
    var g := ReadAll(key, FIELD_LIMIT, ExpectAt(key, START, names.magic), FileCalls(names));
    if g.cursor != Cursor(|key|, false) then None else FromFile(derive, names, g.value)
  }

  predicate FileShaped(names: Names, v: seq<Item>) {
    && |v| == 6 && v[0] == AText(names.none) && v[1] == AText(names.none) && v[2] == ABytes([]) && v[3] == AU32(1)
    && v[4].ABytes? && v[5].ABytes?
  }

  function FromFile(derive: Bytes -> Bytes, names: Names, v: seq<Item>): Option<Keypair> {
    if !FileShaped(names, v) then None
    else
      match ParsePublic(names, v[4].bytes)
      case None => None
      case Some(public) =>
        match ParsePrivate(derive, names, v[5].bytes)
        case None => None
        case Some(kp) => if public == kp.public then Some(kp) else None
  }

  // ----- what reading a list of items amounts to

  predicate SameKind(a: Item, b: Item) {
    (a.AByte? <==> b.AByte?) && (a.ABool? <==> b.ABool?) && (a.AU32? <==> b.AU32?) && (a.ABytes? <==> b.ABytes?) && (a.AText? <==> b.AText?)
  }

  predicate SameKinds(a: seq<Item>, b: seq<Item>) {
    |a| == |b| && forall i :: 0 <= i < |a| ==> SameKind(a[i], b[i])
  }

  lemma {:induction false} KindsOnly(buf: Bytes, max: nat, c: Cursor, a: seq<Item>, b: seq<Item>)
    requires Inside(buf, c) && SameKinds(a, b)
    ensures ReadAll(buf, max, c, a) == ReadAll(buf, max, c, b)
    decreases |a|
  {
    if a != [] {
      KindsOnly(buf, max, ItemAt(buf, max, c, a[0]).cursor, a[1..], b[1..]);
    }
  }

  lemma ItemKind(buf: Bytes, max: nat, c: Cursor, like: Item)
    requires Inside(buf, c)
    ensures SameKind(ItemAt(buf, max, c, like).value, like)
  {
  }

  /** A reading that succeeds found exactly the encoding of what it returned. */
  lemma {:induction false} ReadStands(buf: Bytes, max: nat, c: Cursor, like: seq<Item>)
    requires Inside(buf, c) && !c.failed && max <= MAX_U32 && !ReadAll(buf, max, c, like).cursor.failed
    ensures var g := ReadAll(buf, max, c, like);
            && SameKinds(g.value, like) && AllLegal(g.value, max) && AllLegal(g.value, MAX_U32)
            && Stands(buf, c.off, EncAll(g.value)) && g.cursor.off == c.off + |EncAll(g.value)|
    decreases |like|
  {
    if like != [] {
      var head := ItemAt(buf, max, c, like[0]);
      var tail := ReadAll(buf, max, head.cursor, like[1..]);
      HeadReads(buf, max, c, like);
      ItemKind(buf, max, c, like[0]);
      ItemStands(buf, max, c, head.value);
      assert ItemAt(buf, max, c, head.value) == head;
      ReadStands(buf, max, head.cursor, like[1..]);
      Glue(buf, max, c.off, head.value, tail.value, like);
    }
  }

  lemma Glue(buf: Bytes, max: nat, off: nat, head: Item, tail: seq<Item>, like: seq<Item>)
    requires like != [] && SameKind(head, like[0]) && SameKinds(tail, like[1..]) && Legal(head, max) && Legal(head, MAX_U32)
    requires AllLegal(tail, max) && AllLegal(tail, MAX_U32) && max <= MAX_U32
    requires Stands(buf, off, Enc(head)) && Stands(buf, off + |Enc(head)|, EncAll(tail))
    ensures var v := [head] + tail;
            && SameKinds(v, like) && AllLegal(v, max) && AllLegal(v, MAX_U32)
            && Stands(buf, off, EncAll(v)) && |EncAll(v)| == |Enc(head)| + |EncAll(tail)|
  {
    var v := [head] + tail;
    assert v[1..] == tail;
    StandsSplit(buf, off, Enc(head), EncAll(tail));
  }

  lemma {:induction false} FailedStays(buf: Bytes, max: nat, c: Cursor, like: seq<Item>)
    requires Inside(buf, c) && c.failed
    ensures ReadAll(buf, max, c, like).cursor.failed
    decreases |like|
  {
    if like != [] {
      FailedStays(buf, max, ItemAt(buf, max, c, like[0]).cursor, like[1..]);
    }
  }

  lemma HeadReads(buf: Bytes, max: nat, c: Cursor, like: seq<Item>)
    requires Inside(buf, c) && like != [] && !ReadAll(buf, max, c, like).cursor.failed
    ensures !ItemAt(buf, max, c, like[0]).cursor.failed
  {
    if ItemAt(buf, max, c, like[0]).cursor.failed {
      FailedStays(buf, max, ItemAt(buf, max, c, like[0]).cursor, like[1..]);
    }
  }

  lemma WholeStands(buf: Bytes, b: Bytes)
    ensures Stands(buf, 0, b) && |b| == |buf| <==> buf == b
  {
    if |b| == |buf| {
      assert buf[0..|buf|] == buf;
    }
  }

  /** Reading a whole buffer gives these items exactly if the buffer is their encoding. */
  lemma ReadWhole(buf: Bytes, max: nat, items: seq<Item>, like: seq<Item>)
    requires max <= MAX_U32 && SameKinds(items, like) && AllLegal(items, max) && AllLegal(items, MAX_U32)
    ensures buf == EncAll(items) <==> ReadAll(buf, max, START, like) == Got(items, Cursor(|buf|, false))
  {
    WholeStands(buf, EncAll(items));
    KindsOnly(buf, max, START, items, like);
    if buf == EncAll(items) {
      AllStand(buf, max, START, items);
    } else if ReadAll(buf, max, START, like) == Got(items, Cursor(|buf|, false)) {
      ReadStands(buf, max, START, like);
    }
  }

  // ----- the public part

  lemma PublicParses(names: Names, public: Bytes)
    requires Plain(names) && |public| == KEY_SIZE
    ensures AllLegal(PublicItems(names, public), MAX_U32)
    ensures ParsePublic(names, EncAll(PublicItems(names, public))) == Some(public)
  {
    PublicLegal(names, public);
    ReadWhole(EncAll(PublicItems(names, public)), PUBLIC_LIMIT, PublicItems(names, public), PublicCalls(names));
  }

  lemma PublicFound(names: Names, blob: Bytes, public: Bytes)
    requires Plain(names) && ParsePublic(names, blob) == Some(public)
    ensures |public| == KEY_SIZE && AllLegal(PublicItems(names, public), MAX_U32) && blob == EncAll(PublicItems(names, public))
  {
    var g := ReadAll(blob, PUBLIC_LIMIT, START, PublicCalls(names));
    ReadStands(blob, PUBLIC_LIMIT, START, PublicCalls(names));
    assert g.value == PublicItems(names, public);
    WholeStands(blob, EncAll(g.value));
  }

  // ----- the private part

  lemma ItemsOfKeypair(derive: Bytes -> Bytes, names: Names, v: seq<Item>, kp: Keypair)
    requires KeypairOf(derive, names, v) == Some(kp) && AllLegal(v, FIELD_LIMIT)
    ensures v == PrivateItems(names, kp, v[0].n) && Proper(derive, kp) && v[0].n < U32_LIMIT
  {
    assert v[4].bytes == kp.private + kp.public;
    assert Legal(v[0], FIELD_LIMIT) && Legal(v[5], FIELD_LIMIT);
  }

  lemma KeypairOfItems(derive: Bytes -> Bytes, names: Names, kp: Keypair, check: nat)
    requires Proper(derive, kp)
    ensures KeypairOf(derive, names, PrivateItems(names, kp, check)) == Some(kp)
  {
    var private := kp.private + kp.public;
    assert private[KEY_SIZE..] == kp.public && private[..KEY_SIZE] == kp.private;
  }

  lemma PrivateFound(derive: Bytes -> Bytes, names: Names, blob: Bytes, kp: Keypair) returns (check: nat, pad: nat)
    requires Plain(names) && ParsePrivate(derive, names, blob) == Some(kp)
    ensures Proper(derive, kp) && check < U32_LIMIT && blob == PrivateBlob(derive, names, kp, check, pad)
  {
    var g := ReadAll(blob, FIELD_LIMIT, START, PrivateCalls(names));
    ReadStands(blob, FIELD_LIMIT, START, PrivateCalls(names));
    ItemsOfKeypair(derive, names, g.value, kp);
    check, pad := g.value[0].n, |blob| - g.cursor.off;
    assert blob == blob[0..g.cursor.off] + blob[g.cursor.off..];
  }

  lemma PrivateParses(derive: Bytes -> Bytes, names: Names, kp: Keypair, check: nat, pad: nat)
    requires Plain(names) && Proper(derive, kp) && check < U32_LIMIT
    ensures ParsePrivate(derive, names, PrivateBlob(derive, names, kp, check, pad)) == Some(kp)
  {
    var items, blob := PrivateItems(names, kp, check), PrivateBlob(derive, names, kp, check, pad);
    PrivateLegal(names, kp, check);
    var body := EncAll(items);
    assert blob[0..|body|] == body && blob[|body|..] == Padding(pad);
    AllStand(blob, FIELD_LIMIT, START, items);
    KindsOnly(blob, FIELD_LIMIT, START, items, PrivateCalls(names));
    KeypairOfItems(derive, names, kp, check);
  }

  // ----- the whole file

  lemma FileReads(names: Names, items: seq<Item>)
    requires SameKinds(items, FileCalls(names)) && AllLegal(items, FIELD_LIMIT) && AllLegal(items, MAX_U32)
    ensures var key := names.magic + EncAll(items);
            ReadAll(key, FIELD_LIMIT, ExpectAt(key, START, names.magic), FileCalls(names)) == Got(items, Cursor(|key|, false))
  {
    var key := names.magic + EncAll(items);
    AfterMagic(names.magic, EncAll(items));
    AllStand(key, FIELD_LIMIT, Cursor(|names.magic|, false), items);
    KindsOnly(key, FIELD_LIMIT, Cursor(|names.magic|, false), items, FileCalls(names));
  }

  lemma FileParses(derive: Bytes -> Bytes, names: Names, kp: Keypair, check: nat, pad: nat)
    requires Roomy(derive, names, kp, check, pad)
    ensures ParseKey(derive, names, Serialize(derive, names, kp, check, pad)) == Some(kp)
  {
    var items := FileItems(names, PublicBlob(names, kp), PrivateBlob(derive, names, kp, check, pad));
    FileLegal(names, PublicBlob(names, kp), PrivateBlob(derive, names, kp, check, pad));
    FileReads(names, items);
    PublicParses(names, kp.public);
    PrivateParses(derive, names, kp, check, pad);
    assert FromFile(derive, names, items) == Some(kp);
  }

  lemma AfterMagic(magic: Bytes, body: Bytes)
    ensures var key := magic + body; ExpectAt(key, START, magic) == Cursor(|magic|, false) && Stands(key, |magic|, body)
  {
    var key := magic + body;
    assert key[0..|magic|] == magic && key[|magic|..|key|] == body;
  }

  lemma MagicFound(key: Bytes, magic: Bytes)
    requires !ExpectAt(key, START, magic).failed
    ensures ExpectAt(key, START, magic) == Cursor(|magic|, false) && |magic| <= |key| && key == magic + key[|magic|..]
  {
    assert key == key[0..|magic|] + key[|magic|..];
  }

  lemma FileStands(key: Bytes, magic: Bytes, start: Cursor, like: seq<Item>, g: Got<seq<Item>>)
    requires start == ExpectAt(key, START, magic) && g == ReadAll(key, FIELD_LIMIT, start, like) && g.cursor == Cursor(|key|, false)
    ensures AllLegal(g.value, FIELD_LIMIT) && AllLegal(g.value, MAX_U32) && key == magic + EncAll(g.value)
  {
    if start.failed {
      FailedStays(key, FIELD_LIMIT, start, like);
    }
    MagicFound(key, magic);
    ReadStands(key, FIELD_LIMIT, start, like);
    RestStands(key, magic, EncAll(g.value));
  }

  lemma RestStands(key: Bytes, magic: Bytes, body: Bytes)
    requires |magic| <= |key| && key == magic + key[|magic|..] && Stands(key, |magic|, body) && |magic| + |body| == |key|
    ensures key == magic + body
  {
    assert key[|magic|..] == key[|magic|..|magic| + |body|];
  }

  lemma PartsFound(derive: Bytes -> Bytes, names: Names, v: seq<Item>, kp: Keypair) returns (check: nat, pad: nat)
    requires Plain(names) && FromFile(derive, names, v) == Some(kp) && AllLegal(v, FIELD_LIMIT)
    ensures Roomy(derive, names, kp, check, pad)
    ensures v == FileItems(names, PublicBlob(names, kp), PrivateBlob(derive, names, kp, check, pad))
  {
    assert Legal(v[5], FIELD_LIMIT);
    PublicFound(names, v[4].bytes, kp.public);
    check, pad := PrivateFound(derive, names, v[5].bytes, kp);
  }

  lemma FileFound(derive: Bytes -> Bytes, names: Names, key: Bytes, kp: Keypair) returns (check: nat, pad: nat)
    requires Plain(names) && ParseKey(derive, names, key) == Some(kp)
    ensures Roomy(derive, names, kp, check, pad) && key == Serialize(derive, names, kp, check, pad)
  {
    var start := ExpectAt(key, START, names.magic);
    var g := ReadAll(key, FIELD_LIMIT, start, FileCalls(names));
    FileStands(key, names.magic, start, FileCalls(names), g);
    check, pad := PartsFound(derive, names, g.value, kp);
  }

  /** The parser accepts exactly what the serializer can produce, and returns what went in. */
  lemma ParserExact(derive: Bytes -> Bytes, key: Bytes, kp: Keypair)
    ensures ParseKey(derive, NAMES, key) == Some(kp) <==>
              exists check: nat, pad: nat :: Roomy(derive, NAMES, kp, check, pad) && key == Serialize(derive, NAMES, kp, check, pad)
  {
    NamesPlain();
    if ParseKey(derive, NAMES, key) == Some(kp) {
      var check, pad := FileFound(derive, NAMES, key, kp);
    }
    forall check: nat, pad: nat | Roomy(derive, NAMES, kp, check, pad) && key == Serialize(derive, NAMES, kp, check, pad)
      ensures ParseKey(derive, NAMES, key) == Some(kp)
    {
      FileParses(derive, NAMES, kp, check, pad);
    }
  }

  // ----- the parser as it runs, one cursor call after the other

  /** Six calls in a row. */
  function SixCalls(buf: Bytes, max: nat, c: Cursor, like: seq<Item>): Got<seq<Item>>
    requires Inside(buf, c) && |like| == 6
  {
    var g0 := ItemAt(buf, max, c, like[0]);
    var g1 := ItemAt(buf, max, g0.cursor, like[1]);
    var g2 := ItemAt(buf, max, g1.cursor, like[2]);
    var g3 := ItemAt(buf, max, g2.cursor, like[3]);
    var g4 := ItemAt(buf, max, g3.cursor, like[4]);
    var g5 := ItemAt(buf, max, g4.cursor, like[5]);
    Got([g0.value, g1.value, g2.value, g3.value, g4.value, g5.value], g5.cursor)
  }

  lemma OneMore(buf: Bytes, max: nat, c: Cursor, like: seq<Item>)
    requires Inside(buf, c) && like != []
    ensures var g := ItemAt(buf, max, c, like[0]); var t := ReadAll(buf, max, g.cursor, like[1..]);
            ReadAll(buf, max, c, like) == Got([g.value] + t.value, t.cursor)
  {
  }

  lemma SixAreAll(buf: Bytes, max: nat, c: Cursor, like: seq<Item>)
    requires Inside(buf, c) && |like| == 6
    ensures ReadAll(buf, max, c, like) == SixCalls(buf, max, c, like)
  {
    var g0 := ItemAt(buf, max, c, like[0]);
    var g1 := ItemAt(buf, max, g0.cursor, like[1]);
    var g2 := ItemAt(buf, max, g1.cursor, like[2]);
    var g3 := ItemAt(buf, max, g2.cursor, like[3]);
    var g4 := ItemAt(buf, max, g3.cursor, like[4]);
    var g5 := ItemAt(buf, max, g4.cursor, like[5]);
    OneMore(buf, max, c, like);
    OneMore(buf, max, g0.cursor, like[1..]);
    OneMore(buf, max, g1.cursor, like[2..]);
    OneMore(buf, max, g2.cursor, like[3..]);
    OneMore(buf, max, g3.cursor, like[4..]);
    OneMore(buf, max, g4.cursor, like[5..]);
    assert like[1..][1..] == like[2..] && like[2..][1..] == like[3..] && like[3..][1..] == like[4..] && like[4..][1..] == like[5..] && like[5..][1..] == [];
    Flat(g0.value, g1.value, g2.value, g3.value, g4.value, g5.value);
  }

  lemma Flat(a: Item, b: Item, c: Item, d: Item, e: Item, f: Item)
    ensures [a] + ([b] + ([c] + ([d] + ([e] + ([f] + []))))) == [a, b, c, d, e, f]
  {
  }

  lemma TwoAreAll(buf: Bytes, max: nat, c: Cursor, like: seq<Item>)
    requires Inside(buf, c) && |like| == 2
    ensures var g0 := ItemAt(buf, max, c, like[0]); var g1 := ItemAt(buf, max, g0.cursor, like[1]);
            ReadAll(buf, max, c, like) == Got([g0.value, g1.value], g1.cursor)
  {
    OneMore(buf, max, c, like);
    OneMore(buf, max, ItemAt(buf, max, c, like[0]).cursor, like[1..]);
    assert like[1..][1..] == [];
    var g0 := ItemAt(buf, max, c, like[0]);
    assert [g0.value] + ([ItemAt(buf, max, g0.cursor, like[1]).value] + []) == [g0.value, ItemAt(buf, max, g0.cursor, like[1]).value];
  }

  method ParsePublicBlob(names: Names, blob: Bytes) returns (r: Option<Bytes>)
    ensures r == ParsePublic(names, blob)
  {
    TwoAreAll(blob, PUBLIC_LIMIT, START, PublicCalls(names));
    var cursor := new Decoder(blob, PUBLIC_LIMIT);
    var keyType := cursor.Text();
    var public := cursor.BytesField();
    var done := cursor.Done();
    if !done || keyType != names.keyType || |public| != KEY_SIZE {
      return None;
    }
    return Some(public);
  }

  /** The cursor calls on the private part. */
  method ReadPrivateFields(names: Names, cursor: Decoder) returns (check1: nat, check2: nat, keyType: Bytes, public: Bytes, private: Bytes, comment: Bytes)
    requires cursor.Valid()
    modifies cursor
    ensures cursor.Valid()
    ensures ReadAll(cursor.buf, cursor.max, old(cursor.At()), PrivateCalls(names))
         == Got([AU32(check1), AU32(check2), AText(keyType), ABytes(public), ABytes(private), AText(comment)], cursor.At())
  {
    SixAreAll(cursor.buf, cursor.max, cursor.At(), PrivateCalls(names));
    check1 := cursor.U32();
    check2 := cursor.U32();
    keyType := cursor.Text();
    public := cursor.BytesField();
    private := cursor.BytesField();
    comment := cursor.Text();
  }

  method ParsePrivateBlob(derive: Bytes -> Bytes, names: Names, blob: Bytes) returns (r: Option<Keypair>)
    ensures r == ParsePrivate(derive, names, blob)
  {
    var cursor := new Decoder(blob, FIELD_LIMIT);
    var check1, check2, keyType, public, private, comment := ReadPrivateFields(names, cursor);
    if cursor.failed || check1 != check2 || keyType != names.keyType || |public| != KEY_SIZE || |private| != PRIVATE_SIZE {
      return None;
    }
    if private[KEY_SIZE..] != public {
      return None;
    }
    var ok := ValidPadding(blob[cursor.off..]);
    if !ok || derive(private[..KEY_SIZE]) != public {
      return None;
    }
    return Some(Keypair(public, private[..KEY_SIZE], comment));
  }

  /** The cursor calls on the file. */
  method ReadFileFields(names: Names, cursor: Decoder) returns (cipher: Bytes, kdf: Bytes, options: Bytes, numKeys: nat, public: Bytes, private: Bytes)
    requires cursor.Valid()
    modifies cursor
    ensures cursor.Valid()
    ensures ReadAll(cursor.buf, cursor.max, old(cursor.At()), FileCalls(names))
         == Got([AText(cipher), AText(kdf), ABytes(options), AU32(numKeys), ABytes(public), ABytes(private)], cursor.At())
  {
    SixAreAll(cursor.buf, cursor.max, cursor.At(), FileCalls(names));
    cipher := cursor.Text();
    kdf := cursor.Text();
    options := cursor.BytesField();
    numKeys := cursor.U32();
    public := cursor.BytesField();
    private := cursor.BytesField();
  }

  /** parseOpensshPrivateKeyV1 */
  method ParseOpensshPrivateKeyV1(derive: Bytes -> Bytes, names: Names, key: Bytes) returns (r: Option<Keypair>)
    ensures r == ParseKey(derive, names, key)
  {
    var cursor := new Decoder(key, FIELD_LIMIT);
    cursor.Expect(names.magic);
    var cipher, kdf, options, numKeys, publicBlob, privateBlob := ReadFileFields(names, cursor);
    var done := cursor.Done();
    if !done || cipher != names.none || kdf != names.none || options != [] || numKeys != 1 {
      return None;
    }
    var public := ParsePublicBlob(names, publicBlob);
    if public.None? {
      return None;
    }
    r := ParsePrivateBlob(derive, names, privateBlob);
    if r.Some? && public.value != r.value.public {
      return None;
    }
  }
}
