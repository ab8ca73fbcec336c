/** Cutting a byte stream into command data frames: the frames are lossless, legal and as few as can be. */
module Chunking {
  import opened Types
  import opened Protobuf

  datatype Kind = Stdin | Stdout | Stderr

  datatype Result<+T> = Ok(value: T) | Err

  const DEFAULT_MAXIMUM := 16384
  const MAX_DATA := 8388608

  // ----- the wire form of a data frame

  /** The field tags: number and wire type 2 in one byte. */
  function TagOf(kind: Kind): byte {
    match kind
    case Stdin => 18
    case Stdout => 18
    case Stderr => 26
  }

  const DATA_TAG: byte := 10

  function Inner(data: Bytes): Bytes {
    [DATA_TAG] + Varint(|data|) + data
  }

  function Encode(kind: Kind, data: Bytes): Bytes {
    [TagOf(kind)] + Varint(|Inner(data)|) + Inner(data)
  }

  function InnerSize(n: nat): nat {
    1 + VarintSize(n) + n
  }

  /** Encoded size of a frame that carries n bytes. */
  function FrameSize(n: nat): nat {
    1 + VarintSize(InnerSize(n)) + InnerSize(n)
  }

  lemma EncodeLength(kind: Kind, data: Bytes)
    ensures |Encode(kind, data)| == FrameSize(|data|)
  {
    VarintLength(|data|);
    VarintLength(|Inner(data)|);
  }

  lemma SizeGrows(m: nat, n: nat)
    requires m < n
    ensures FrameSize(m) < FrameSize(n)
  {
    VarintGrows(m, n);
    VarintGrows(InnerSize(m), InnerSize(n));
  }

  // ----- reading a data frame back

  /** The length-delimited field with this tag that makes up all of b. */
  function ReadField(tag: byte, b: Bytes): Option<Bytes> {
    if b == [] || b[0] != tag then None
    else
      match ReadVarint(b[1..])
      case None => None
      case Some((n, rest)) => if n == |rest| then Some(rest) else None
  }

  function Decode(kind: Kind, frame: Bytes): Option<Bytes> {
    match ReadField(TagOf(kind), frame)
    case None => None
    case Some(inner) => ReadField(DATA_TAG, inner)
  }

  lemma FieldShape(tag: byte, size: Bytes, body: Bytes)
    ensures var b := [tag] + size + body; b[0] == tag && b[1..] == size + body
  {
  }

  lemma FieldRoundTrip(tag: byte, body: Bytes)
    ensures ReadField(tag, [tag] + Varint(|body|) + body) == Some(body)
  {
    FieldShape(tag, Varint(|body|), body);
    VarintRoundTrip(|body|, body);
  }

  lemma DecodeEncode(kind: Kind, data: Bytes)
    ensures Decode(kind, Encode(kind, data)) == Some(data)
  {
    FieldRoundTrip(TagOf(kind), Inner(data));
    FieldRoundTrip(DATA_TAG, data);
  }

  // ----- what fits

  /** A frame with n bytes is valid and within the maximum. */
  predicate Fits(n: nat, maximum: nat) {
    1 <= n <= MAX_DATA && FrameSize(n) <= maximum
  }

  lemma FitsBelow(m: nat, n: nat, maximum: nat)
    requires 1 <= m <= n && Fits(n, maximum)
    ensures Fits(m, maximum)
  {
    if m < n {
      SizeGrows(m, n);
    }
  }

  /** marshalMessage on a data frame. */
  function Marshal(kind: Kind, data: Bytes, maximum: nat): (r: Result<Bytes>)
    ensures r.Ok? <==> Fits(|data|, maximum)
  {
    EncodeLength(kind, data);
    if Fits(|data|, maximum) then Ok(Encode(kind, data)) else Err
  }

  /** The smallest maximum that can carry data at all. */
  lemma FirstByteFits(maximum: nat)
    ensures Fits(1, maximum) <==> maximum >= 5
  {
    assert VarintSize(1) == 1 && VarintSize(3) == 1;
  }

  function Concat(chunks: seq<Bytes>): Bytes {
    if chunks == [] then [] else chunks[0] + Concat(chunks[1..])
  }

  lemma {:induction false} ConcatAppend(chunks: seq<Bytes>, chunk: Bytes)
    ensures Concat(chunks + [chunk]) == Concat(chunks) + chunk
  {
    if chunks == [] {
      assert chunks + [chunk] == [chunk];
    } else {
      assert (chunks + [chunk])[1..] == chunks[1..] + [chunk];
      ConcatAppend(chunks[1..], chunk);
    }
  }

  /** Chunks that can all be sent, and together are the data. */
  predicate Legal(chunks: seq<Bytes>, data: Bytes, maximum: nat) {
    Concat(chunks) == data && forall i :: 0 <= i < |chunks| ==> Fits(|chunks[i]|, maximum)
  }

  /** Every chunk but the last is as long as any chunk may be. */
  predicate Greedy(chunks: seq<Bytes>, maximum: nat) {
    forall i :: 0 <= i < |chunks| - 1 ==> !Fits(|chunks[i]| + 1, maximum)
  }

  /** The frames carry these chunks. */
  predicate Carry(kind: Kind, frames: seq<Bytes>, chunks: seq<Bytes>) {
    |frames| == |chunks| && forall i :: 0 <= i < |frames| ==> frames[i] == Encode(kind, chunks[i])
  }

  /** The longest prefix of the remaining data that fits; the binary search of chunkedFrames. */
  method LongestFit(kind: Kind, data: Bytes, maximum: nat) returns (best: nat, encoded: Bytes)
    requires data != [] && maximum > 0
    ensures best <= |data| && (best == 0 <==> !Fits(1, maximum))
    ensures best > 0 ==> Fits(best, maximum) && encoded == Encode(kind, data[..best])
    ensures best < |data| ==> !Fits(best + 1, maximum)
  {
    var low, high := 1, if |data| < maximum then |data| else maximum;
    ghost var top := high;
    best, encoded := 0, [];
    while low <= high
      invariant best == low - 1 <= high <= top
      invariant best > 0 ==> Fits(best, maximum) && encoded == Encode(kind, data[..best])
      invariant high < top ==> !Fits(high + 1, maximum)
      decreases high - low
    {
      var mid := low + (high - low) / 2;
      var frame := Marshal(kind, data[..mid], maximum);
      if frame.Ok? {
        best := mid;
        encoded := frame.value;
        low := mid + 1;
      } else {
        high := mid - 1;
      }
    }
    if best > 0 {
      FitsBelow(1, best, maximum);
    }
  }

  /** Where the outer loop stands: what is cut off so far, and what is left. */
  predicate Cutting(kind: Kind, data: Bytes, maximum: nat, frames: seq<Bytes>, chunks: seq<Bytes>, rest: Bytes) {
    && Concat(chunks) + rest == data && Carry(kind, frames, chunks) && Greedy(chunks, maximum)
    && (forall i :: 0 <= i < |chunks| ==> Fits(|chunks[i]|, maximum))
    && (rest != [] && chunks != [] ==> !Fits(|chunks[|chunks| - 1]| + 1, maximum))
  }

  lemma CutConcat(data: Bytes, chunks: seq<Bytes>, rest: Bytes, best: nat)
    requires Concat(chunks) + rest == data && best <= |rest|
    ensures Concat(chunks + [rest[..best]]) + rest[best..] == data
  {
    ConcatAppend(chunks, rest[..best]);
    assert rest == rest[..best] + rest[best..];
    assert Concat(chunks) + rest[..best] + rest[best..] == Concat(chunks) + (rest[..best] + rest[best..]);
  }

  lemma CarryOne(kind: Kind, frames: seq<Bytes>, chunks: seq<Bytes>, chunk: Bytes)
    requires Carry(kind, frames, chunks)
    ensures Carry(kind, frames + [Encode(kind, chunk)], chunks + [chunk])
  {
  }

  lemma GreedyOne(maximum: nat, chunks: seq<Bytes>, chunk: Bytes)
    requires Greedy(chunks, maximum) && (chunks != [] ==> !Fits(|chunks[|chunks| - 1]| + 1, maximum))
    ensures Greedy(chunks + [chunk], maximum)
  {
  }

  lemma CutOff(kind: Kind, data: Bytes, maximum: nat, frames: seq<Bytes>, chunks: seq<Bytes>, rest: Bytes, best: nat)
    requires Cutting(kind, data, maximum, frames, chunks, rest) && 0 < best <= |rest|
    requires Fits(best, maximum) && (best < |rest| ==> !Fits(best + 1, maximum))
    ensures Cutting(kind, data, maximum, frames + [Encode(kind, rest[..best])], chunks + [rest[..best]], rest[best..])
  {
    CutConcat(data, chunks, rest, best);
    CarryOne(kind, frames, chunks, rest[..best]);
    GreedyOne(maximum, chunks, rest[..best]);
  }

  function MaximumOf(limit: int): (m: nat)
    ensures m > 0
  {
    if limit <= 0 then DEFAULT_MAXIMUM else limit
  }

  /** The frames carry chunks that make up the data, all legal, and all but the last of full length. */
  predicate Cut(kind: Kind, frames: seq<Bytes>, chunks: seq<Bytes>, data: Bytes, maximum: nat) {
    Carry(kind, frames, chunks) && Legal(chunks, data, maximum) && Greedy(chunks, maximum)
  }

  /** chunkedFrames */
  method ChunkedFrames(kind: Kind, data: Bytes, limit: int) returns (r: Result<seq<Bytes>>)
    ensures r.Err? <==> data != [] && !Fits(1, MaximumOf(limit))
    ensures r.Ok? ==> exists chunks :: Cut(kind, r.value, chunks, data, MaximumOf(limit))
  {
    ghost var chunks: seq<Bytes> := [];
    if data == [] {
      assert Cut(kind, [], chunks, data, MaximumOf(limit));
      return Ok([]);
    }
    var maximum := MaximumOf(limit);
    var frames, rest := [], data;
    while rest != []
      invariant Cutting(kind, data, maximum, frames, chunks, rest)
      invariant rest == data || Fits(1, maximum)
      decreases |rest|
    {
      var best, encoded := LongestFit(kind, rest, maximum);
      if best == 0 {
        return Err;
      }
      CutOff(kind, data, maximum, frames, chunks, rest, best);
      chunks := chunks + [rest[..best]];
      frames := frames + [encoded];
      rest := rest[best..];
    }
    assert Concat(chunks) + [] == Concat(chunks);
    assert Cut(kind, frames, chunks, data, maximum);
    r := Ok(frames);
  }

  // ----- nobody can do with fewer frames

  lemma {:induction false} ConcatBelow(chunks: seq<Bytes>, bound: nat)
    requires forall i :: 0 <= i < |chunks| ==> |chunks[i]| <= bound
    ensures |Concat(chunks)| <= |chunks| * bound
  {
    if chunks != [] {
      ConcatBelow(chunks[1..], bound);
    }
  }

  lemma {:induction false} ConcatAbove(chunks: seq<Bytes>, bound: nat)
    requires forall i :: 0 <= i < |chunks| ==> |chunks[i]| >= bound
    ensures |Concat(chunks)| >= |chunks| * bound
  {
    if chunks != [] {
      ConcatAbove(chunks[1..], bound);
    }
  }

  /** A chunk that cannot grow is at least as long as any that fits. */
  lemma LongestBounds(m: nat, n: nat, maximum: nat)
    requires !Fits(m + 1, maximum) && Fits(n, maximum)
    ensures n <= m
  {
    if n > m {
      FitsBelow(m + 1, n, maximum);
    }
  }

  /** The greedy chunks are a minimum over all legal ways to cut the data. */
  lemma GreedyIsFewest(data: Bytes, maximum: nat, chunks: seq<Bytes>, other: seq<Bytes>)
    requires Legal(chunks, data, maximum) && Greedy(chunks, maximum) && Legal(other, data, maximum)
    ensures |chunks| <= |other|
  {
    if |chunks| > 1 {
      var init, last := chunks[..|chunks| - 1], chunks[|chunks| - 1];
      assert chunks == init + [last];
      ConcatAppend(init, last);
      var b := |chunks[0]|;
      forall i | 0 <= i < |init| ensures |init[i]| >= b {
        LongestBounds(|chunks[i]|, b, maximum);
      }
      ConcatAbove(init, b);
      forall i | 0 <= i < |other| ensures |other[i]| <= b {
        LongestBounds(b, |other[i]|, maximum);
      }
      ConcatBelow(other, b);
      FewerTimes(|init|, |other|, b, |data|);
    } else if |chunks| == 1 {
      assert data == chunks[0] + [];
    }
  }

  lemma FewerTimes(k: nat, n: nat, b: nat, size: nat)
    requires k * b < size <= n * b
    ensures k < n
  {
    if n <= k {
      Times(n, k, b);
    }
  }

  lemma Times(n: nat, k: nat, b: nat)
    requires n <= k
    ensures n * b <= k * b
  {
  }

  function Payloads(kind: Kind, frames: seq<Bytes>): seq<Option<Bytes>> {
    seq(|frames|, i requires 0 <= i < |frames| => Decode(kind, frames[i]))
  }

  /** Decoding the frames gives the chunks back. */
  lemma FramesRoundTrip(kind: Kind, frames: seq<Bytes>, chunks: seq<Bytes>)
    requires Carry(kind, frames, chunks)
    ensures |Payloads(kind, frames)| == |chunks| && forall i :: 0 <= i < |chunks| ==> Payloads(kind, frames)[i] == Some(chunks[i])
  {
    forall i | 0 <= i < |chunks| ensures Payloads(kind, frames)[i] == Some(chunks[i]) {
      DecodeEncode(kind, chunks[i]);
    }
  }
}
