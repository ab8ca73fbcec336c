/** Types shared by every part of the model. */
module Types {
  type byte = x: int | 0 <= x < 256

  type Bytes = seq<byte>

  datatype Option<+T> = None | Some(value: T)

  const U32_LIMIT := 0x1_0000_0000
  const MAX_U32 := 0xFFFF_FFFF
  const MAX_U64 := 0xFFFF_FFFF_FFFF_FFFF

  /** Go's unsigned 32-bit addition, which wraps. */
  function AddU32(a: nat, b: nat): nat {
    (a + b) % U32_LIMIT
  }

  /** Length in bytes of the UTF-8 form. */
  function ByteLength(s: string): nat {
    if s == "" then 0
    else (if s[0] < '\U{80}' then 1 else if s[0] < '\U{800}' then 2 else if s[0] < '\U{10000}' then 3 else 4) + ByteLength(s[1..])
  }

  /** Total length of a list of frames. */
  function Total(frames: seq<Bytes>): nat {
    if frames == [] then 0 else |frames[0]| + Total(frames[1..])
  }

  lemma {:induction false} TotalConcat(a: seq<Bytes>, b: seq<Bytes>)
    ensures Total(a + b) == Total(a) + Total(b)
  {
    if a == [] {
      assert a + b == b;
    } else {
      assert (a + b)[1..] == a[1..] + b;
      TotalConcat(a[1..], b);
    }
  }

  lemma TotalSingle(frame: Bytes)
    ensures Total([frame]) == |frame|
  {
  }

  /** The sequence without the element at index i. */
  function Drop<T>(s: seq<T>, i: nat): seq<T>
    requires i < |s|
  {
    s[..i] + s[i + 1..]
  }

  lemma TotalDrop(frames: seq<Bytes>, i: nat)
    requires i < |frames|
    ensures Total(frames) == Total(Drop(frames, i)) + |frames[i]|
  {
    assert frames == frames[..i] + [frames[i]] + frames[i + 1..];
    TotalConcat(frames[..i] + [frames[i]], frames[i + 1..]);
    TotalConcat(frames[..i], [frames[i]]);
    TotalConcat(frames[..i], frames[i + 1..]);
  }
}
