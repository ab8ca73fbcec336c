/** The parts of the protobuf wire format that sizes and encodings rest on. */
module Protobuf {
  import opened Types

  /** A protobuf base-128 number, least significant group first. */
  function Varint(n: nat): Bytes {
    if n < 128 then [n] else [128 + n % 128] + Varint(n / 128)
  }

  /** The number at the front of b and what follows it. */
  function ReadVarint(b: Bytes): Option<(nat, Bytes)> {
    if b == [] then None
    else if b[0] < 128 then Some((b[0], b[1..]))
    else
      match ReadVarint(b[1..])
      case None => None
      case Some((high, rest)) => Some((b[0] - 128 + 128 * high, rest))
  }

  lemma {:induction false} VarintRoundTrip(n: nat, rest: Bytes)
    ensures ReadVarint(Varint(n) + rest) == Some((n, rest))
  {
    if n < 128 {
      assert (Varint(n) + rest)[1..] == rest;
    } else {
      assert (Varint(n) + rest)[1..] == Varint(n / 128) + rest;
      VarintRoundTrip(n / 128, rest);
    }
  }

  function VarintSize(n: nat): nat {
    if n < 128 then 1 else 1 + VarintSize(n / 128)
  }

  lemma {:induction false} VarintLength(n: nat)
    ensures |Varint(n)| == VarintSize(n)
  {
    if n >= 128 {
      VarintLength(n / 128);
    }
  }

  lemma {:induction false} VarintGrows(m: nat, n: nat)
    requires m <= n
    ensures VarintSize(m) <= VarintSize(n)
  {
    if m >= 128 {
      VarintGrows(m / 128, n / 128);
    }
  }

  // ----- sizes of fields whose numbers are below 16; proto3 leaves out zero, false and empty ones

  function NumberSize(n: nat): nat {
    if n == 0 then 0 else 1 + VarintSize(n)
  }

  function FlagSize(b: bool): nat {
    if b then 2 else 0
  }

  /** A string or byte string of length n. */
  function TextSize(n: nat): nat {
    if n == 0 then 0 else MessageSize(n)
  }

  /** An embedded message of size n, which is there even when empty. */
  function MessageSize(n: nat): nat {
    1 + VarintSize(n) + n
  }
}
