/** Bytes, machine integers and the two byte orders of the wire format. */
module Bytes {

  type Byte = x: int | 0 <= x < 256
  type Uint32 = x: int | 0 <= x < 0x1_0000_0000
  type Uint64 = x: int | 0 <= x < 0x1_0000_0000_0000_0000
  type Int64 = x: int | -0x8000_0000_0000_0000 <= x < 0x8000_0000_0000_0000

  const MAX_UINT32 := 0xFFFF_FFFF
  const MAX_UINT64 := 0xFFFF_FFFF_FFFF_FFFF
  const MAX_INT64 := 0x7FFF_FFFF_FFFF_FFFF
  const MIN_INT64 := -0x8000_0000_0000_0000

  datatype Option<+T> = None | Some(value: T)

  /** Two's-complement wrap-around of a sum of two 64-bit integers. */
  function WrapInt64(x: int): (r: Int64)
    requires 2 * MIN_INT64 <= x <= 2 * MAX_INT64
    ensures MIN_INT64 <= x <= MAX_INT64 ==> r == x
    ensures x > MAX_INT64 ==> r < 0
  {
    if x > MAX_INT64 then x - 0x1_0000_0000_0000_0000
    else if x < MIN_INT64 then x + 0x1_0000_0000_0000_0000
    else x
  }

  /** Conversion of a signed to an unsigned 64-bit integer. */
  function ToUint64(x: Int64): (r: Uint64)
    ensures x >= 0 ==> r == x
    ensures x < 0 ==> r > MAX_INT64
  {
    if x < 0 then x + 0x1_0000_0000_0000_0000 else x
  }

  function Pow256(n: nat): (r: nat)
    ensures r > 0
  {
    if n == 0 then 1 else 256 * Pow256(n - 1)
  }

  /** The number a byte string denotes, least significant byte first. */
  function LittleEndianValue(bs: seq<Byte>): (v: nat)
    ensures v < Pow256(|bs|)
  {
    if bs == [] then 0 else bs[0] + 256 * LittleEndianValue(bs[1..])
  }

  /** The number a byte string denotes, most significant byte first. */
  function BigEndianValue(bs: seq<Byte>): (v: nat)
    ensures v < Pow256(|bs|)
  {
    if bs == [] then 0 else 256 * BigEndianValue(bs[..|bs| - 1]) + bs[|bs| - 1]
  }

  function PutLittleEndian(v: nat, n: nat): (bs: seq<Byte>)
    ensures |bs| == n
  {
    if n == 0 then [] else [v % 256] + PutLittleEndian(v / 256, n - 1)
  }

  function PutBigEndian(v: nat, n: nat): (bs: seq<Byte>)
    ensures |bs| == n
  {
    if n == 0 then [] else PutBigEndian(v / 256, n - 1) + [v % 256]
  }

  lemma {:induction false} PutThenRead(v: nat, n: nat)
    requires v < Pow256(n)
    ensures LittleEndianValue(PutLittleEndian(v, n)) == v
    ensures BigEndianValue(PutBigEndian(v, n)) == v
  {
    if n == 0 {
    } else {
      PutThenRead(v / 256, n - 1);
      assert PutLittleEndian(v, n)[1..] == PutLittleEndian(v / 256, n - 1);
      assert PutBigEndian(v, n)[..n - 1] == PutBigEndian(v / 256, n - 1);
    }
  }

  lemma {:induction false} ReadThenPut(bs: seq<Byte>)
    ensures PutLittleEndian(LittleEndianValue(bs), |bs|) == bs
  {
    if bs == [] {
    } else {
      ReadThenPut(bs[1..]);
      assert bs == [bs[0]] + bs[1..];
    }
  }

  lemma Pow256Values()
    ensures Pow256(1) == 0x100 && Pow256(2) == 0x1_0000 && Pow256(3) == 0x100_0000
    ensures Pow256(4) == 0x1_0000_0000 && Pow256(8) == 0x1_0000_0000_0000_0000
  {
    assert Pow256(3) == 256 * Pow256(2);
    assert Pow256(5) == 256 * Pow256(4);
    assert Pow256(6) == 256 * Pow256(5);
    assert Pow256(7) == 256 * Pow256(6);
  }

  /** Concatenation of byte strings. */
  function Concat(parts: seq<seq<Byte>>): (r: seq<Byte>)
  {
    if parts == [] then [] else parts[0] + Concat(parts[1..])
  }

  lemma {:induction false} ConcatAppend(a: seq<seq<Byte>>, b: seq<seq<Byte>>)
    ensures Concat(a + b) == Concat(a) + Concat(b)
  {
    if a == [] {
      assert a + b == b;
    } else {
      assert (a + b)[1..] == a[1..] + b;
      ConcatAppend(a[1..], b);
    }
  }
}

