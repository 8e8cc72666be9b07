/**
 * Bytes, the fixed-size byte strings that make up the SGX hardware structures,
 * and the little-endian reading of multi-byte integer fields.
 */
module Bytes {
  newtype byte = b: int | 0 <= b < 0x100

  /** `n` zero bytes. */
  function Zeros(n: nat): (z: seq<byte>)
    ensures |z| == n
    ensures forall i | 0 <= i < n :: z[i] == 0
  {
    seq(n, _ => 0)
  }

  type Bytes2 = s: seq<byte> | |s| == 2 witness Zeros(2)
  type Bytes4 = s: seq<byte> | |s| == 4 witness Zeros(4)
  type Bytes16 = s: seq<byte> | |s| == 16 witness Zeros(16)
  type Bytes28 = s: seq<byte> | |s| == 28 witness Zeros(28)
  type Bytes32 = s: seq<byte> | |s| == 32 witness Zeros(32)
  type Bytes60 = s: seq<byte> | |s| == 60 witness Zeros(60)
  type Bytes64 = s: seq<byte> | |s| == 64 witness Zeros(64)
  type Bytes96 = s: seq<byte> | |s| == 96 witness Zeros(96)

  /** The bytes of a C string literal whose characters are all below 256. */
  function Ascii(s: string): (b: seq<byte>)
    ensures |b| == |s|
    ensures forall i | 0 <= i < |s| :: b[i] as int == s[i] as int % 0x100
  {
    seq(|s|, i requires 0 <= i < |s| => (s[i] as int % 0x100) as byte)
  }

  /** 256 to the power `n`: one more than the largest integer `n` bytes hold. */
  function Pow256(n: nat): nat
  {
    if n == 0 then 1 else 0x100 * Pow256(n - 1)
  }

  /** The unsigned integer stored little-endian in `s`, as SGX stores its integer fields. */
  function LittleEndian(s: seq<byte>): nat
  {
    if s == [] then 0 else s[0] as nat + 0x100 * LittleEndian(s[1..])
  }

  /** A little-endian field of `n` bytes holds an integer of `8 * n` bits. */
  lemma {:induction false} LittleEndianBound(s: seq<byte>)
    ensures LittleEndian(s) < Pow256(|s|)
  {
    if s != [] {
      LittleEndianBound(s[1..]);
      assert LittleEndian(s[1..]) + 1 <= Pow256(|s| - 1);
      assert 0x100 * (LittleEndian(s[1..]) + 1) <= 0x100 * Pow256(|s| - 1);
    }
  }
}
