/** Bytes, 32-bit counters and the big-endian encoding shared by every wire format. */
module Bytes {
  type byte = x: int | 0 <= x < 256
  type bytes = seq<byte>
  type u32 = x: int | 0 <= x < 0x1_0000_0000
  /** A 32-byte string, identified with the number it spells in big-endian notation. */
  type key32 = x: int | 0 <= x < 0x1_0000000000000000000000000000000000000000000000000000000000000000

  const U32_MAX: u32 := 0xFFFF_FFFF
  const ZERO32: key32 := 0

  /** The wrap-around increment of an unsigned 32-bit counter. */
  function Inc(x: u32): u32 {
    (x + 1) % 0x1_0000_0000
  }

  /** The `n`-byte big-endian spelling of `x`, keeping its low bytes. */
  function EncodeBE(x: nat, n: nat): (b: bytes)
    ensures |b| == n
  {
    if n == 0 then [] else EncodeBE(x / 0x100, n - 1) + [x % 0x100]
  }

  function DecodeBE(b: bytes): nat {
    if b == [] then 0 else DecodeBE(b[..|b| - 1]) * 0x100 + b[|b| - 1]
  }

  function Pow256(n: nat): nat {
    if n == 0 then 1 else 0x100 * Pow256(n - 1)
  }

  lemma {:induction false} DecodeEncodeBE(x: nat, n: nat)
    requires x < Pow256(n)
    ensures DecodeBE(EncodeBE(x, n)) == x
  {
    if n > 0 {
      DecodeEncodeBE(x / 0x100, n - 1);
      assert EncodeBE(x, n)[..n - 1] == EncodeBE(x / 0x100, n - 1);
    }
  }

  lemma {:induction false} EncodeDecodeBE(b: bytes)
    ensures DecodeBE(b) < Pow256(|b|) && EncodeBE(DecodeBE(b), |b|) == b
  {
    if b != [] {
      EncodeDecodeBE(b[..|b| - 1]);
    }
  }

  lemma Pow256Of32()
    ensures Pow256(32) == 0x1_0000000000000000000000000000000000000000000000000000000000000000
  {
    assert Pow256(8) == 0x1_0000000000000000;
    assert Pow256(16) == 0x1_00000000000000000000000000000000;
    assert Pow256(24) == 0x1_000000000000000000000000000000000000000000000000;
  }

  function EncodeU32(x: u32): (b: bytes)
    ensures |b| == 4
  {
    EncodeBE(x, 4)
  }

  function DecodeU32(b: bytes): u32
    requires |b| == 4
  {
    EncodeDecodeBE(b);
    DecodeBE(b)
  }

  lemma DecodeEncodeU32(x: u32)
    ensures DecodeU32(EncodeU32(x)) == x
  {
    DecodeEncodeBE(x, 4);
  }

  lemma EncodeU32Injective(x: u32, y: u32)
    requires EncodeU32(x) == EncodeU32(y)
    ensures x == y
  {
    DecodeEncodeU32(x);
    DecodeEncodeU32(y);
  }

  function EncodeKey(k: key32): (b: bytes)
    ensures |b| == 32
  {
    EncodeBE(k, 32)
  }

  function DecodeKey(b: bytes): key32
    requires |b| == 32
  {
    EncodeDecodeBE(b);
    Pow256Of32();
    DecodeBE(b)
  }

  lemma DecodeEncodeKey(k: key32)
    ensures DecodeKey(EncodeKey(k)) == k
  {
    Pow256Of32();
    DecodeEncodeBE(k, 32);
  }

  lemma EncodeKeyInjective(k: key32, l: key32)
    requires EncodeKey(k) == EncodeKey(l)
    ensures k == l
  {
    DecodeEncodeKey(k);
    DecodeEncodeKey(l);
  }

  /** Splitting two equal concatenations at parts of equal length. */
  lemma SplitEqual(a: bytes, b: bytes, c: bytes, d: bytes)
    requires a + b == c + d
    requires |a| == |c| || |b| == |d|
    ensures a == c && b == d
  {
    assert |a| == |c|;
    assert a == (a + b)[..|a|] == (c + d)[..|c|] == c;
    assert b == (a + b)[|a|..] == (c + d)[|c|..] == d;
  }
}
