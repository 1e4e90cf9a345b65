/** PKCS#7 padding (section 6.3 of RFC 5652). */
module Padding {
  import opened Bytes

  datatype PaddingError = EmptyData | InvalidBlockSize | InvalidPadding | InvalidPaddingVal

  datatype Unpadded = Data(data: bytes) | Bad(error: PaddingError)

  /** Number of bytes that fill `n` bytes up to whole blocks; never zero. */
  function PadLength(n: nat, blockSize: nat): (p: nat)
    requires blockSize > 0
    ensures 1 <= p <= blockSize && (n + p) % blockSize == 0
  {
    var p := blockSize - n % blockSize;
    assert n + p == blockSize * (n / blockSize + 1);
    MultipleOf(blockSize, n / blockSize + 1);
    p
  }

  lemma {:induction false} Product(b: nat, d: nat)
    requires d >= 1
    ensures b * d >= b
  {
    if d > 1 {
      Product(b, d - 1);
      assert b * d == b * (d - 1) + b;
    }
  }

  /** Quotient and remainder are determined. */
  lemma DivisionUnique(b: nat, q: nat, r: nat, q': nat, r': nat)
    requires r < b && r' < b && b * q + r == b * q' + r'
    ensures q == q' && r == r'
  {
    if q < q' {
      SmallerQuotient(b, q, r, q');
    } else if q' < q {
      SmallerQuotient(b, q', r', q);
    }
  }

  lemma SmallerQuotient(b: nat, q: nat, r: nat, q': nat)
    requires r < b && q < q'
    ensures b * q + r < b * q'
  {
    Product(b, q' - q);
    assert b * q' == b * q + b * (q' - q);
  }

  lemma MultipleOf(b: nat, k: nat)
    requires b > 0
    ensures (b * k) % b == 0
  {
    var q, r := (b * k) / b, (b * k) % b;
    assert b * k == b * q + r;
    DivisionUnique(b, k, 0, q, r);
  }

  function Repeat(b: byte, n: nat): (s: bytes)
    ensures |s| == n && forall i :: 0 <= i < n ==> s[i] == b
  {
    seq(n, i => b)
  }

  /** Data followed by copies of the pad length, truncated to a byte. */
  function Pad(data: bytes, blockSize: nat): bytes
    requires blockSize > 0
  {
    var p := PadLength(|data|, blockSize);
    data + Repeat(p % 0x100, p)
  }

  function Unpad(data: bytes, blockSize: nat): Unpadded
    requires blockSize > 0
  {
    if data == [] then Bad(EmptyData)
    else if |data| % blockSize != 0 then Bad(InvalidBlockSize)
    else
      var p := data[|data| - 1];
      if p == 0 || p > blockSize then Bad(InvalidPadding)
      else if |data| < p || data[|data| - p..] != Repeat(p, p) then Bad(InvalidPaddingVal)
      else Data(data[..|data| - p])
  }

  /** Padding adds between one and `blockSize` bytes up to whole blocks; each of them is their
      number, truncated to a byte. */
  lemma PadBytes(data: bytes, blockSize: nat)
    requires blockSize > 0
    ensures var padded := Pad(data, blockSize);
            && |padded| % blockSize == 0 && |data| < |padded| <= |data| + blockSize && padded[..|data|] == data
            && forall i :: |data| <= i < |padded| ==> padded[i] == (|padded| - |data|) % 0x100
  {}

  /** What is rejected, and as what: nothing at all, broken blocks, an impossible pad length, and pad
      bytes that differ from it. */
  lemma UnpadRejects(x: bytes, blockSize: nat)
    requires blockSize > 0
    ensures Unpad(x, blockSize) == Bad(EmptyData) <==> x == []
    ensures Unpad(x, blockSize) == Bad(InvalidBlockSize) <==> x != [] && |x| % blockSize != 0
    ensures Unpad(x, blockSize) == Bad(InvalidPadding) <==> x != [] && |x| % blockSize == 0 && !(1 <= x[|x| - 1] <= blockSize)
    ensures Unpad(x, blockSize) == Bad(InvalidPaddingVal) <==>
              && x != [] && |x| % blockSize == 0 && 1 <= x[|x| - 1] <= blockSize
              && exists i :: |x| - x[|x| - 1] <= i < |x| && 0 <= i && x[i] != x[|x| - 1]
  {
    if x != [] && |x| % blockSize == 0 && 1 <= x[|x| - 1] <= blockSize {
      WholeBlocks(|x|, blockSize);
      var p := x[|x| - 1];
      var tail := x[|x| - p..];
      if tail != Repeat(p, p) {
        var k :| 0 <= k < p && tail[k] != p;
        assert x[|x| - p + k] != p;
      }
    }
  }

  method PKCS7Pad(data: bytes, blockSize: nat) returns (padded: bytes)
    requires blockSize > 0
    ensures padded == Pad(data, blockSize)
  {
    var p := blockSize - |data| % blockSize;
    var pad := new byte[p];
    for i := 0 to p
      invariant forall k :: 0 <= k < i ==> pad[k] == p % 0x100
    {
      pad[i] := p % 0x100;
    }
    assert pad[..] == Repeat(p % 0x100, p);
    padded := data + pad[..];
  }

  method PKCS7Unpad(data: bytes, blockSize: nat) returns (r: Unpadded)
    requires blockSize > 0
    ensures r == Unpad(data, blockSize)
  {
    if |data| == 0 {
      return Bad(EmptyData);
    }
    if |data| % blockSize != 0 {
      return Bad(InvalidBlockSize);
    }
    WholeBlocks(|data|, blockSize);
    var p := data[|data| - 1];
    if p == 0 || p > blockSize {
      return Bad(InvalidPadding);
    }
    var i := |data| - p;
    while i < |data|
      invariant |data| - p <= i <= |data|
      invariant forall k :: |data| - p <= k < i ==> data[k] == p
    {
      if data[i] != p {
        assert data[|data| - p..][i - (|data| - p)] != p;
        return Bad(InvalidPaddingVal);
      }
      i := i + 1;
    }
    assert data[|data| - p..] == Repeat(p, p);
    r := Data(data[..|data| - p]);
  }

  /** A non-empty number of whole blocks is at least one block. */
  lemma WholeBlocks(n: nat, blockSize: nat)
    requires blockSize > 0 && n > 0 && n % blockSize == 0
    ensures n >= blockSize
  {}

  /** Unpadding undoes padding exactly when the pad length fits into a byte. */
  lemma RoundTrip(data: bytes, blockSize: nat)
    requires blockSize > 0
    ensures Unpad(Pad(data, blockSize), blockSize) == Data(data) <==> PadLength(|data|, blockSize) < 0x100
  {
    var p, padded := PadLength(|data|, blockSize), Pad(data, blockSize);
    if p < 0x100 {
      assert padded[|data|..] == Repeat(p, p) && padded[..|data|] == data;
    }
  }

  /** For blocks of fewer than 256 bytes, unpadding accepts exactly the padded strings. */
  lemma UnpadExactly(x: bytes, data: bytes, blockSize: nat)
    requires 0 < blockSize < 0x100
    ensures Unpad(x, blockSize) == Data(data) <==> x == Pad(data, blockSize)
  {
    RoundTrip(data, blockSize);
    if Unpad(x, blockSize) == Data(data) {
      var p := x[|x| - 1];
      assert x == data + Repeat(p, p);
      SamePadLength(|data|, p, blockSize);
    }
  }

  lemma SamePadLength(n: nat, p: nat, blockSize: nat)
    requires blockSize > 0 && 1 <= p <= blockSize && (n + p) % blockSize == 0
    ensures p == PadLength(n, blockSize)
  {
    var q := PadLength(n, blockSize);
    var a, b := (n + p) / blockSize, (n + q) / blockSize;
    if p < blockSize && q < blockSize {
      DivisionUnique(blockSize, a, q, b, p);
    } else if p == blockSize && q < blockSize {
      DivisionUnique(blockSize, a - 1, q, b, 0);
    } else if q == blockSize && p < blockSize {
      DivisionUnique(blockSize, b - 1, p, a, 0);
    }
  }
}
