/** Where each field lies in the byte strings that go over the wire or into a MAC. */
module Layout {
  import opened Bytes
  import opened Terms
  import opened Wire

  /** The most significant byte comes first. */
  lemma {:induction false} MostSignificantFirst(b: byte, rest: bytes)
    ensures DecodeBE([b] + rest) == b * Pow256(|rest|) + DecodeBE(rest)
  {
    if rest != [] {
      var front, last := rest[..|rest| - 1], rest[|rest| - 1];
      MostSignificantFirst(b, front);
      assert ([b] + rest)[..|rest|] == [b] + front;
      ByteShift(b, Pow256(|front|));
    } else {
      assert DecodeBE([b]) == DecodeBE([]) * 0x100 + b;
    }
  }

  lemma ByteShift(b: nat, p: nat)
    ensures b * p * 0x100 == b * (0x100 * p)
  {}

  lemma U32Bytes(x: u32)
    ensures EncodeU32(x) == [x / 0x100_0000, x / 0x1_0000 % 0x100, x / 0x100 % 0x100, x % 0x100]
  {
    var a, b, c := x / 0x100, x / 0x100 / 0x100, x / 0x100 / 0x100 / 0x100;
    assert EncodeBE(c, 1) == EncodeBE(c / 0x100, 0) + [c % 0x100];
    assert EncodeBE(b, 2) == EncodeBE(c, 1) + [b % 0x100];
    assert EncodeBE(a, 3) == EncodeBE(b, 2) + [a % 0x100];
    assert EncodeBE(x, 4) == EncodeBE(a, 3) + [x % 0x100];
  }

  /** A header is 40 bytes: the ratchet key, the length of the previous chain, the number. */
  lemma HeaderLayout(h: Header)
    ensures var b := EncodeHeader(h);
            && |b| == 40 && DecodeKey(b[..32]) == h.pk
            && b[32..36] == [h.pn / 0x100_0000, h.pn / 0x1_0000 % 0x100, h.pn / 0x100 % 0x100, h.pn % 0x100]
            && b[36..] == [h.n / 0x100_0000, h.n / 0x1_0000 % 0x100, h.n / 0x100 % 0x100, h.n % 0x100]
  {
    var b := EncodeHeader(h);
    U32Bytes(h.pn);
    U32Bytes(h.n);
    DecodeEncodeKey(h.pk);
    assert b[..32] == EncodeKey(h.pk) && b[32..36] == EncodeU32(h.pn) && b[36..] == EncodeU32(h.n);
  }

  /** The store's identifiers: the ratchet key, then the number. */
  lemma StorageKeyLayout(pk: key32, n: u32)
    ensures var b := StorageKey(pk, n);
            |b| == 36 && DecodeKey(b[..32]) == pk && b[32..] == [n / 0x100_0000, n / 0x1_0000 % 0x100, n / 0x100 % 0x100, n % 0x100]
  {
    var b := StorageKey(pk, n);
    U32Bytes(n);
    DecodeEncodeKey(pk);
    assert b[..32] == EncodeKey(pk) && b[32..] == EncodeU32(n);
  }

  /** A post-quantum header: four bytes of the message's length, the message, four of the number. */
  lemma SckaHeaderLayout(h: SckaHeader)
    ensures var b, m := EncodeSckaHeader(h), |h.msg| % 0x1_0000_0000;
            && |b| == |h.msg| + 8
            && b[..4] == [m / 0x100_0000, m / 0x1_0000 % 0x100, m / 0x100 % 0x100, m % 0x100]
            && b[4..|b| - 4] == h.msg
            && b[|b| - 4..] == [h.n / 0x100_0000, h.n / 0x1_0000 % 0x100, h.n / 0x100 % 0x100, h.n % 0x100]
  {
    var b, m := EncodeSckaHeader(h), |h.msg| % 0x1_0000_0000;
    U32Bytes(m);
    U32Bytes(h.n);
    assert b[..4] == EncodeU32(m) && b[4..|b| - 4] == h.msg && b[|b| - 4..] == EncodeU32(h.n);
  }

  /** The two headers of the Triple Ratchet, the elliptic-curve one first. */
  lemma TripleHeaderLayout(ec: Header, pq: SckaHeader)
    ensures var b := EncodeTripleHeader(ec, pq);
            |b| == |pq.msg| + 48 && DecodeHeader(b) == Ok(ec) && b[40..] == EncodeSckaHeader(pq)
  {
    hide EncodeHeader, EncodeSckaHeader, DecodeHeader;
    var b := EncodeTripleHeader(ec, pq);
    SckaHeaderLayout(pq);
    assert b[..40] == EncodeHeader(ec) && b[40..] == EncodeSckaHeader(pq);
    DecodePrefix(ec, b);
  }

  lemma DecodePrefix(h: Header, b: bytes)
    requires |b| >= 40 && b[..40] == EncodeHeader(h)
    ensures DecodeHeader(b) == Ok(h)
  {
    EncodeDecodeHeader(b);
    EncodeHeaderInjective(DecodeHeader(b).value, h);
  }

  /** The associated data of a message between bound identities: the sender's key, the receiver's
      key, the caller's data, the header. Unbound, the first two are missing. */
  lemma AssociatedDataLayout(cfg: Config, header: bytes, ad: bytes, sending: bool)
    ensures var sender, receiver := if sending then cfg.local else cfg.remote, if sending then cfg.remote else cfg.local;
            var data := BuildAD(cfg, header, ad, sending);
            && data.Plain?
            && if sender == 0 && receiver == 0 then data.data == ad + header
               else var b := data.data;
                    && |b| == 64 + |ad| + |header| && DecodeKey(b[..32]) == sender && DecodeKey(b[32..64]) == receiver
                    && b[64..64 + |ad|] == ad && b[64 + |ad|..] == header
  {
    hide IdentityPrefix, DecodeKey;
    PrefixParts(cfg, sending);
    var p, b := IdentityPrefix(cfg, sending), BuildAD(cfg, header, ad, sending).data;
    if |p| == 64 {
      assert b[..32] == p[..32] && b[32..64] == p[32..] && b[64..64 + |ad|] == ad && b[64 + |ad|..] == header;
    }
  }
}
