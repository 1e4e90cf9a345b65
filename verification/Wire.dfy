/** Session configuration, message headers and the byte strings that bind them. */
module Wire {
  import opened Bytes
  import opened Terms

  const DEFAULT_MAX_SKIP: u32 := 1000
  const MAX_SKIP_MAX: u32 := 100000

  /** The configuration a session is created with. `lowOrder` is the set of public keys that
      X25519 rejects, a property of the curve that the sessions only observe. */
  datatype Config = Config(maxSkip: u32, local: key32, remote: key32, lowOrder: set<key32>)

  function MaxSkip(cfg: Config): u32 {
    if cfg.maxSkip == 0 then DEFAULT_MAX_SKIP else cfg.maxSkip
  }

  /** What a configuration is rejected for: both identity keys are set, or neither is. */
  function Validate(cfg: Config): Option<Error> {
    if cfg.maxSkip > MAX_SKIP_MAX then Some(MaxSkipTooLarge)
    else if (cfg.local == ZERO32) != (cfg.remote == ZERO32) then Some(IdentityKeysIncomplete)
    else None
  }

  /** sender identity followed by receiver identity, or nothing when no identity is set. */
  function IdentityPrefix(cfg: Config, sending: bool): bytes {
    if cfg.local == ZERO32 && cfg.remote == ZERO32 then []
    else if sending then EncodeKey(cfg.local) + EncodeKey(cfg.remote)
    else EncodeKey(cfg.remote) + EncodeKey(cfg.local)
  }

  /** An accepted configuration skips at most 100000 keys and binds two identities or none; a refused
      one is refused for its limit before its identities. */
  lemma ValidateExactly(cfg: Config)
    ensures Validate(cfg).None? <==>
              && MaxSkip(cfg) <= 100_000
              && forall sending :: IdentityPrefix(cfg, sending) == []
                                   || (|IdentityPrefix(cfg, sending)| == 64
                                       && DecodeKey(IdentityPrefix(cfg, sending)[..32]) != 0 && DecodeKey(IdentityPrefix(cfg, sending)[32..]) != 0)
    ensures Validate(cfg) == Some(MaxSkipTooLarge) <==> MaxSkip(cfg) > 100_000
    ensures Validate(cfg).Some? && MaxSkip(cfg) <= 100_000 ==> Validate(cfg) == Some(IdentityKeysIncomplete)
    ensures MaxSkip(cfg) > 0
  {
    PrefixParts(cfg, true);
    PrefixParts(cfg, false);
  }

  /** The prefix names the sender and then the receiver, 32 bytes each. */
  lemma PrefixParts(cfg: Config, sending: bool)
    ensures var p, sender, receiver := IdentityPrefix(cfg, sending), if sending then cfg.local else cfg.remote, if sending then cfg.remote else cfg.local;
            if sender == 0 && receiver == 0 then p == []
            else |p| == 64 && p[..32] == EncodeKey(sender) && p[32..] == EncodeKey(receiver)
                 && DecodeKey(p[..32]) == sender && DecodeKey(p[32..]) == receiver
  {
    DecodeEncodeKey(cfg.local);
    DecodeEncodeKey(cfg.remote);
  }

  /** What one end prepends when sending is what another expects exactly when each names the other:
      the associated data binds the pair of identities. */
  lemma IdentityExactly(a: Config, b: Config)
    ensures IdentityPrefix(a, true) == IdentityPrefix(b, false) <==> a.local == b.remote && a.remote == b.local
  {
    PrefixParts(a, true);
    PrefixParts(b, false);
  }

  /** Two configurations that name each other. */
  predicate Paired(a: Config, b: Config) {
    a.local == b.remote && a.remote == b.local && a.lowOrder == b.lowOrder
  }

  datatype Header = Header(pk: key32, pn: u32, n: u32)

  function EncodeHeader(h: Header): (b: bytes)
    ensures |b| == 40
  {
    EncodeKey(h.pk) + EncodeU32(h.pn) + EncodeU32(h.n)
  }

  function DecodeHeader(b: bytes): Result<Header> {
    if |b| < 40 then Err(InvalidInput)
    else Ok(Header(DecodeKey(b[..32]), DecodeU32(b[32..36]), DecodeU32(b[36..40])))
  }

  lemma DecodeEncodeHeader(h: Header)
    ensures DecodeHeader(EncodeHeader(h)) == Ok(h)
  {
    var b := EncodeHeader(h);
    assert b[..32] == EncodeKey(h.pk) && b[32..36] == EncodeU32(h.pn) && b[36..40] == EncodeU32(h.n);
    DecodeEncodeKey(h.pk);
    DecodeEncodeU32(h.pn);
    DecodeEncodeU32(h.n);
  }

  /** Decoding reads the first 40 bytes only, and encoding restores exactly those. */
  lemma EncodeDecodeHeader(b: bytes)
    ensures DecodeHeader(b).Ok? <==> |b| >= 40
    ensures |b| >= 40 ==> EncodeHeader(DecodeHeader(b).value) == b[..40]
  {
    if |b| >= 40 {
      EncodeDecodeBE(b[..32]);
      EncodeDecodeBE(b[32..36]);
      EncodeDecodeBE(b[36..40]);
      assert b[..40] == b[..32] + b[32..36] + b[36..40];
    }
  }

  lemma EncodeHeaderInjective(h: Header, k: Header)
    requires EncodeHeader(h) == EncodeHeader(k)
    ensures h == k
  {
    DecodeEncodeHeader(h);
    DecodeEncodeHeader(k);
  }

  /** The bytes a message is authenticated with: identity prefix, caller data, header. */
  function BuildAD(cfg: Config, header: bytes, ad: bytes, sending: bool): AuthData {
    Plain(IdentityPrefix(cfg, sending) + ad + header)
  }

  /** Between sessions of the same or of paired configurations, equal associated data means
      equal caller data and equal header: neither can be moved into the other. */
  lemma BuildADInjective(a: Config, b: Config, h: Header, k: Header, x: bytes, y: bytes, sx: bool, sy: bool)
    requires a == b || Paired(a, b)
    requires BuildAD(a, EncodeHeader(h), x, sx) == BuildAD(b, EncodeHeader(k), y, sy)
    ensures h == k && x == y
    ensures IdentityPrefix(a, sx) == IdentityPrefix(b, sy)
  {
    var p, q := IdentityPrefix(a, sx), IdentityPrefix(b, sy);
    SplitEqual(p + x, EncodeHeader(h), q + y, EncodeHeader(k));
    SplitEqual(p, x, q, y);
    EncodeHeaderInjective(h, k);
  }

  /** Between any two sessions, over equally long caller data: equal associated data means equal
      identities, equal caller data and equal header, and the other way round. */
  lemma BuildADExact(a: Config, b: Config, h: Header, k: Header, x: bytes, y: bytes)
    requires |x| == |y|
    ensures BuildAD(a, EncodeHeader(h), x, true) == BuildAD(b, EncodeHeader(k), y, false) <==>
              h == k && x == y && a.local == b.remote && a.remote == b.local
  {
    hide IdentityPrefix;
    var p, q := IdentityPrefix(a, true), IdentityPrefix(b, false);
    IdentityExactly(a, b);
    if BuildAD(a, EncodeHeader(h), x, true) == BuildAD(b, EncodeHeader(k), y, false) {
      SplitEqual(p + x, EncodeHeader(h), q + y, EncodeHeader(k));
      SplitEqual(p, x, q, y);
      EncodeHeaderInjective(h, k);
    }
  }

  /** The same for any encoding of one header. */
  lemma OtherIdentities(a: Config, b: Config, header: bytes, ad: bytes)
    ensures BuildAD(a, header, ad, true) == BuildAD(b, header, ad, false) <==> a.local == b.remote && a.remote == b.local
    ensures IdentityPrefix(a, true) + ad == IdentityPrefix(b, false) + ad <==> a.local == b.remote && a.remote == b.local
  {
    hide IdentityPrefix;
    var p, q := IdentityPrefix(a, true), IdentityPrefix(b, false);
    IdentityExactly(a, b);
    if p + ad + header == q + ad + header {
      SplitEqual(p + ad, header, q + ad, header);
      SplitEqual(p, ad, q, ad);
    } else if p + ad == q + ad {
      SplitEqual(p, ad, q, ad);
    }
  }

  lemma PairedPrefix(a: Config, b: Config)
    requires Paired(a, b)
    ensures IdentityPrefix(a, true) == IdentityPrefix(b, false)
  {}

  /** The 36-byte string under which the store files a skipped key. */
  function StorageKey(pk: key32, n: u32): bytes {
    EncodeKey(pk) + EncodeU32(n)
  }

  lemma StorageKeyInjective(pk: key32, n: u32, pk': key32, n': u32)
    requires StorageKey(pk, n) == StorageKey(pk', n')
    ensures pk == pk' && n == n'
  {
    SplitEqual(EncodeKey(pk), EncodeU32(n), EncodeKey(pk'), EncodeU32(n'));
    EncodeKeyInjective(pk, pk');
    EncodeU32Injective(n, n');
  }

  /** Header of the sparse post-quantum ratchet: an opaque message and a counter. */
  datatype SckaHeader = SckaHeader(msg: bytes, n: u32)

  /** The length field is the message length truncated to 32 bits. */
  function EncodeSckaHeader(h: SckaHeader): bytes {
    EncodeU32(|h.msg| % 0x1_0000_0000) + h.msg + EncodeU32(h.n)
  }

  function EncodeTripleHeader(ec: Header, pq: SckaHeader): bytes {
    EncodeHeader(ec) + EncodeSckaHeader(pq)
  }

  lemma EncodeSckaHeaderInjective(h: SckaHeader, k: SckaHeader)
    requires EncodeSckaHeader(h) == EncodeSckaHeader(k)
    ensures h == k
  {
    SplitEqual(EncodeU32(|h.msg| % 0x1_0000_0000) + h.msg, EncodeU32(h.n), EncodeU32(|k.msg| % 0x1_0000_0000) + k.msg, EncodeU32(k.n));
    SplitEqual(EncodeU32(|h.msg| % 0x1_0000_0000), h.msg, EncodeU32(|k.msg| % 0x1_0000_0000), k.msg);
    EncodeU32Injective(h.n, k.n);
  }

  /** The caller's data precedes a header of varying length, so equal associated data does not
      by itself mean equal parts: it does exactly when the caller's data has the same length. */
  lemma SckaADExact(a: Config, b: Config, h: SckaHeader, k: SckaHeader, x: bytes, y: bytes, sx: bool, sy: bool)
    requires a == b || Paired(a, b)
    requires BuildAD(a, EncodeSckaHeader(h), x, sx) == BuildAD(b, EncodeSckaHeader(k), y, sy)
    ensures h == k && x == y <==> |x| == |y|
  {
    if |x| == |y| {
      var p, q := IdentityPrefix(a, sx), IdentityPrefix(b, sy);
      SplitEqual(p + x, EncodeSckaHeader(h), q + y, EncodeSckaHeader(k));
      SplitEqual(p, x, q, y);
      EncodeSckaHeaderInjective(h, k);
    }
  }

  lemma EncodeSmall(x: byte)
    ensures EncodeU32(x) == [0, 0, 0, x]
  {
    assert EncodeBE(0, 1) == EncodeBE(0, 0) + [0];
    assert EncodeBE(0, 2) == EncodeBE(0, 1) + [0];
    assert EncodeBE(0, 3) == EncodeBE(0, 2) + [0];
    assert EncodeBE(x, 4) == EncodeBE(0, 3) + [x];
  }

  /** Two different pairs of caller data and header with the same associated data. */
  lemma SckaADAmbiguous(cfg: Config, n: u32, sending: bool)
    ensures BuildAD(cfg, EncodeSckaHeader(SckaHeader([0, 0, 0, 0], n)), [], sending)
            == BuildAD(cfg, EncodeSckaHeader(SckaHeader([], n)), [0, 0, 0, 4], sending)
  {
    hide IdentityPrefix, EncodeU32;
    var p := IdentityPrefix(cfg, sending);
    EncodeSmall(4);
    EncodeSmall(0);
    assert p + [] + ([0, 0, 0, 4] + [0, 0, 0, 0] + EncodeU32(n)) == p + [0, 0, 0, 4] + ([0, 0, 0, 0] + [] + EncodeU32(n));
  }

  /** The same holds of the composite header. */
  lemma TripleADExact(a: Config, b: Config, h: Header, hs: SckaHeader, k: Header, ks: SckaHeader, x: bytes, y: bytes, sx: bool, sy: bool)
    requires a == b || Paired(a, b)
    requires BuildAD(a, EncodeTripleHeader(h, hs), x, sx) == BuildAD(b, EncodeTripleHeader(k, ks), y, sy)
    ensures h == k && hs == ks && x == y <==> |x| == |y|
  {
    if |x| == |y| {
      var p, q := IdentityPrefix(a, sx), IdentityPrefix(b, sy);
      SplitEqual(p + x, EncodeTripleHeader(h, hs), q + y, EncodeTripleHeader(k, ks));
      SplitEqual(p, x, q, y);
      SplitEqual(EncodeHeader(h), EncodeSckaHeader(hs), EncodeHeader(k), EncodeSckaHeader(ks));
      EncodeHeaderInjective(h, k);
      EncodeSckaHeaderInjective(hs, ks);
    }
  }

  /** And two such pairs for the composite header: the elliptic-curve header can be taken for
      caller data. */
  lemma TripleADAmbiguous(cfg: Config, h: Header, n: u32, sending: bool)
    ensures BuildAD(cfg, EncodeTripleHeader(h, SckaHeader(EncodeHeader(h) + [0, 0, 0, 0], n)), [], sending)
            == BuildAD(cfg, EncodeTripleHeader(h, SckaHeader([], n)), EncodeHeader(h) + [0, 0, 0, 44], sending)
  {
    hide IdentityPrefix, EncodeU32, EncodeHeader;
    var p, e := IdentityPrefix(cfg, sending), EncodeHeader(h);
    EncodeSmall(44);
    EncodeSmall(0);
    assert p + [] + (e + ([0, 0, 0, 44] + (e + [0, 0, 0, 0]) + EncodeU32(n)))
           == p + (e + [0, 0, 0, 44]) + (e + ([0, 0, 0, 0] + [] + EncodeU32(n)));
  }
}
