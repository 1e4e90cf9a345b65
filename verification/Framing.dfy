/** The byte layout of ciphertexts and of encrypted headers: block cipher, MAC and key derivation
    are arguments, everything around them is as in the library. */
module Framing {
  import opened Bytes
  import opened Terms
  import opened Padding

  const BLOCK := 16
  const IV_SIZE := 16
  const TAG_SIZE := 32
  const NONCE_MAX: nat := 0xFFFF_FFFF_FFFF_FFFF

  datatype Primitives = Primitives(
    keys: (bytes, bytes) -> (bytes, bytes, bytes),  // encryption key, authentication key and IV of a message key and an info string
    headerKeys: bytes -> (bytes, bytes),            // encryption key and authentication key of a header key
    encrypt: (bytes, bytes, bytes) -> bytes,        // CBC over whole blocks: key, IV, input
    decrypt: (bytes, bytes, bytes) -> bytes,
    mac: (bytes, bytes) -> bytes)                   // key, input

  /** CBC decryption inverts encryption and keeps lengths; IVs and tags have their sizes. */
  ghost predicate Sound(p: Primitives) {
    && (forall k, info :: |p.keys(k, info).2| == IV_SIZE)
    && (forall k, iv, m :: |m| % BLOCK == 0 ==> |p.encrypt(k, iv, m)| == |m| && p.decrypt(k, iv, p.encrypt(k, iv, m)) == m)
    && (forall k, m :: |p.mac(k, m)| == TAG_SIZE)
  }

  datatype FrameError = CiphertextShort | CiphertextLenInvalid | AuthFailed | BadPadding(padding: PaddingError)

  datatype Frame = Text(text: bytes) | Rejected(error: FrameError)

  // ---- Messages ----------------------------------------------------------------------------

  /** IV, CBC ciphertext of the padded text, and the tag over associated data, IV and ciphertext. */
  function Seal(p: Primitives, msgKey: bytes, text: bytes, ad: bytes, info: bytes): bytes {
    var (encKey, authKey, iv) := p.keys(msgKey, info);
    var ct := p.encrypt(encKey, iv, Pad(text, BLOCK));
    iv + ct + p.mac(authKey, ad + iv + ct)
  }

  function Unseal(p: Primitives, msgKey: bytes, data: bytes, ad: bytes, info: bytes): Frame {
    if |data| < IV_SIZE + TAG_SIZE then Rejected(CiphertextShort)
    else
      var (encKey, authKey, _) := p.keys(msgKey, info);
      var iv, ct, tag := data[..IV_SIZE], data[IV_SIZE..|data| - TAG_SIZE], data[|data| - TAG_SIZE..];
      if |ct| == 0 || |ct| % BLOCK != 0 then Rejected(CiphertextLenInvalid)
      else if tag != p.mac(authKey, ad + iv + ct) then Rejected(AuthFailed)
      else match Unpad(p.decrypt(encKey, iv, ct), BLOCK)
        case Bad(e) => Rejected(BadPadding(e))
        case Data(text) => Text(text)
  }

  method Encrypt(p: Primitives, msgKey: bytes, text: bytes, ad: bytes, info: bytes) returns (out: bytes)
    ensures out == Seal(p, msgKey, text, ad, info)
  {
    var (encKey, authKey, iv) := p.keys(msgKey, info);
    var padded := PKCS7Pad(text, BLOCK);
    var ct := p.encrypt(encKey, iv, padded);
    var h := ad;
    h := h + iv;
    h := h + ct;
    var tag := p.mac(authKey, h);
    out := iv;
    out := out + ct;
    out := out + tag;
  }

  method Decrypt(p: Primitives, msgKey: bytes, data: bytes, ad: bytes, info: bytes) returns (r: Frame)
    ensures r == Unseal(p, msgKey, data, ad, info)
  {
    if |data| < IV_SIZE + TAG_SIZE {
      return Rejected(CiphertextShort);
    }
    var (encKey, authKey, _) := p.keys(msgKey, info);
    var iv := data[..IV_SIZE];
    var tagOffset := |data| - TAG_SIZE;
    var ct := data[IV_SIZE..tagOffset];
    var tag := data[tagOffset..];
    if |ct| == 0 || |ct| % BLOCK != 0 {
      return Rejected(CiphertextLenInvalid);
    }
    var h := ad;
    h := h + iv;
    h := h + ct;
    if tag != p.mac(authKey, h) {
      return Rejected(AuthFailed);
    }
    var u := PKCS7Unpad(p.decrypt(encKey, iv, ct), BLOCK);
    r := match u case Bad(e) => Rejected(BadPadding(e)) case Data(text) => Text(text);
  }

  /** The parts of what `Seal` puts out. */
  lemma SealParts(p: Primitives, msgKey: bytes, text: bytes, ad: bytes, info: bytes)
    requires Sound(p)
    ensures var (encKey, authKey, iv) := p.keys(msgKey, info);
            var ct, out := p.encrypt(encKey, iv, Pad(text, BLOCK)), Seal(p, msgKey, text, ad, info);
            && |out| >= IV_SIZE + TAG_SIZE && out[..IV_SIZE] == iv
            && out[IV_SIZE..|out| - TAG_SIZE] == ct && |ct| >= BLOCK && |ct| % BLOCK == 0
            && out[|out| - TAG_SIZE..] == p.mac(authKey, ad + iv + ct)
            && p.decrypt(encKey, iv, ct) == Pad(text, BLOCK)
  {}

  /** 16 bytes of IV, the ciphertext in blocks of 16, and 32 bytes of tag over the caller's data and
      everything before it. */
  lemma SealLayout(p: Primitives, msgKey: bytes, text: bytes, ad: bytes, info: bytes)
    requires Sound(p)
    ensures var (encKey, authKey, iv) := p.keys(msgKey, info);
            var out := Seal(p, msgKey, text, ad, info);
            && |out| > 48 + |text| && |out| <= 64 + |text| && |out| % 16 == 0
            && out[..16] == iv && out[16..|out| - 32] == p.encrypt(encKey, iv, Pad(text, 16))
            && out[|out| - 32..] == p.mac(authKey, ad + out[..|out| - 32])
  {
    hide Pad;
    SealParts(p, msgKey, text, ad, info);
    PadBytes(text, 16);
    var (encKey, authKey, iv) := p.keys(msgKey, info);
    var out, ct := Seal(p, msgKey, text, ad, info), p.encrypt(encKey, iv, Pad(text, 16));
    assert out[..|out| - 32] == iv + ct;
    assert ad + (iv + ct) == ad + iv + ct;
  }

  /** Accepted is exactly what carries the right tag over the caller's data and everything before it
      and decrypts to the padding of the text; and what is rejected is rejected for its length, its
      broken blocks, its tag or its padding, in this order. */
  lemma UnsealExactly(p: Primitives, msgKey: bytes, data: bytes, ad: bytes, info: bytes, text: bytes)
    ensures var r, (encKey, authKey, _) := Unseal(p, msgKey, data, ad, info), p.keys(msgKey, info);
            && (r == Rejected(CiphertextShort) <==> |data| < 48)
            && (r == Rejected(CiphertextLenInvalid) <==> |data| == 48 || (|data| > 48 && |data| % 16 != 0))
            && (|data| > 48 && |data| % 16 == 0 ==>
                 var tagged := data[|data| - 32..] == p.mac(authKey, ad + data[..|data| - 32]);
                 var plain := p.decrypt(encKey, data[..16], data[16..|data| - 32]);
                 && (r == Rejected(AuthFailed) <==> !tagged)
                 && (r == Text(text) <==> tagged && plain == Pad(text, 16))
                 && (tagged && r.Rejected? ==> Unpad(plain, 16).Bad? && r == Rejected(BadPadding(Unpad(plain, 16).error))))
  {
    hide Pad, Unpad;
    if |data| > 48 {
      var plain := p.decrypt(p.keys(msgKey, info).0, data[..16], data[16..|data| - 32]);
      UnpadExactly(plain, text, 16);
      assert data[..|data| - 32] == data[..16] + data[16..|data| - 32];
      assert ad + (data[..16] + data[16..|data| - 32]) == ad + data[..16] + data[16..|data| - 32];
    }
  }

  /** Decryption undoes encryption, for every text, key, info string and associated data. */
  lemma RoundTrip(p: Primitives, msgKey: bytes, text: bytes, ad: bytes, info: bytes)
    requires Sound(p)
    ensures Unseal(p, msgKey, Seal(p, msgKey, text, ad, info), ad, info) == Text(text)
  {
    hide Pad, Unpad, Seal;
    SealParts(p, msgKey, text, ad, info);
    Padding.RoundTrip(text, BLOCK);
  }

  /** Under other associated data a ciphertext is accepted exactly when the MAC does not tell the
      two inputs apart; it then still yields the text. */
  lemma OtherData(p: Primitives, msgKey: bytes, text: bytes, ad: bytes, other: bytes, info: bytes)
    requires Sound(p)
    ensures var (encKey, authKey, iv) := p.keys(msgKey, info);
            var ct := p.encrypt(encKey, iv, Pad(text, BLOCK));
            var r := Unseal(p, msgKey, Seal(p, msgKey, text, ad, info), other, info);
            && (r.Text? <==> p.mac(authKey, other + iv + ct) == p.mac(authKey, ad + iv + ct))
            && (r.Text? ==> r.text == text) && (r.Rejected? ==> r.error == AuthFailed)
  {
    hide Pad, Unpad, Seal;
    SealParts(p, msgKey, text, ad, info);
    Padding.RoundTrip(text, BLOCK);
  }

  /** The MAC covers a plain concatenation, so its input determines the parts exactly among
      associated data of one length. */
  lemma MacInputExact(ad: bytes, iv: bytes, ct: bytes, ad': bytes, iv': bytes, ct': bytes)
    requires |iv| == |iv'| == IV_SIZE && ad + iv + ct == ad' + iv' + ct'
    ensures ad == ad' && iv == iv' && ct == ct' <==> |ad| == |ad'|
  {
    if |ad| == |ad'| {
      SplitEqual(ad + iv, ct, ad' + iv', ct');
      SplitEqual(ad, iv, ad', iv');
    }
  }

  // ---- Headers -----------------------------------------------------------------------------

  class HeaderKey {
    const key: bytes
    var nonceCounter: nat

    constructor (key: bytes)
      requires |key| == 32
      ensures this.key == key && nonceCounter == 0
    {
      this.key, nonceCounter := key, 0;
    }
  }

  predicate IsZero(b: bytes) {
    forall i :: 0 <= i < |b| ==> b[i] == 0
  }

  method IsZeroed(b: bytes) returns (z: bool)
    ensures z == IsZero(b)
  {
    for i := 0 to |b|
      invariant forall k :: 0 <= k < i ==> b[k] == 0
    {
      if b[i] != 0 {
        return false;
      }
    }
    z := true;
  }

  /** The 16-byte nonce of a counter: eight bytes of it, then zeros. */
  function Nonce(counter: nat): (n: bytes)
    ensures |n| == IV_SIZE
  {
    EncodeBE(counter, 8) + Repeat(0, 8)
  }

  function SealHeader(p: Primitives, key: bytes, counter: nat, header: bytes): bytes {
    var (aesKey, macKey) := p.headerKeys(key);
    var ct := p.encrypt(aesKey, Nonce(counter), Pad(header, BLOCK));
    Nonce(counter) + ct + p.mac(macKey, Nonce(counter) + ct)
  }

  /** Encrypts a header under the next nonce of a key. */
  method EncryptHeader(p: Primitives, hk: HeaderKey, header: bytes) returns (err: Option<Error>, out: bytes)
    requires hk.nonceCounter <= NONCE_MAX
    modifies hk
    ensures err == if IsZero(hk.key) then Some(InvalidHeaderKey)
                   else if old(hk.nonceCounter) == NONCE_MAX then Some(InvalidNonceCounter) else None
    ensures err.None? ==> out == SealHeader(p, hk.key, old(hk.nonceCounter), header) && hk.nonceCounter == old(hk.nonceCounter) + 1
    ensures err.Some? ==> hk.nonceCounter == old(hk.nonceCounter)
    ensures hk.nonceCounter <= NONCE_MAX
  {
    out := [];
    var zero := IsZeroed(hk.key);
    if zero {
      return Some(InvalidHeaderKey), [];
    }
    if hk.nonceCounter == NONCE_MAX {
      return Some(InvalidNonceCounter), [];
    }
    var nonce := Nonce(hk.nonceCounter);
    var (aesKey, macKey) := p.headerKeys(hk.key);
    var padded := PKCS7Pad(header, BLOCK);
    var ct := p.encrypt(aesKey, nonce, padded);
    var tag := p.mac(macKey, nonce + ct);
    hk.nonceCounter := hk.nonceCounter + 1;
    out := nonce;
    out := out + ct;
    out := out + tag;
    err := None;
  }

  function OpenHeader(p: Primitives, key: bytes, data: bytes): Option<bytes> {
    if IsZero(key) || |data| < IV_SIZE + TAG_SIZE then None
    else
      var nonce, ct, tag := data[..IV_SIZE], data[IV_SIZE..|data| - TAG_SIZE], data[|data| - TAG_SIZE..];
      var (aesKey, macKey) := p.headerKeys(key);
      if tag != p.mac(macKey, nonce + ct) then None
      else match Unpad(p.decrypt(aesKey, nonce, ct), BLOCK)
        case Bad(_) => None
        case Data(header) => Some(header)
  }

  /** The key is set and the tag belongs to something other than whole blocks, on which the cipher
      would stop. */
  predicate Misaligned(p: Primitives, key: bytes, data: bytes) {
    && !IsZero(key) && |data| >= IV_SIZE + TAG_SIZE && (|data| - IV_SIZE - TAG_SIZE) % BLOCK != 0
    && data[|data| - TAG_SIZE..] == p.mac(p.headerKeys(key).1, data[..|data| - TAG_SIZE])
  }

  method DecryptHeader(p: Primitives, key: bytes, data: bytes) returns (header: Option<bytes>)
    requires !Misaligned(p, key, data)
    ensures header == OpenHeader(p, key, data)
  {
    var zero := IsZeroed(key);
    if zero {
      return None;
    }
    if |data| < IV_SIZE + TAG_SIZE {
      return None;
    }
    var nonce := data[..IV_SIZE];
    var tagOffset := |data| - TAG_SIZE;
    var ct := data[IV_SIZE..tagOffset];
    var tag := data[tagOffset..];
    var (aesKey, macKey) := p.headerKeys(key);
    if tag != p.mac(macKey, nonce + ct) {
      return None;
    }
    var u := PKCS7Unpad(p.decrypt(aesKey, nonce, ct), BLOCK);
    header := match u case Bad(_) => None case Data(h) => Some(h);
  }

  /** Decrypting a header undoes encrypting it, for every header and every key that is set. */
  lemma HeaderRoundTrip(p: Primitives, key: bytes, counter: nat, header: bytes)
    requires Sound(p)
    ensures OpenHeader(p, key, SealHeader(p, key, counter, header)) == if IsZero(key) then None else Some(header)
    ensures !Misaligned(p, key, SealHeader(p, key, counter, header))
  {
    hide Pad, Unpad, Nonce;
    var (aesKey, macKey) := p.headerKeys(key);
    var out, ct := SealHeader(p, key, counter, header), p.encrypt(aesKey, Nonce(counter), Pad(header, BLOCK));
    PadWhole(header);
    assert out[..IV_SIZE] == Nonce(counter) && out[IV_SIZE..|out| - TAG_SIZE] == ct && out[|out| - TAG_SIZE..] == p.mac(macKey, Nonce(counter) + ct);
    Padding.RoundTrip(header, BLOCK);
  }

  /** A sealed header: the counter in eight bytes, most significant first, eight zeros, the ciphertext in
      blocks of 16, and 32 bytes of tag over everything before it. */
  lemma SealedHeaderLayout(p: Primitives, key: bytes, counter: nat, header: bytes)
    requires Sound(p) && counter <= 0xFFFF_FFFF_FFFF_FFFF
    ensures var (aesKey, macKey) := p.headerKeys(key);
            var out := SealHeader(p, key, counter, header);
            && |out| > 48 + |header| && |out| <= 64 + |header| && |out| % 16 == 0
            && DecodeBE(out[..8]) == counter && out[8..16] == [0, 0, 0, 0, 0, 0, 0, 0]
            && out[16..|out| - 32] == p.encrypt(aesKey, out[..16], Pad(header, 16))
            && out[|out| - 32..] == p.mac(macKey, out[..|out| - 32])
  {
    hide Pad;
    PadBytes(header, 16);
    var (aesKey, macKey) := p.headerKeys(key);
    var nonce, out := Nonce(counter), SealHeader(p, key, counter, header);
    var ct := p.encrypt(aesKey, nonce, Pad(header, 16));
    assert out[..16] == nonce && out[16..|out| - 32] == ct && out[..|out| - 32] == nonce + ct && out[|out| - 32..] == p.mac(macKey, nonce + ct);
    assert out[..8] == EncodeBE(counter, 8) && out[8..16] == Repeat(0, 8) == [0, 0, 0, 0, 0, 0, 0, 0];
    assert Pow256(8) == 0x1_0000_0000_0000_0000;
    DecodeEncodeBE(counter, 8);
  }

  /** A header is accepted exactly when the key is set, the tag is right over everything before it, and
      what decrypts is the header's padding; nothing else yields a header, forged or not. */
  lemma OpenHeaderExactly(p: Primitives, key: bytes, data: bytes, header: bytes)
    ensures OpenHeader(p, key, data) == Some(header) <==>
              && !IsZero(key) && |data| >= 48
              && data[|data| - 32..] == p.mac(p.headerKeys(key).1, data[..|data| - 32])
              && p.decrypt(p.headerKeys(key).0, data[..16], data[16..|data| - 32]) == Pad(header, 16)
  {
    hide Pad, Unpad;
    if |data| >= 48 {
      UnpadExactly(p.decrypt(p.headerKeys(key).0, data[..16], data[16..|data| - 32]), header, 16);
      assert data[..|data| - 32] == data[..16] + data[16..|data| - 32];
    }
  }

  lemma PadWhole(data: bytes)
    ensures |Pad(data, BLOCK)| % BLOCK == 0 && |Pad(data, BLOCK)| >= BLOCK
  {}

  /** Different counters give different nonces, so no two sealed headers of a key are equal. */
  lemma NoncesDiffer(p: Primitives, key: bytes, a: nat, b: nat, header: bytes, other: bytes)
    requires a <= NONCE_MAX && b <= NONCE_MAX && a != b
    ensures Nonce(a) != Nonce(b)
    ensures SealHeader(p, key, a, header) != SealHeader(p, key, b, other)
  {
    assert Pow256(8) == NONCE_MAX + 1;
    DecodeEncodeBE(a, 8);
    DecodeEncodeBE(b, 8);
    assert Nonce(a)[..8] == EncodeBE(a, 8) && Nonce(b)[..8] == EncodeBE(b, 8);
    assert SealHeader(p, key, a, header)[..IV_SIZE] == Nonce(a) && SealHeader(p, key, b, other)[..IV_SIZE] == Nonce(b);
  }
}
