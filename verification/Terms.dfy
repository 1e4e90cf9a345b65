/** Idealised cryptography: keys are free terms, Diffie-Hellman is commutative, and a sealed
    message opens only under the key and the associated data it was sealed with. */
module Terms {
  import opened Bytes

  datatype Option<+T> = None | Some(value: T)

  datatype Error =
    | InvalidInput
    | LowOrderPoint
    | MaxSkipExceeded
    | MaxSkipTooLarge
    | IdentityKeysIncomplete
    | AuthFailure
    | InvalidTransition
    | SessionNotInitialized
    | NoEntropy
    | InvalidHeaderKey
    | InvalidNonceCounter
    | EpochMismatch
    | SkippedKeyNotFound
    | NilProvider
    | ProviderFailure
    | NilHeader
    | SharedSecretTooShort
    | NeverReturns      // not an error of the library: the call does not come back

  datatype Result<+T> = Ok(value: T) | Err(error: Error)

  /** Key material. A private ratchet key is named by the bytes of its public key. */
  datatype Key =
    | Zeroed                                   // an erased buffer, or a key never set
    | Shared(id: nat)                          // a secret both parties hold from the start
    | Foreign(id: nat)                         // a key the network knows
    | RootKey(rk: Key, dh: set<key32>)         // first output of the root KDF
    | ChainKey(rk: Key, dh: set<key32>)        // second output of the root KDF
    | NextHeaderKey(rk: Key, dh: set<key32>)   // third output, header-encryption variant
    | NextChain(ck: Key)
    | MessageKey(ck: Key)
    | PqRoot(rk: Key, output: Key)             // outputs of the SPQR root KDF
    | PqChainA(rk: Key, output: Key)
    | PqChainB(rk: Key, output: Key)
    | PqNext(ck: Key, n: u32)
    | PqMessage(ck: Key, n: u32)
    | SckaOutput(epoch: nat)                   // the key agreed by the SCKA for an epoch
    | Hybrid(pq: Key, ec: Key)

  /** The shared secret of private key `a` and public key `b`. */
  function Dh(a: key32, b: key32): set<key32> {
    {a, b}
  }

  lemma DhCommutes(a: key32, b: key32)
    ensures Dh(a, b) == Dh(b, a)
  {}

  lemma DhInjective(a: key32, b: key32, c: key32)
    requires Dh(a, b) == Dh(a, c)
    ensures b == c
  {
    assert b in Dh(a, c) && c in Dh(a, b);
  }

  /** A chain key advanced `n` times. */
  function Adv(ck: Key, n: nat): Key {
    if n == 0 then ck else NextChain(Adv(ck, n - 1))
  }

  lemma ZeroSteps(ck: Key)
    ensures Adv(ck, 0) == ck
  {}

  lemma AdvNext(ck: Key, n: nat)
    ensures Adv(ck, n + 1) == NextChain(Adv(ck, n))
  {}

  lemma {:induction false} AdvAdv(ck: Key, m: nat, n: nat)
    ensures Adv(Adv(ck, m), n) == Adv(ck, m + n)
  {
    if n > 0 {
      AdvAdv(ck, m, n - 1);
    }
  }

  /** Distinct positions of distinct chains hold distinct keys. */
  lemma {:induction false} AdvInjective(c: Key, m: nat, d: Key, n: nat)
    requires !c.NextChain? && !d.NextChain?
    requires Adv(c, m) == Adv(d, n)
    ensures c == d && m == n
  {
    if m > 0 && n > 0 {
      AdvInjective(c, m - 1, d, n - 1);
    }
  }

  /** Keys the network cannot compute: everything derived from a shared secret. */
  predicate SecretBased(k: Key) {
    match k
    case Zeroed => false
    case Shared(_) => true
    case Foreign(_) => false
    case RootKey(rk, _) => SecretBased(rk)
    case ChainKey(rk, _) => SecretBased(rk)
    case NextHeaderKey(rk, _) => SecretBased(rk)
    case NextChain(ck) => SecretBased(ck)
    case MessageKey(ck) => SecretBased(ck)
    case PqRoot(rk, k) => SecretBased(rk) || SecretBased(k)
    case PqChainA(rk, k) => SecretBased(rk) || SecretBased(k)
    case PqChainB(rk, k) => SecretBased(rk) || SecretBased(k)
    case PqNext(ck, _) => SecretBased(ck)
    case PqMessage(ck, _) => SecretBased(ck)
    case SckaOutput(_) => true
    case Hybrid(pq, ec) => SecretBased(pq) || SecretBased(ec)
  }

  lemma {:induction false} AdvSecretBased(ck: Key, n: nat)
    ensures SecretBased(Adv(ck, n)) == SecretBased(ck)
  {
    if n > 0 {
      AdvSecretBased(ck, n - 1);
    }
  }

  /** Associated data: bytes, or bytes followed by an encrypted header. */
  datatype AuthData = Plain(data: bytes) | WithHeader(data: bytes, header: SealedHeader)

  datatype SealedHeader = SealedHeader(hk: Key, nonce: nat, header: bytes) | JunkHeader(raw: bytes)

  datatype Ciphertext = Sealed(key: Key, ad: AuthData, text: bytes) | Junk(raw: bytes)

  function Open(mk: Key, ct: Ciphertext, ad: AuthData): Option<bytes> {
    if ct.Sealed? && ct.key == mk && ct.ad == ad then Some(ct.text) else None
  }
}
