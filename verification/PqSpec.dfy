/** The sparse post-quantum ratchet session as a function on values. What the key-agreement
    provider returns from one call is an argument here. */
module PqSpec {
  import opened Bytes
  import opened Terms
  import opened Wire

  datatype Direction = A2B | B2A

  datatype KdfChain = KdfChain(ck: Key, n: u32)

  datatype ChainPair = ChainPair(send: Option<KdfChain>, recv: Option<KdfChain>)

  datatype State = State(
    rk: Key,
    epoch: u32,
    chains: map<u32, ChainPair>,
    skipped: map<u32, map<u32, Key>>,
    dir: Direction)

  /** The key material in a provider's answer; `ShortKey` is one of fewer than 32 bytes. */
  datatype Output = NoKey | ShortKey | NewKey(key: Key)

  datatype SendOut = SendOut(msg: bytes, epoch: u32, output: Output, keyEpoch: u32)
  datatype RecvOut = RecvOut(epoch: u32, output: Output, keyEpoch: u32)

  function NewPair(rk: Key, output: Key, dir: Direction): ChainPair {
    var a, b := KdfChain(PqChainA(rk, output), 0), KdfChain(PqChainB(rk, output), 0);
    if dir == A2B then ChainPair(Some(a), Some(b)) else ChainPair(Some(b), Some(a))
  }

  /** The initial derivation takes no provider output. */
  function Init(sk: Key, dir: Direction): State {
    State(PqRoot(sk, Zeroed), 0, map[0 := NewPair(sk, Zeroed, dir)], map[], dir)
  }

  /** Drops everything older than the epoch before `reported`. */
  function ClearOld(s: State, reported: u32): State {
    if reported <= 1 then s
    else s.(chains := map e | e in s.chains && e >= reported - 1 :: s.chains[e],
            skipped := map e | e in s.skipped && e >= reported - 1 :: s.skipped[e])
  }

  /** Takes in the provider's output, if there is one. */
  function Advance(s: State, output: Output, keyEpoch: u32, reported: u32): Result<State> {
    if output.NoKey? then Ok(s)
    else if Inc(s.epoch) != keyEpoch then Err(EpochMismatch)
    else if output.ShortKey? then Err(InvalidInput)
    else Ok(ClearOld(s.(rk := PqRoot(s.rk, output.key), epoch := keyEpoch,
                        chains := s.chains[keyEpoch := NewPair(s.rk, output.key, s.dir)]), reported))
  }

  /** Forgets the sending chain of the epoch before the one that is sent in. */
  function DropSend(s: State, sending: u32): State {
    if sending > 0 && sending - 1 in s.chains
    then s.(chains := s.chains[sending - 1 := s.chains[sending - 1].(send := None)])
    else s
  }

  function SendKey(s: State, out: Option<SendOut>): (Result<(bytes, u32, Key)>, State) {
    if out.None? then (Err(ProviderFailure), s)
    else
      var o := out.value;
      match Advance(s, o.output, o.keyEpoch, o.epoch)
      case Err(e) => (Err(e), s)
      case Ok(s1) =>
        var s2 := DropSend(s1, o.epoch);
        if o.epoch !in s2.chains || s2.chains[o.epoch].send.None? then (Err(InvalidTransition), s2)
        else
          var c := s2.chains[o.epoch].send.value;
          var c1 := KdfChain(PqNext(c.ck, c.n), Inc(c.n));
          (Ok((o.msg, c.n, PqMessage(c.ck, c.n))), s2.(chains := s2.chains[o.epoch := s2.chains[o.epoch].(send := Some(c1))]))
  }

  predicate IsSkipped(s: State, epoch: u32, n: u32) {
    epoch in s.skipped && n in s.skipped[epoch]
  }

  /** Removes a skipped key, and its epoch's entry when that was the last. */
  function TakeSkipped(s: State, epoch: u32, n: u32): State
    requires IsSkipped(s, epoch, n)
  {
    var rest := s.skipped[epoch] - {n};
    s.(skipped := if rest == map[] then s.skipped - {epoch} else s.skipped[epoch := rest])
  }

  /** The chain and the skipped keys of its epoch after moving up to `until`. */
  function SkipChain(c: KdfChain, keys: map<u32, Key>, until: u32): (KdfChain, map<u32, Key>)
    decreases until - c.n
  {
    if c.n >= until then (c, keys)
    else SkipChain(KdfChain(PqNext(c.ck, c.n), c.n + 1), keys[c.n := PqMessage(c.ck, c.n)], until)
  }

  function SkippedOf(s: State, epoch: u32): map<u32, Key> {
    if epoch in s.skipped then s.skipped[epoch] else map[]
  }

  /** Files the keys of an epoch's receiving chain below `until`. */
  function Skip(maxSkip: u32, s: State, epoch: u32, until: u32): Result<State> {
    if epoch !in s.chains || s.chains[epoch].recv.None? then Ok(s)
    else
      var c := s.chains[epoch].recv.value;
      if until > c.n && until - c.n > maxSkip then Err(MaxSkipExceeded)
      else if c.n >= until then Ok(s)
      else
        var (c1, keys) := SkipChain(c, SkippedOf(s, epoch), until);
        Ok(s.(chains := s.chains[epoch := s.chains[epoch].(recv := Some(c1))], skipped := s.skipped[epoch := keys]))
  }

  /** Reads position `n` of an epoch's receiving chain, which must be the next one. */
  function ReadNext(s: State, epoch: u32, n: u32): (Result<(u32, Key)>, State) {
    if epoch !in s.chains || s.chains[epoch].recv.None? then (Err(InvalidTransition), s)
    else
      var c := s.chains[epoch].recv.value;
      if c.n != n then (Err(SkippedKeyNotFound), s)
      else
        var c1 := KdfChain(PqNext(c.ck, n), Inc(n));
        (Ok((epoch, PqMessage(c.ck, n))), s.(chains := s.chains[epoch := s.chains[epoch].(recv := Some(c1))]))
  }

  /** The receiving counter would start over: the call reads the largest position off a chain that
      reaches it. */
  predicate Wraps(maxSkip: u32, s: State, out: Option<RecvOut>, n: u32) {
    && n == U32_MAX && out.Some? && Advance(s, out.value.output, out.value.keyEpoch, out.value.epoch).Ok?
    && var t, e := Advance(s, out.value.output, out.value.keyEpoch, out.value.epoch).value, out.value.epoch;
    && !IsSkipped(t, e, n) && e in t.chains && t.chains[e].recv.Some? && n <= t.chains[e].recv.value.n + maxSkip
  }

  /** Unlike the other sessions, an error here leaves what was done before it. */
  function ReceiveKey(maxSkip: u32, s: State, out: Option<RecvOut>, n: u32): (Result<(u32, Key)>, State) {
    if out.None? then (Err(ProviderFailure), s)
    else
      var o := out.value;
      match Advance(s, o.output, o.keyEpoch, o.epoch)
      case Err(e) => (Err(e), s)
      case Ok(s1) =>
        if IsSkipped(s1, o.epoch, n) then (Ok((o.epoch, s1.skipped[o.epoch][n])), TakeSkipped(s1, o.epoch, n))
        else match Skip(maxSkip, s1, o.epoch, n)
          case Err(e) => (Err(e), s1)
          case Ok(s2) => ReadNext(s2, o.epoch, n)
  }

  function Encrypt(cfg: Config, s: State, out: Option<SendOut>, text: bytes, ad: bytes): (Result<(SckaHeader, Ciphertext)>, State) {
    match SendKey(s, out)
    case (Err(e), s1) => (Err(e), s1)
    case (Ok((msg, n, mk)), s1) =>
      var h := SckaHeader(msg, n);
      (Ok((h, Sealed(mk, BuildAD(cfg, EncodeSckaHeader(h), ad, true), text))), s1)
  }

  /** Only a failed authentication restores the state; an error on the way does not. */
  function Decrypt(cfg: Config, s: State, out: Option<RecvOut>, h: SckaHeader, ct: Ciphertext, ad: bytes): (Result<bytes>, State) {
    match ReceiveKey(MaxSkip(cfg), s, out, h.n)
    case (Err(e), s1) => (Err(e), s1)
    case (Ok((_, mk)), s1) =>
      match Open(mk, ct, BuildAD(cfg, EncodeSckaHeader(h), ad, false))
      case None => (Err(AuthFailure), s)
      case Some(text) => (Ok(text), s1)
  }
}
