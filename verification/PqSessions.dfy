/** The sparse post-quantum ratchet session in memory, over any key-agreement provider. */
module PqSessions {
  import opened Bytes
  import opened Terms
  import opened Wire
  import opened PqSpec
  import opened PqMemory
  import opened ReceiveChains

  /** A key-agreement provider: a state, and what it makes of a call. `Snapshot` and `Restore`
      keep the contract the sessions rely on: the whole state, key material included. */
  class Provider<P> {
    var state: P
    const onInit: (P, Key, Direction) -> Option<P>
    const onSend: P -> (P, Option<SendOut>)
    const onReceive: (P, bytes) -> (P, Option<RecvOut>)

    constructor (state: P, onInit: (P, Key, Direction) -> Option<P>,
                 onSend: P -> (P, Option<SendOut>), onReceive: (P, bytes) -> (P, Option<RecvOut>))
      ensures this.state == state && this.onInit == onInit && this.onSend == onSend && this.onReceive == onReceive
    {
      this.state, this.onInit, this.onSend, this.onReceive := state, onInit, onSend, onReceive;
    }

    /** Starts the provider from the shared secret, for either direction; it may refuse. */
    method Init(secret: Key, direction: Direction) returns (ok: bool)
      modifies this
      ensures ok == onInit(old(state), secret, direction).Some?
      ensures state == if ok then onInit(old(state), secret, direction).value else old(state)
    {
      var next := onInit(state, secret, direction);
      ok := next.Some?;
      if ok {
        state := next.value;
      }
    }

    method Send() returns (out: Option<SendOut>)
      modifies this
      ensures (state, out) == onSend(old(state))
    {
      var (next, answer) := onSend(state);
      state, out := next, answer;
    }

    method Receive(msg: bytes) returns (out: Option<RecvOut>)
      modifies this
      ensures (state, out) == onReceive(old(state), msg)
    {
      var (next, answer) := onReceive(state, msg);
      state, out := next, answer;
    }

    method Snapshot() returns (s: P)
      ensures s == state
    {
      s := state;
    }

    method Restore(s: P)
      modifies this
      ensures state == s
    {
      state := s;
    }
  }

  class SPQRSession<P> {
    const config: Config
    const direction: Direction
    const scka: Provider<P>
    var rk: KeyBuffer
    var epoch: u32
    var kdfChains: EpochChains
    var mkSkipped: SkippedKeys

    ghost predicate Valid()
      reads this, kdfChains, kdfChains.repr, mkSkipped, mkSkipped.repr
    {
      && kdfChains.Valid() && mkSkipped.Valid()
      && {this, rk, scka, kdfChains, mkSkipped} !! kdfChains.repr && kdfChains.repr !! mkSkipped.repr
    }

    ghost function Footprint(): set<object>
      reads this, kdfChains, mkSkipped
    {
      {this, rk, scka, kdfChains, mkSkipped} + kdfChains.repr + mkSkipped.repr
    }

    ghost function View(): PqSpec.State
      reads this, rk, kdfChains, mkSkipped
    {
      PqSpec.State(rk.key, epoch, kdfChains.contents, mkSkipped.contents, direction)
    }

    constructor (config: Config, direction: Direction, scka: Provider<P>, rk: KeyBuffer, chains: EpochChains, skipped: SkippedKeys)
      ensures this.config == config && this.direction == direction && this.scka == scka && epoch == 0
      ensures this.rk == rk && kdfChains == chains && mkSkipped == skipped
    {
      this.config, this.direction, this.scka, epoch := config, direction, scka, 0;
      this.rk, kdfChains, mkSkipped := rk, chains, skipped;
    }

    /** Drops every epoch older than the one before `reported`, and erases its keys. */
    method ClearOldEpochs(reported: u32)
      requires Valid()
      modifies kdfChains, kdfChains.repr, mkSkipped, mkSkipped.repr
      ensures Valid() && View() == PqSpec.ClearOld(old(View()), reported)
      ensures kdfChains.repr == old(kdfChains.repr) && mkSkipped.repr == old(mkSkipped.repr)
      ensures forall e :: e in old(kdfChains.pairs) && e + 1 < reported ==> PairErased(old(kdfChains.pairs)[e], old(kdfChains.repr))
      ensures forall e :: e in old(mkSkipped.keys) && e + 1 < reported ==> KeysErased(old(mkSkipped.keys)[e])
    {
      hide EpochChains.Valid, SkippedKeys.Valid;
      if reported <= 1 {
        return;
      }
      kdfChains.ClearBefore(reported - 1);
      mkSkipped.ClearBefore(reported - 1);
    }

    /** Takes in what the provider put out, if anything. */
    method AdvanceEpoch(output: Output, keyEpoch: u32, reported: u32) returns (err: Option<Error>)
      requires Valid()
      modifies `rk, `epoch, kdfChains, kdfChains.repr, mkSkipped, mkSkipped.repr
      ensures Valid() && (rk == old(rk) || fresh(rk)) && fresh(kdfChains.repr - old(kdfChains.repr)) && mkSkipped.repr == old(mkSkipped.repr)
      ensures var spec := PqSpec.Advance(old(View()), output, keyEpoch, reported);
              && (spec.Err? ==> err == Some(spec.error) && View() == old(View()))
              && (spec.Ok? ==> err == None && View() == spec.value)
    {
      hide EpochChains.Valid, SkippedKeys.Valid, PqSpec.ClearOld, PairErased, KeysErased;
      if output.NoKey? {
        return None;
      }
      if Inc(epoch) != keyEpoch {
        return Some(EpochMismatch);
      }
      if output.ShortKey? {
        return Some(InvalidInput);
      }
      var a, b := Some(KdfChain(PqChainA(rk.key, output.key), 0)), Some(KdfChain(PqChainB(rk.key, output.key), 0));
      rk := new KeyBuffer(PqRoot(rk.key, output.key));
      if direction == B2A {
        a, b := b, a;
      }
      kdfChains.Install(keyEpoch, a, b);
      epoch := keyEpoch;
      ClearOldEpochs(reported);
      err := None;
    }

    /** The provider's message, the counter and the key of the next message to send. */
    method SendKey() returns (r: Result<(bytes, u32, Key)>)
      requires Valid()
      modifies Footprint()
      ensures Valid() && fresh(Footprint() - old(Footprint()))
      ensures scka.state == scka.onSend(old(scka.state)).0
      ensures (r, View()) == PqSpec.SendKey(old(View()), scka.onSend(old(scka.state)).1)
    {
      hide EpochChains.Valid, SkippedKeys.Valid, PqSpec.Advance;
      var out := scka.Send();
      if out.None? {
        return Err(ProviderFailure);
      }
      var sending := out.value.epoch;
      var err := AdvanceEpoch(out.value.output, out.value.keyEpoch, sending);
      if err.Some? {
        return Err(err.value);
      }
      r := NextSendKey(out.value.msg, sending);
    }

    /** Forgets the sending chain before the epoch that is sent in, and steps that epoch's. */
    method NextSendKey(msg: bytes, sending: u32) returns (r: Result<(bytes, u32, Key)>)
      requires Valid()
      modifies kdfChains, kdfChains.repr
      ensures Valid() && fresh(kdfChains.repr - old(kdfChains.repr))
      ensures var s := PqSpec.DropSend(old(View()), sending);
              (r, View()) == if sending !in s.chains || s.chains[sending].send.None? then (Err(InvalidTransition), s)
                             else var c := s.chains[sending].send.value;
                                  (Ok((msg, c.n, PqMessage(c.ck, c.n))),
                                   s.(chains := s.chains[sending := s.chains[sending].(send := Some(KdfChain(PqNext(c.ck, c.n), Inc(c.n))))]))
    {
      hide EpochChains.Valid, SkippedKeys.Valid;
      if sending > 0 {
        var there := kdfChains.Has(sending - 1);
        if there {
          kdfChains.DropSend(sending - 1);
        }
      }
      var chain, _ := kdfChains.At(sending);
      if chain.None? {
        return Err(InvalidTransition);
      }
      var c := chain.value;
      r := Ok((msg, c.n, PqMessage(c.ck, c.n)));
      kdfChains.SetSend(sending, KdfChain(PqNext(c.ck, c.n), Inc(c.n)));
    }

    method Encrypt(text: bytes, ad: bytes) returns (r: Result<(SckaHeader, Ciphertext)>)
      requires Valid()
      modifies Footprint()
      ensures Valid() && fresh(Footprint() - old(Footprint()))
      ensures scka.state == scka.onSend(old(scka.state)).0
      ensures (r, View()) == PqSpec.Encrypt(config, old(View()), scka.onSend(old(scka.state)).1, text, ad)
    {
      hide EpochChains.Valid, SkippedKeys.Valid, PqSpec.SendKey, BuildAD, EncodeSckaHeader;
      var k := SendKey();
      if k.Err? {
        return Err(k.error);
      }
      var (msg, n, mk) := k.value;
      var h := SckaHeader(msg, n);
      r := Ok((h, Sealed(mk, BuildAD(config, EncodeSckaHeader(h), ad, true), text)));
    }

    /** Takes a skipped key off its epoch's list, and the list with it when it was the last; the
        stored bytes are erased. */
    method TrySkippedMessageKeys(e: u32, n: u32) returns (mk: Option<Key>)
      requires Valid()
      modifies mkSkipped, mkSkipped.repr
      ensures Valid() && mkSkipped.repr == old(mkSkipped.repr)
      ensures mk.Some? <==> IsSkipped(old(View()), e, n)
      ensures mk.Some? ==> mk.value == old(View()).skipped[e][n] && View() == TakeSkipped(old(View()), e, n)
      ensures mk.Some? ==> e in old(mkSkipped.keys) && n in old(mkSkipped.keys)[e] && old(mkSkipped.keys)[e][n].key == Zeroed
      ensures mk.None? ==> View() == old(View())
    {
      hide EpochChains.Valid, SkippedKeys.Valid;
      mk := mkSkipped.Take(e, n);
    }

    /** Files the keys of an epoch's receiving chain below `until`. */
    method SkipMessageKeysSPQR(e: u32, until: u32) returns (err: Option<Error>)
      requires Valid()
      modifies kdfChains, kdfChains.repr, mkSkipped, mkSkipped.repr
      ensures Valid() && fresh(kdfChains.repr - old(kdfChains.repr)) && fresh(mkSkipped.repr - old(mkSkipped.repr))
      ensures var spec := PqSpec.Skip(MaxSkip(config), old(View()), e, until);
              && (spec.Err? ==> err == Some(spec.error) && View() == old(View()))
              && (spec.Ok? ==> err == None && View() == spec.value)
    {
      hide EpochChains.Valid, SkippedKeys.Valid;
      var _, chain := kdfChains.At(e);
      if chain.None? {
        return None;
      }
      var c := chain.value;
      if until > c.n && until - c.n > MaxSkip(config) {
        return Some(MaxSkipExceeded);
      }
      ghost var s, c0 := View(), c;
      SkipsNone(s, e, c0, until);
      while c.n < until
        invariant Valid() && fresh(kdfChains.repr - old(kdfChains.repr)) && fresh(mkSkipped.repr - old(mkSkipped.repr))
        invariant Skipping(s, View(), e, c0, c, until)
        decreases until - c.n
      {
        ghost var s1 := View();
        var next := KdfChain(PqNext(c.ck, c.n), c.n + 1);
        kdfChains.SetRecv(e, next);
        mkSkipped.Put(e, c.n, PqMessage(c.ck, c.n));
        SkipsOne(s, s1, View(), e, c0, c, until);
        c := next;
      }
      SkipsAll(MaxSkip(config), s, View(), e, c0, c, until);
      err := None;
    }

    /** The epoch and the key of an incoming header. An error leaves what was done before it. */
    method ReceiveKey(h: SckaHeader) returns (r: Result<(u32, Key)>)
      requires Valid()
      modifies Footprint()
      ensures Valid() && fresh(Footprint() - old(Footprint()))
      ensures scka.state == scka.onReceive(old(scka.state), h.msg).0
      ensures (r, View()) == PqSpec.ReceiveKey(MaxSkip(config), old(View()), scka.onReceive(old(scka.state), h.msg).1, h.n)
    {
      hide EpochChains.Valid, SkippedKeys.Valid, PqSpec.Advance, PqSpec.Skip, PqSpec.TakeSkipped, PqSpec.ReadNext;
      var out := scka.Receive(h.msg);
      if out.None? {
        return Err(ProviderFailure);
      }
      var receiving := out.value.epoch;
      var err := AdvanceEpoch(out.value.output, out.value.keyEpoch, receiving);
      if err.Some? {
        return Err(err.value);
      }
      var mk := TrySkippedMessageKeys(receiving, h.n);
      if mk.Some? {
        return Ok((receiving, mk.value));
      }
      err := SkipMessageKeysSPQR(receiving, h.n);
      if err.Some? {
        return Err(err.value);
      }
      r := ReadNext(receiving, h.n);
    }

    /** Reads the next position of an epoch's receiving chain, if it is `n`. */
    method ReadNext(e: u32, n: u32) returns (r: Result<(u32, Key)>)
      requires Valid()
      modifies kdfChains, kdfChains.repr
      ensures Valid() && fresh(kdfChains.repr - old(kdfChains.repr))
      ensures (r, View()) == PqSpec.ReadNext(old(View()), e, n)
    {
      hide EpochChains.Valid, SkippedKeys.Valid;
      var _, chain := kdfChains.At(e);
      if chain.None? {
        return Err(InvalidTransition);
      }
      var c := chain.value;
      if c.n != n {
        return Err(SkippedKeyNotFound);
      }
      r := Ok((e, PqMessage(c.ck, n)));
      kdfChains.SetRecv(e, KdfChain(PqNext(c.ck, n), Inc(n)));
    }

    /** A copy of the session's state, in objects of its own. */
    method Save() returns (x: Saved)
      requires Valid()
      ensures Sound(x) && fresh(Objects(x)) && Shown(x, direction) == View()
    {
      hide EpochChains.Valid, SkippedKeys.Valid;
      var copy := new KeyBuffer(rk.key);
      var chains := kdfChains.Clone();
      var skipped := mkSkipped.Clone();
      x := Saved(copy, epoch, chains, skipped);
    }

    /** Erases what is there and puts a copy in its place; the provider goes back as well. */
    method Restore(x: Saved, provider: P)
      requires Valid() && Sound(x) && Objects(x) !! Footprint()
      modifies Footprint()
      ensures Valid() && View() == old(Shown(x, direction)) && scka.state == provider
      ensures Footprint() == {this, scka} + Objects(x)
      ensures old(rk).key == Zeroed && forall e :: e in old(kdfChains.pairs) ==> PairErased(old(kdfChains.pairs)[e], old(kdfChains.repr))
    {
      hide EpochChains.Valid, SkippedKeys.Valid, PairErased;
      ZeroBytes(rk);
      kdfChains.EraseAll();
      rk, epoch, kdfChains, mkSkipped := x.rk, x.epoch, x.chains, x.skipped;
      scka.Restore(provider);
    }

    /** Derives the key and opens. `keyed` says that a key was derived; if the text is then missing,
        the caller has to undo the call. */
    method Receive(h: SckaHeader, ct: Ciphertext, ad: bytes) returns (r: Result<bytes>, keyed: bool)
      requires Valid()
      modifies Footprint()
      ensures Valid() && fresh(Footprint() - old(Footprint()))
      ensures var out := scka.onReceive(old(scka.state), h.msg);
              && r == PqSpec.Decrypt(config, old(View()), out.1, h, ct, ad).0 && scka.state == out.0
              && keyed == PqSpec.ReceiveKey(MaxSkip(config), old(View()), out.1, h.n).0.Ok?
              && (r.Ok? || !keyed ==> View() == PqSpec.Decrypt(config, old(View()), out.1, h, ct, ad).1)
    {
      hide EpochChains.Valid, SkippedKeys.Valid, PqSpec.ReceiveKey, BuildAD, EncodeSckaHeader;
      var k := ReceiveKey(h);
      if k.Err? {
        return Err(k.error), false;
      }
      var text := Open(k.value.1, ct, BuildAD(config, EncodeSckaHeader(h), ad, false));
      r, keyed := if text.None? then Err(AuthFailure) else Ok(text.value), true;
    }

    /** Decrypts a message. A failed authentication undoes the call, provider included; an error
        before that leaves what was done. */
    method Decrypt(h: SckaHeader, ct: Ciphertext, ad: bytes) returns (r: Result<bytes>)
      requires Valid()
      modifies Footprint()
      ensures Valid() && fresh(Footprint() - old(Footprint()))
      ensures var out := scka.onReceive(old(scka.state), h.msg);
              && (r, View()) == PqSpec.Decrypt(config, old(View()), out.1, h, ct, ad)
              && scka.state == (if PqSpec.ReceiveKey(MaxSkip(config), old(View()), out.1, h.n).0.Ok? && r.Err? then old(scka.state) else out.0)
    {
      hide Valid, Sound, PqSpec.ReceiveKey, PqSpec.Decrypt;
      var snap := Save();
      var sckaSnap := scka.Snapshot();
      FailedOpen(config, View(), scka.onReceive(scka.state, h.msg).1, h, ct, ad);
      r := DecryptOrUndo(h, ct, ad, snap, sckaSnap);
    }

    method DecryptOrUndo(h: SckaHeader, ct: Ciphertext, ad: bytes, snap: Saved, sckaSnap: P) returns (r: Result<bytes>)
      requires Valid() && Sound(snap) && Objects(snap) !! Footprint()
      modifies Footprint()
      ensures Valid() && fresh(Footprint() - old(Footprint()) - Objects(snap))
      ensures var out := scka.onReceive(old(scka.state), h.msg);
              && var undo := PqSpec.ReceiveKey(MaxSkip(config), old(View()), out.1, h.n).0.Ok? && r.Err?;
              && r == PqSpec.Decrypt(config, old(View()), out.1, h, ct, ad).0
              && View() == (if undo then old(Shown(snap, direction)) else PqSpec.Decrypt(config, old(View()), out.1, h, ct, ad).1)
              && scka.state == (if undo then sckaSnap else out.0)
              && Objects(snap) == old(Objects(snap))
    {
      hide Valid, Sound, PqSpec.ReceiveKey, PqSpec.Decrypt, PairErased;
      var keyed;
      r, keyed := Receive(h, ct, ad);
      if keyed && r.Err? {
        Restore(snap, sckaSnap);
      }
    }
  }

  lemma FailedOpen(config: Config, s: PqSpec.State, out: Option<RecvOut>, h: SckaHeader, ct: Ciphertext, ad: bytes)
    ensures PqSpec.ReceiveKey(MaxSkip(config), s, out, h.n).0.Ok? && PqSpec.Decrypt(config, s, out, h, ct, ad).0.Err? ==>
              PqSpec.Decrypt(config, s, out, h, ct, ad).1 == s
  {}

  /** A session at epoch 0, for either direction. `secret` is the shared secret, if it has the 32
      bytes it must have. */
  method NewSession<P>(secret: Option<Key>, direction: Direction, scka: Provider?<P>, config: Config)
    returns (err: Option<Error>, s: SPQRSession?<P>)
    modifies scka
    ensures err == if secret.None? then Some(SharedSecretTooShort)
                   else if scka == null then Some(NilProvider)
                   else if scka.onInit(old(scka.state), secret.value, direction).None? then Some(ProviderFailure)
                   else None
    ensures scka != null ==> scka.state == if err.None? then scka.onInit(old(scka.state), secret.value, direction).value else old(scka.state)
    ensures err.None? ==> s != null && s.Valid() && s.scka == scka && s.config == config && s.direction == direction
                          && fresh(s.Footprint() - {scka}) && s.View() == PqSpec.Init(secret.value, direction)
  {
    hide SPQRSession.Valid, SPQRSession.View, Sound, Shown, PqSpec.Init;
    if secret.None? {
      return Some(SharedSecretTooShort), null;
    }
    if scka == null {
      return Some(NilProvider), null;
    }
    var ok := scka.Init(secret.value, direction);
    if !ok {
      return Some(ProviderFailure), null;
    }
    var x := FirstState(secret.value, direction);
    s := AtStart(x, direction, scka, config);
    err := None;
  }

  /** A session that takes over these objects. */
  method AtStart<P>(x: Saved, direction: Direction, scka: Provider<P>, config: Config) returns (s: SPQRSession<P>)
    requires Sound(x) && x.epoch == 0 && scka !in Objects(x)
    ensures fresh(s) && s.scka == scka && s.config == config && s.direction == direction
    ensures s.Valid() && s.Footprint() == {s, scka} + Objects(x) && s.View() == Shown(x, direction)
  {
    hide EpochChains.Valid, SkippedKeys.Valid;
    s := new SPQRSession(config, direction, scka, x.rk, x.chains, x.skipped);
  }

  /** The state at epoch 0, in new objects. */
  method FirstState(sk: Key, direction: Direction) returns (x: Saved)
    ensures Sound(x) && fresh(Objects(x)) && x.epoch == 0 && Shown(x, direction) == PqSpec.Init(sk, direction)
  {
    hide EpochChains.Valid, SkippedKeys.Valid, PqSpec.Init;
    StartsAt(sk, direction);
    var rk := new KeyBuffer(PqRoot(sk, Zeroed));
    var chains := FirstChains(sk, direction);
    var skipped := new SkippedKeys();
    x := Saved(rk, 0, chains, skipped);
  }

  lemma StartsAt(sk: Key, direction: Direction)
    ensures var s := PqSpec.Init(sk, direction);
            s == PqSpec.State(PqRoot(sk, Zeroed), 0, s.chains, map[], direction)
  {}

  /** The two chains of epoch 0. */
  method FirstChains(sk: Key, direction: Direction) returns (c: EpochChains)
    ensures c.Valid() && fresh(c) && fresh(c.repr) && c !in c.repr && c.contents == PqSpec.Init(sk, direction).chains
  {
    hide EpochChains.Valid;
    var a, b := Some(KdfChain(PqChainA(sk, Zeroed), 0)), Some(KdfChain(PqChainB(sk, Zeroed), 0));
    if direction == B2A {
      a, b := b, a;
    }
    c := new EpochChains();
    c.Install(0, a, b);
  }

  // ---- Copies of the state -----------------------------------------------------------------

  datatype Saved = Saved(rk: KeyBuffer, epoch: u32, chains: EpochChains, skipped: SkippedKeys)

  ghost function Objects(x: Saved): set<object>
    reads x.chains, x.skipped
  {
    {x.rk, x.chains, x.skipped} + x.chains.repr + x.skipped.repr
  }

  ghost predicate Sound(x: Saved)
    reads Objects(x)
  {
    && x.chains.Valid() && x.skipped.Valid()
    && {x.rk, x.chains, x.skipped} !! x.chains.repr && x.chains.repr !! x.skipped.repr
  }

  ghost function Shown(x: Saved, direction: Direction): PqSpec.State
    reads x.rk, x.chains, x.skipped
  {
    PqSpec.State(x.rk.key, x.epoch, x.chains.contents, x.skipped.contents, direction)
  }

  // ---- Skipping ----------------------------------------------------------------------------

  /** On the way from state `s` and chain `c0` to `until`, the session stands at state `t` and chain `c`. */
  ghost predicate Skipping(s: PqSpec.State, t: PqSpec.State, e: u32, c0: KdfChain, c: KdfChain, until: u32) {
    && e in s.chains && s.chains[e].recv == Some(c0) && c0.n <= c.n
    && t == s.(chains := s.chains[e := s.chains[e].(recv := Some(c))], skipped := t.skipped)
    && (if c.n == c0.n then t.skipped == s.skipped && c == c0 else e in t.skipped && t.skipped == s.skipped[e := t.skipped[e]])
    && SkipChain(c, SkippedOf(t, e), until) == SkipChain(c0, SkippedOf(s, e), until)
  }

  lemma SkipsNone(s: PqSpec.State, e: u32, c0: KdfChain, until: u32)
    requires e in s.chains && s.chains[e].recv == Some(c0)
    ensures Skipping(s, s, e, c0, c0, until)
  {
    assert s.chains[e := s.chains[e].(recv := Some(c0))] == s.chains;
  }

  lemma SkipsOne(s: PqSpec.State, t: PqSpec.State, t1: PqSpec.State, e: u32, c0: KdfChain, c: KdfChain, until: u32)
    requires Skipping(s, t, e, c0, c, until) && c.n < until
    requires var next := KdfChain(PqNext(c.ck, c.n), c.n + 1);
             t1 == t.(chains := t.chains[e := t.chains[e].(recv := Some(next))],
                      skipped := t.skipped[e := SkippedOf(t, e)[c.n := PqMessage(c.ck, c.n)]])
    ensures Skipping(s, t1, e, c0, KdfChain(PqNext(c.ck, c.n), c.n + 1), until)
  {}

  lemma SkipsAll(maxSkip: u32, s: PqSpec.State, t: PqSpec.State, e: u32, c0: KdfChain, c: KdfChain, until: u32)
    requires Skipping(s, t, e, c0, c, until) && c.n >= until && !(until > c0.n && until - c0.n > maxSkip)
    ensures PqSpec.Skip(maxSkip, s, e, until) == Ok(t)
  {
    if c.n == c0.n {
      SkipsNone(s, e, c0, until);
    }
  }
}
