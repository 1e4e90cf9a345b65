/** The header-encryption session in memory. */
module HeaderSessions {
  import opened Bytes
  import opened Terms
  import opened Wire
  import opened SkippedQueue
  import opened SkippedStore
  import opened ReceiveChains
  import opened ChainReading
  import opened Snapshot
  import opened Sessions
  import opened HeaderSpec
  import Ec = RatchetSpec

  class HESession {
    const dr: Session
    var hks: HeaderKey
    var hkr: HeaderKey
    var nhks: HeaderKey
    var nhkr: HeaderKey

    ghost predicate Valid()
      reads this, dr, dr.recvChains, dr.recvChains.repr, dr.mkSkipped, dr.mkSkipped.repr
    {
      dr.Valid() && this !in dr.Footprint()
    }

    ghost function Footprint(): set<object>
      reads this, dr, dr.recvChains, dr.mkSkipped
    {
      {this} + dr.Footprint()
    }

    ghost function View(): HeaderSpec.State
      reads this, dr, dr.rk, dr.cks, dr.recvChains, dr.mkSkipped
    {
      HeaderSpec.State(dr.View(), hks, hkr, nhks, nhkr)
    }

    constructor (dr: Session, hks: HeaderKey, hkr: HeaderKey, nhks: HeaderKey, nhkr: HeaderKey)
      ensures this.dr == dr && this.hks == hks && this.hkr == hkr && this.nhks == nhks && this.nhkr == nhkr
    {
      this.dr, this.hks, this.hkr, this.nhks, this.nhkr := dr, hks, hkr, nhks, nhkr;
    }

    // ---- Sending ---------------------------------------------------------------------------

    /** Derives the next root, sending chain and sending header keys. */
    method StepSendingKeys(priv: key32)
      requires Valid()
      modifies `nhks, dr`rk, dr`cks, dr`dhs, dr`ns, dr`dhRatchetPerformed, dr.rk, dr.cks
      ensures Valid() && fresh(dr.rk) && fresh(dr.cks)
      ensures dr.View() == old(dr.View()).(rk := RootKey(old(dr.rk.key), Dh(priv, dr.dhr)), cks := Some(ChainKey(old(dr.rk.key), Dh(priv, dr.dhr))),
                                           dhs := priv, ns := 0, pending := false)
      ensures nhks == HeaderKey(NextHeaderKey(old(dr.rk.key), Dh(priv, dr.dhr)), 0)
    {
      hide ReceiverChains.Valid, Storage.Valid, Dh;
      var dh := Dh(priv, dr.dhr);
      var newRk := new KeyBuffer(RootKey(dr.rk.key, dh));
      var newCks := new KeyBuffer(ChainKey(dr.rk.key, dh));
      nhks := HeaderKey(NextHeaderKey(dr.rk.key, dh), 0);
      dr.InstallSending(newRk, newCks, priv);
    }

    method PerformDHRatchetSendHE(gen: Option<key32>) returns (err: Option<Error>)
      requires Valid()
      modifies this, dr, dr.rk, dr.cks
      ensures Valid() && fresh(Footprint() - old(Footprint()))
      ensures (err, View()) == HeaderSpec.RatchetSend(dr.config, old(View()), gen)
      ensures unchanged(dr`recvChains) && unchanged(dr`mkSkipped)
    {
      hide ReceiverChains.Valid, Storage.Valid, Dh;
      if !dr.dhRSet {
        return Some(SessionNotInitialized);
      }
      hks := nhks;
      dr.pn := dr.ns;
      dr.ns := 0;
      if gen.None? {
        return Some(NoEntropy);
      }
      if dr.dhr in dr.config.lowOrder {
        return Some(LowOrderPoint);
      }
      StepSendingKeys(gen.value);
      err := None;
    }

    /** Seals a header under the sending header key and counts it. */
    method SealNext(header: bytes) returns (r: Result<SealedHeader>)
      modifies `hks
      ensures var spec := SealHeader(old(hks), header);
              && (spec.Err? ==> r == Err(spec.error) && hks == old(hks))
              && (spec.Ok? ==> r == Ok(spec.value.0) && hks == spec.value.1)
    {
      if hks.key == Zeroed {
        return Err(InvalidHeaderKey);
      }
      if hks.nonce == NONCE_MAX {
        return Err(InvalidNonceCounter);
      }
      r := Ok(SealedHeader(hks.key, hks.nonce, header));
      hks := hks.(nonce := hks.nonce + 1);
    }

    /** Takes the next message key off the sending chain. */
    method NextSendKey() returns (h: Header, mk: Key)
      requires Valid() && dr.cks != null
      modifies dr`cks, dr`ns, dr.cks
      ensures Valid() && fresh(dr.cks)
      ensures h == Header(dr.dhs, dr.pn, old(dr.ns)) && mk == MessageKey(old(dr.cks.key))
      ensures dr.View() == old(dr.View()).(cks := Some(NextChain(old(dr.cks.key))), ns := Inc(old(dr.ns)))
    {
      hide ReceiverChains.Valid, Storage.Valid;
      mk := MessageKey(dr.cks.key);
      h := Header(dr.dhs, dr.pn, dr.ns);
      var next := new KeyBuffer(NextChain(dr.cks.key));
      dr.AdvanceSending(next);
    }

    /** Sends on the current chain. */
    method SendOnChain(text: bytes, ad: bytes) returns (r: Result<HeMessage>)
      requires Valid() && dr.cks != null
      modifies `hks, dr`cks, dr`ns, dr.cks
      ensures Valid() && fresh(dr.cks)
      ensures var ck := old(dr.cks.key);
              var spec := SealHeader(old(hks), EncodeHeader(Header(dr.dhs, dr.pn, old(dr.ns))));
              && dr.View() == old(dr.View()).(cks := Some(NextChain(ck)), ns := Inc(old(dr.ns)))
              && (spec.Err? ==> r == Err(spec.error) && hks == old(hks))
              && (spec.Ok? ==> r == Ok(HeMessage(spec.value.0, Sealed(MessageKey(ck), HeaderAD(dr.config, spec.value.0, ad, true), text)))
                               && hks == spec.value.1)
    {
      hide ReceiverChains.Valid, Storage.Valid, HeaderAD, SealHeader, EncodeHeader;
      var h, mk := NextSendKey();
      var header := SealNext(EncodeHeader(h));
      if header.Err? {
        return Err(header.error);
      }
      r := Ok(HeMessage(header.value, Sealed(mk, HeaderAD(dr.config, header.value, ad, true), text)));
    }

    method EncryptHE(text: bytes, ad: bytes, gen: Option<key32>) returns (r: Result<HeMessage>)
      requires Valid()
      modifies this, dr, dr.rk, dr.cks
      ensures Valid() && fresh(Footprint() - old(Footprint()))
      ensures (r, View()) == HeaderSpec.Encrypt(dr.config, old(View()), text, ad, gen)
    {
      hide ReceiverChains.Valid, Storage.Valid, HeaderSpec.RatchetSend, HeaderAD, SealHeader, EncodeHeader;
      if dr.dhRatchetPerformed || dr.cks == null {
        var err := PerformDHRatchetSendHE(gen);
        if err.Some? {
          return Err(err.value);
        }
      }
      if dr.cks == null {
        return Err(InvalidTransition);
      }
      r := SendOnChain(text, ad);
    }

    // ---- Receiving -------------------------------------------------------------------------

    /** Erases the sending chain; the next `EncryptHE` starts a new one. */
    method DropSending()
      requires Valid()
      modifies dr`cks, dr.cks
      ensures Valid() && dr.cks == null && dr.View() == old(dr.View()).(cks := None)
    {
      hide ReceiverChains.Valid, Storage.Valid;
      ZeroBytes(dr.cks);
      dr.cks := null;
    }

    /** The receiving half of a DH step; `promote` takes the next header key into use. On an error
        the session is left half way; the caller restores it. */
    method PerformDHRatchetRecvHE(h: Header, promote: bool) returns (err: Option<Error>, ghost calls: nat)
      requires Valid()
      modifies this, dr, dr.rk, dr.cks, dr.recvChains.repr, dr.mkSkipped
      ensures Valid() && (dr.rk == old(dr.rk) || fresh(dr.rk)) && (dr.cks == old(dr.cks) || dr.cks == null)
      ensures fresh(dr.recvChains.repr - old(dr.recvChains.repr)) && fresh(dr.mkSkipped.repr - old(dr.mkSkipped.repr))
      ensures unchanged(dr`recvChains) && unchanged(dr`mkSkipped)
      ensures var spec := HeaderSpec.RatchetRecv(dr.config, old(View()), h, promote);
              err == if spec.Err? then Some(spec.error) else None
      ensures err.None? ==> View() == HeaderSpec.RatchetRecv(dr.config, old(View()), h, promote).value
      ensures calls <= MaxSkip(dr.config)
    {
      hide ReceiverChains.Valid, Storage.Valid, StoreRange, Ec.PushChain, Ec.PreviousChain, Dh;
      calls := 0;
      if h.pk == ZERO32 {
        return Some(InvalidInput), 0;
      }
      var prev, prevNr := dr.CopyPrevious();
      var prevHkr := hkr;
      if promote {
        hkr := nhkr;
      }
      if h.pk in dr.config.lowOrder {
        ZeroBytes(prev);
        return Some(LowOrderPoint), 0;
      }
      err, calls := ChangeEpoch(h, prevHkr, prev, prevNr);
    }

    /** Derives the next root and header keys and changes chains; keys left unread are filed under
        the header key that was in use. */
    method ChangeEpoch(h: Header, prevHkr: HeaderKey, prev: KeyBuffer?, prevNr: u32) returns (err: Option<Error>, ghost calls: nat)
      requires Valid() && (prev != null ==> prev !in Footprint())
      modifies `nhkr, dr, dr.rk, dr.cks, dr.recvChains.repr, dr.mkSkipped, prev
      ensures Valid() && (dr.rk == old(dr.rk) || fresh(dr.rk)) && (dr.cks == old(dr.cks) || dr.cks == null)
      ensures fresh(dr.recvChains.repr - old(dr.recvChains.repr)) && fresh(dr.mkSkipped.repr - old(dr.mkSkipped.repr))
      ensures unchanged(dr`recvChains) && unchanged(dr`mkSkipped)
      ensures err == if prev != null && h.pn > prevNr && h.pn - prevNr > MaxSkip(dr.config) then Some(MaxSkipExceeded) else None
      ensures err.None? ==>
                var p, dh := old(dr.View()), Dh(dr.dhs, h.pk);
                && nhkr == HeaderKey(NextHeaderKey(p.rk, dh), 0)
                && dr.View() == p.(rk := RootKey(p.rk, dh), cks := None, dhr := h.pk, dhRSet := true, pending := true,
                     chains := Ec.PushChain(p.chains, Ec.Chain(h.pk, ChainKey(p.rk, dh), 0)),
                     skipped := if prev == null then p.skipped
                                else StoreRange(MaxSkip(dr.config), p.skipped, HeaderLabel(prevHkr.key), old(prev.key), prevNr, h.pn))
      ensures calls <= MaxSkip(dr.config)
    {
      hide ReceiverChains.Valid, Storage.Valid, StoreRange, Ec.PushChain, Dh;
      nhkr := HeaderKey(NextHeaderKey(dr.rk.key, Dh(dr.dhs, h.pk)), 0);
      err, calls := dr.StepRoot(HeaderLabel(prevHkr.key), h, prev, prevNr);
      if err.None? {
        DropSending();
      }
    }

    /** Reads position `n` of the chain of the current remote key. */
    method ReadChain(n: u32) returns (r: Result<Key>, ghost calls: nat)
      requires Valid() && (n < U32_MAX || !Reaches(dr.config, View(), n))
      modifies dr.recvChains.repr, dr.mkSkipped
      ensures Valid() && fresh(dr.recvChains.repr - old(dr.recvChains.repr)) && fresh(dr.mkSkipped.repr - old(dr.mkSkipped.repr))
      ensures var spec := HeaderSpec.ReceiveOnChain(dr.config, old(View()), n);
              && (spec.Err? ==> r == Err(spec.error))
              && (spec.Ok? ==> r == Ok(spec.value.0) && View() == spec.value.1)
      ensures calls <= MaxSkip(dr.config) + 1
    {
      hide ReceiverChains.Valid, Storage.Valid, Slot, StoreRange, Ec.FindChain;
      var chain := dr.recvChains.Get(dr.dhr);
      if chain == null {
        return Err(InvalidTransition), 0;
      }
      ghost var i := Ec.FindChain(dr.recvChains.contents, dr.dhr);
      r, calls := ReadPosition(dr.recvChains, dr.mkSkipped, chain, HeaderLabel(hkr.key), n, i);
    }

    method TakeSkipped(header: SealedHeader) returns (found: Option<Key>)
      requires Valid()
      modifies dr.mkSkipped.repr
      ensures Valid() && dr.mkSkipped.repr == old(dr.mkSkipped.repr)
      ensures found.Some? <==> Filed(old(View()).dr.skipped, header)
      ensures found.Some? ==>
                var id := ServingId(header).value;
                && found.value == Lookup(old(View()).dr.skipped, id)
                && View() == old(View()).(dr := old(View()).dr.(skipped := Remove(old(View()).dr.skipped, id)))
      ensures found.None? ==> View() == old(View())
    {
      hide ReceiverChains.Valid, Storage.Valid, Filed;
      found := dr.mkSkipped.TryAllHeaderKeys(header);
    }

    /** Opens a header with the current receiving header key, or else with the next one. */
    method DecryptHeader(header: SealedHeader) returns (o: Result<Opened>)
      ensures o == OpenHeader(View(), header)
    {
      if Opens(hkr.key, header) {
        var h := DecodeHeader(header.header);
        if h.Err? {
          return Err(h.error);
        }
        return Ok(Opened(h.value, false));
      }
      if Opens(nhkr.key, header) {
        var h := DecodeHeader(header.header);
        if h.Err? {
          return Err(h.error);
        }
        return Ok(Opened(h.value, true));
      }
      o := Err(AuthFailure);
    }

    /** The message key of a header that one of the two receiving header keys opened. */
    method ReceiveOpened(h: Header, viaNext: bool) returns (r: Result<Key>, ghost calls: nat)
      requires Valid() && OpenedReturns(dr.config, View(), h, viaNext)
      modifies this, dr, dr.rk, dr.cks, dr.recvChains.repr, dr.mkSkipped
      ensures Valid() && (dr.rk == old(dr.rk) || fresh(dr.rk)) && (dr.cks == old(dr.cks) || dr.cks == null)
      ensures fresh(dr.recvChains.repr - old(dr.recvChains.repr)) && fresh(dr.mkSkipped.repr - old(dr.mkSkipped.repr))
      ensures unchanged(dr`recvChains) && unchanged(dr`mkSkipped)
      ensures var spec := HeaderSpec.ReceiveOpened(dr.config, old(View()), h, viaNext);
              && (spec.Err? ==> r == Err(spec.error))
              && (spec.Ok? ==> r == Ok(spec.value.0) && View() == spec.value.1)
      ensures calls <= 2 * MaxSkip(dr.config) + 1
    {
      hide ReceiverChains.Valid, Storage.Valid, HeaderSpec.ReceiveOnChain, HeaderSpec.RatchetRecv, HeaderSpec.Reaches;
      calls := 0;
      var newRemote := !dr.dhRSet || dr.dhr != h.pk;
      if newRemote || viaNext {
        if newRemote && !viaNext && dr.dhRSet {
          return Err(InvalidTransition), 0;
        }
        var err, steps := PerformDHRatchetRecvHE(h, viaNext);
        calls := steps;
        if err.Some? {
          return Err(err.value), calls;
        }
      }
      ghost var steps: nat;
      r, steps := ReadChain(h.n);
      calls := calls + steps;
    }

    /** The message key of an encrypted header. On an error the session is left half way; the
        caller restores it. */
    method ReceiveKeyHE(header: SealedHeader) returns (r: Result<Key>, ghost calls: nat)
      requires Valid() && Returns(dr.config, View(), header)
      modifies this, dr, dr.rk, dr.cks, dr.recvChains.repr, dr.mkSkipped.repr
      ensures Valid() && (dr.rk == old(dr.rk) || fresh(dr.rk)) && (dr.cks == old(dr.cks) || dr.cks == null)
      ensures fresh(dr.recvChains.repr - old(dr.recvChains.repr)) && fresh(dr.mkSkipped.repr - old(dr.mkSkipped.repr))
      ensures unchanged(dr`recvChains) && unchanged(dr`mkSkipped)
      ensures var spec := HeaderSpec.ReceiveKey(dr.config, old(View()), header);
              && (spec.Err? ==> r == Err(spec.error))
              && (spec.Ok? ==> r == Ok(spec.value.0) && View() == spec.value.1)
      ensures calls <= 2 * MaxSkip(dr.config) + 1
    {
      hide ReceiverChains.Valid, Storage.Valid, HeaderSpec.ReceiveOpened, HeaderSpec.OpenedReturns, Filed, Lookup, Remove, DecodeHeader;
      var found := TakeSkipped(header);
      if found.Some? {
        return Ok(found.value), 0;
      }
      var o := DecryptHeader(header);
      if o.Err? {
        return Err(o.error), 0;
      }
      r, calls := ReceiveOpened(o.value.header, o.value.viaNext);
    }

    /** Derives a message's key and opens it. */
    method Receive(m: HeMessage, ad: bytes) returns (r: Result<bytes>, ghost calls: nat)
      requires Valid() && Returns(dr.config, View(), m.header)
      modifies this, dr, dr.rk, dr.cks, dr.recvChains.repr, dr.mkSkipped.repr
      ensures Valid() && (dr.rk == old(dr.rk) || fresh(dr.rk)) && (dr.cks == old(dr.cks) || dr.cks == null)
      ensures fresh(dr.recvChains.repr - old(dr.recvChains.repr)) && fresh(dr.mkSkipped.repr - old(dr.mkSkipped.repr))
      ensures unchanged(dr`recvChains) && unchanged(dr`mkSkipped)
      ensures r == HeaderSpec.Decrypt(dr.config, old(View()), m, ad).0
      ensures r.Ok? ==> View() == HeaderSpec.Decrypt(dr.config, old(View()), m, ad).1
      ensures calls <= 2 * MaxSkip(dr.config) + 1
    {
      hide ReceiverChains.Valid, Storage.Valid, HeaderSpec.ReceiveKey, HeaderSpec.Returns, HeaderAD, DecodeHeader;
      var k;
      k, calls := ReceiveKeyHE(m.header);
      if k.Err? {
        return Err(k.error), calls;
      }
      var text := Open(k.value, m.ct, HeaderAD(dr.config, m.header, ad, false));
      r := if text.None? then Err(AuthFailure) else Ok(text.value);
    }

    method RestoreHeaderKeys(hks: HeaderKey, hkr: HeaderKey, nhks: HeaderKey, nhkr: HeaderKey)
      modifies this
      ensures this.hks == hks && this.hkr == hkr && this.nhks == nhks && this.nhkr == nhkr
    {
      this.hks, this.hkr, this.nhks, this.nhkr := hks, hkr, nhks, nhkr;
    }

    /** Goes back to the snapshot of the inner session and to the given header keys. */
    method RollbackAll(hks: HeaderKey, hkr: HeaderKey, nhks: HeaderKey, nhkr: HeaderKey, ghost s: Ec.State)
      requires Valid() && dr.invariants.Complete(MaxSkip(dr.config)) && dr.invariants.held !! Footprint() && dr.invariants.kept == s
      modifies this, dr, dr.rk, dr.cks, dr.recvChains.repr
      ensures Valid() && View() == HeaderSpec.State(s, hks, hkr, nhks, nhkr)
      ensures fresh(Footprint() - {this, dr, dr.invariants} - dr.invariants.held)
    {
      hide ReceiverChains.Valid, Storage.Valid, Invariants.Complete;
      dr.Rollback();
      RestoreHeaderKeys(hks, hkr, nhks, nhkr);
    }

    /** Decrypts a message with an encrypted header. A failed call leaves the session, header keys
        included, standing for the state it found. */
    method DecryptHE(m: HeMessage, ad: bytes) returns (r: Result<bytes>, ghost calls: nat)
      requires Valid() && Returns(dr.config, View(), m.header)
      modifies Footprint()
      ensures Valid() && fresh(Footprint() - old(Footprint()))
      ensures (r, View()) == HeaderSpec.Decrypt(dr.config, old(View()), m, ad)
      ensures r.Err? ==> View() == old(View())
      ensures r.Ok? ==> dr.invariants.Complete(MaxSkip(dr.config)) && dr.invariants.kept == old(View()).dr && dr.invariants.held !! Footprint()
      ensures calls <= 2 * MaxSkip(dr.config) + 1
    {
      hide ReceiverChains.Valid, Storage.Valid, Invariants.Complete, HeaderSpec.Decrypt, HeaderSpec.Returns;
      ghost var s := View();
      dr.invariants.Record(dr.ns, dr.pn, dr.rk, dr.dhs, dr.dhr, dr.cks, dr.recvChains, dr.mkSkipped, dr.dhRSet, dr.dhRatchetPerformed);
      var hksSnap, hkrSnap, nhksSnap, nhkrSnap := hks, hkr, nhks, nhkr;
      r, calls := Receive(m, ad);
      FailedDecrypt(dr.config, s, m, ad);
      if r.Err? {
        RollbackAll(hksSnap, hkrSnap, nhksSnap, nhkrSnap, s.dr);
      }
    }
  }

  lemma FailedDecrypt(cfg: Config, s: HeaderSpec.State, m: HeMessage, ad: bytes)
    ensures HeaderSpec.Decrypt(cfg, s, m, ad).0.Err? ==> HeaderSpec.Decrypt(cfg, s, m, ad).1 == s
  {}

  /** The initiator's session. */
  method NewInitiatorHE(secret: Option<Key>, bobPK: key32, hka: Key, nhkb: Key, gen: Option<key32>, config: Config)
    returns (err: Option<Error>, s: HESession?)
    ensures err == if secret.None? then Some(SharedSecretTooShort)
                   else if Validate(config).Some? then Validate(config)
                   else if gen.None? then Some(NoEntropy)
                   else if bobPK in config.lowOrder then Some(LowOrderPoint)
                   else None
    ensures err.None? ==> s != null && s.Valid() && fresh(s.Footprint()) && s.dr.config == config
                          && s.View() == HeaderSpec.InitInitiator(secret.value, hka, nhkb, bobPK, gen.value)
  {
    hide ReceiverChains.Valid, Storage.Valid;
    s := null;
    var dr;
    err, dr := NewInitiator(secret, bobPK, gen, config);
    if err.Some? {
      return;
    }
    s := new HESession(dr, HeaderKey(hka, 0), NO_KEY, HeaderKey(NextHeaderKey(secret.value, Dh(gen.value, bobPK)), 0), HeaderKey(nhkb, 0));
  }

  /** The responder's session. */
  method NewResponderHE(secret: Option<Key>, bob: key32, hka: Key, nhkb: Key, config: Config) returns (err: Option<Error>, s: HESession?)
    ensures err == if secret.None? then Some(SharedSecretTooShort)
                   else if Validate(config).Some? then Validate(config)
                   else if bob == ZERO32 then Some(InvalidInput)
                   else None
    ensures err.None? ==> s != null && s.Valid() && fresh(s.Footprint()) && s.dr.config == config
                          && s.View() == HeaderSpec.InitResponder(secret.value, hka, nhkb, bob)
  {
    hide ReceiverChains.Valid, Storage.Valid;
    s := null;
    var dr;
    err, dr := NewResponder(secret, bob, config);
    if err.Some? {
      return;
    }
    s := new HESession(dr, NO_KEY, NO_KEY, HeaderKey(nhkb, 0), HeaderKey(hka, 0));
  }
}
