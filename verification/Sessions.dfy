/** The base Double Ratchet session in memory. Every method is tied to the function of
    `RatchetSpec` that describes it; `View` is the value a session stands for. */
module Sessions {
  import opened Bytes
  import opened Terms
  import opened Wire
  import opened SkippedQueue
  import opened SkippedStore
  import opened ReceiveChains
  import opened ChainReading
  import opened Snapshot
  import Ec = RatchetSpec

  class Session {
    const config: Config
    const invariants: Invariants
    var mkSkipped: Storage
    var recvChains: ReceiverChains
    var rk: KeyBuffer
    var cks: KeyBuffer?
    var ns: u32
    var pn: u32
    var dhr: key32
    var dhs: key32
    var dhRatchetPerformed: bool
    var dhRSet: bool

    /** No key buffer belongs to the ring or the store, and nothing belongs to both. */
    ghost predicate Separate()
      reads this, recvChains, mkSkipped
    {
      && recvChains.repr !! mkSkipped.repr
      && recvChains in recvChains.repr && mkSkipped in mkSkipped.repr
      && {this, invariants, rk} !! recvChains.repr + mkSkipped.repr
      && (cks != null ==> cks != rk && cks !in recvChains.repr + mkSkipped.repr)
    }

    ghost predicate Valid()
      reads this, recvChains, recvChains.repr, mkSkipped, mkSkipped.repr
    {
      Separate() && recvChains.Valid() && mkSkipped.Valid() && mkSkipped.maxSkip == MaxSkip(config)
    }

    ghost function Footprint(): set<object>
      reads this, recvChains, mkSkipped
    {
      {this, invariants, rk} + Buffer(cks) + recvChains.repr + mkSkipped.repr
    }

    ghost function View(): Ec.State
      reads this, rk, cks, recvChains, mkSkipped
    {
      Ec.State(rk.key, if cks == null then None else Some(cks.key), ns, pn, dhs, dhr, dhRSet, dhRatchetPerformed,
               recvChains.contents, mkSkipped.contents)
    }

    constructor (config: Config, invariants: Invariants, mkSkipped: Storage, recvChains: ReceiverChains, rk: KeyBuffer, cks: KeyBuffer?,
                 dhs: key32, dhr: key32, dhRSet: bool)
      ensures this.config == config && this.invariants == invariants && this.mkSkipped == mkSkipped && this.recvChains == recvChains
      ensures this.rk == rk && this.cks == cks && this.dhs == dhs && this.dhr == dhr && this.dhRSet == dhRSet
      ensures ns == 0 && pn == 0 && !dhRatchetPerformed
    {
      this.config, this.invariants, this.mkSkipped, this.recvChains := config, invariants, mkSkipped, recvChains;
      this.rk, this.cks, this.dhs, this.dhr, this.dhRSet := rk, cks, dhs, dhr, dhRSet;
      ns, pn, dhRatchetPerformed := 0, 0, false;
    }

    // ---- Sending ---------------------------------------------------------------------------

    /** The sending half of a DH step; `gen` is the fresh private key, if entropy was available. */
    method PerformDHRatchetSend(gen: Option<key32>) returns (err: Option<Error>)
      requires Valid()
      modifies this, rk, cks
      ensures Valid() && fresh(Footprint() - old(Footprint()))
      ensures (err, View()) == Ec.RatchetSend(config, old(View()), gen)
      ensures unchanged(`recvChains) && unchanged(`mkSkipped)
    {
      hide ReceiverChains.Valid, Storage.Valid;
      pn := ns;
      if gen.None? {
        return Some(NoEntropy);
      }
      if dhr in config.lowOrder {
        return Some(LowOrderPoint);
      }
      var dh := Dh(gen.value, dhr);
      var newRk := new KeyBuffer(RootKey(rk.key, dh));
      var newCks := new KeyBuffer(ChainKey(rk.key, dh));
      InstallSending(newRk, newCks, gen.value);
      err := None;
    }

    /** Erases the superseded keys and takes the new ones into use. */
    method InstallSending(newRk: KeyBuffer, newCks: KeyBuffer, priv: key32)
      requires newRk != rk && newRk != cks && newCks != rk && newCks != cks
      modifies `rk, `cks, `dhs, `ns, `dhRatchetPerformed, rk, cks
      ensures rk == newRk && cks == newCks && dhs == priv && ns == 0 && !dhRatchetPerformed
      ensures newRk.key == old(newRk.key) && newCks.key == old(newCks.key)
      ensures old(rk).key == Zeroed && (old(cks) != null ==> old(cks).key == Zeroed)
    {
      ZeroBytes(rk);
      ZeroBytes(cks);
      rk, cks, dhs, ns, dhRatchetPerformed := newRk, newCks, priv, 0, false;
    }

    /** Header and message key of the next message. */
    method RatchetSendKey(gen: Option<key32>) returns (r: Result<(Header, Key)>)
      requires Valid()
      modifies this, rk, cks
      ensures Valid() && fresh(Footprint() - old(Footprint()))
      ensures (r, View()) == Ec.SendKey(config, old(View()), gen)
      ensures unchanged(`recvChains) && unchanged(`mkSkipped)
    {
      hide ReceiverChains.Valid, Storage.Valid, Ec.RatchetSend;
      if dhRatchetPerformed {
        var err := PerformDHRatchetSend(gen);
        if err.Some? {
          return Err(err.value);
        }
      }
      if cks == null {
        return Err(SessionNotInitialized);
      }
      var mk := MessageKey(cks.key);
      var next := new KeyBuffer(NextChain(cks.key));
      r := Ok((Header(dhs, pn, ns), mk));
      AdvanceSending(next);
    }

    method AdvanceSending(next: KeyBuffer)
      requires next != rk && next != cks && rk != cks
      modifies `cks, `ns, cks
      ensures cks == next && ns == Inc(old(ns)) && next.key == old(next.key)
    {
      ZeroBytes(cks);
      cks, ns := next, Inc(ns);
    }

    method Encrypt(text: bytes, ad: bytes, gen: Option<key32>) returns (r: Result<Ec.Message>)
      requires Valid()
      modifies this, rk, cks
      ensures Valid() && fresh(Footprint() - old(Footprint()))
      ensures (r, View()) == Ec.Encrypt(config, old(View()), text, ad, gen)
    {
      hide ReceiverChains.Valid, Storage.Valid, Ec.SendKey, BuildAD;
      var k := RatchetSendKey(gen);
      if k.Err? {
        return Err(k.error);
      }
      var (h, mk) := k.value;
      r := Ok(Ec.Message(h, Sealed(mk, BuildAD(config, EncodeHeader(h), ad, true), text)));
    }

    // ---- Receiving -------------------------------------------------------------------------

    /** A copy of the key of the chain that is about to be left, and that chain's counter. */
    method CopyPrevious() returns (prev: KeyBuffer?, nr: u32)
      requires Valid()
      ensures var p := Ec.PreviousChain(View());
              && (prev == null <==> p < 0)
              && (prev != null ==> fresh(prev) && prev.key == recvChains.contents[p].ck && nr == recvChains.contents[p].nr)
              && (prev == null ==> nr == 0)
    {
      hide ReceiverChains.Valid, Storage.Valid, Slot;
      prev, nr := null, 0;
      if dhRSet {
        var oldChain := recvChains.Get(dhr);
        if oldChain != null {
          recvChains.At(Ec.FindChain(recvChains.contents, dhr));
          prev := new KeyBuffer(oldChain.ck.key);
          nr := oldChain.nr;
        }
      }
    }

    /** Files what is left unread of the previous chain. */
    method FilePrevious(lab: Label, prev: KeyBuffer, nr: u32, pn: u32) returns (err: Option<Error>, ghost calls: nat)
      requires mkSkipped.Valid() && mkSkipped.maxSkip == MaxSkip(config) && prev !in mkSkipped.repr && this !in mkSkipped.repr
      modifies mkSkipped
      ensures mkSkipped.Valid() && fresh(mkSkipped.repr - old(mkSkipped.repr)) && mkSkipped.repr >= old(mkSkipped.repr) && prev.key == old(prev.key)
      ensures err == if pn > nr && pn - nr > MaxSkip(config) then Some(MaxSkipExceeded) else None
      ensures err.None? ==> mkSkipped.contents == StoreRange(MaxSkip(config), old(mkSkipped.contents), lab, prev.key, nr, pn)
      ensures calls <= MaxSkip(config)
    {
      hide Storage.Valid;
      calls, err := 0, None;
      if pn > nr {
        if pn - nr > MaxSkip(config) {
          return Some(MaxSkipExceeded), 0;
        }
        calls := FileFromCopy(mkSkipped, lab, prev, nr, pn);
      }
    }

    method ReplaceRoot(newRk: KeyBuffer)
      requires newRk != rk
      modifies `rk, rk
      ensures rk == newRk && newRk.key == old(newRk.key) && old(rk).key == Zeroed
    {
      ZeroBytes(rk);
      rk := newRk;
    }

    /** Adds the chain of a new remote key and makes that key the current one. */
    method FollowRemote(pk: key32, ckr: KeyBuffer)
      requires recvChains.Valid() && ckr !in recvChains.repr && this !in recvChains.repr
      modifies `dhr, `dhRSet, `dhRatchetPerformed, recvChains.repr, ckr
      ensures recvChains.Valid() && fresh(recvChains.repr - old(recvChains.repr)) && recvChains.repr >= old(recvChains.repr)
      ensures recvChains.contents == Ec.PushChain(old(recvChains.contents), Ec.Chain(pk, old(ckr.key), 0))
      ensures dhr == pk && dhRSet && dhRatchetPerformed
    {
      hide ReceiverChains.Valid;
      recvChains.Push(pk, ckr);
      ZeroBytes(ckr);
      dhr, dhRSet, dhRatchetPerformed := pk, true, true;
    }

    /** Leaves the chain of the current remote key for that of the next one; keys left unread are
        filed under `lab`. */
    method ChangeChains(lab: Label, h: Header, prev: KeyBuffer?, nr: u32, ckr: KeyBuffer) returns (err: Option<Error>, ghost calls: nat)
      requires Apart(recvChains, mkSkipped) && mkSkipped.maxSkip == MaxSkip(config)
      requires this !in recvChains.repr + mkSkipped.repr && ckr !in recvChains.repr + mkSkipped.repr
      requires prev != null ==> prev !in recvChains.repr + mkSkipped.repr && prev != ckr
      modifies `dhr, `dhRSet, `dhRatchetPerformed, recvChains.repr, mkSkipped, ckr, prev
      ensures Apart(recvChains, mkSkipped)
      ensures fresh(recvChains.repr - old(recvChains.repr)) && fresh(mkSkipped.repr - old(mkSkipped.repr))
      ensures err == if prev != null && h.pn > nr && h.pn - nr > MaxSkip(config) then Some(MaxSkipExceeded) else None
      ensures err.None? ==>
                && mkSkipped.contents == (if prev == null then old(mkSkipped.contents)
                     else StoreRange(MaxSkip(config), old(mkSkipped.contents), lab, old(prev.key), nr, h.pn))
                && recvChains.contents == Ec.PushChain(old(recvChains.contents), Ec.Chain(h.pk, old(ckr.key), 0))
                && dhr == h.pk && dhRSet && dhRatchetPerformed
      ensures calls <= MaxSkip(config)
    {
      hide ReceiverChains.Valid, Storage.Valid, StoreRange, Ec.PushChain;
      calls := 0;
      if prev != null {
        err, calls := FilePrevious(lab, prev, nr, h.pn);
        ZeroBytes(prev);
        if err.Some? {
          return;
        }
      }
      FollowRemote(h.pk, ckr);
      err := None;
    }

    /** Derives the next root key and changes chains. */
    method StepRoot(lab: Label, h: Header, prev: KeyBuffer?, nr: u32) returns (err: Option<Error>, ghost calls: nat)
      requires Valid() && (prev != null ==> prev !in Footprint())
      modifies this, rk, recvChains.repr, mkSkipped, prev
      ensures Valid() && fresh(rk) && fresh(recvChains.repr - old(recvChains.repr)) && fresh(mkSkipped.repr - old(mkSkipped.repr))
      ensures unchanged(`recvChains) && unchanged(`mkSkipped) && unchanged(`cks) && unchanged(`ns) && unchanged(`pn) && unchanged(`dhs)
      ensures err == if prev != null && h.pn > nr && h.pn - nr > MaxSkip(config) then Some(MaxSkipExceeded) else None
      ensures err.None? ==>
                var dh := Dh(dhs, h.pk);
                && rk.key == RootKey(old(rk.key), dh)
                && mkSkipped.contents == (if prev == null then old(mkSkipped.contents)
                     else StoreRange(MaxSkip(config), old(mkSkipped.contents), lab, old(prev.key), nr, h.pn))
                && recvChains.contents == Ec.PushChain(old(recvChains.contents), Ec.Chain(h.pk, ChainKey(old(rk.key), dh), 0))
                && dhr == h.pk && dhRSet && dhRatchetPerformed
      ensures calls <= MaxSkip(config)
    {
      hide ReceiverChains.Valid, Storage.Valid, StoreRange, Ec.PushChain, Dh;
      var dh := Dh(dhs, h.pk);
      var newRk := new KeyBuffer(RootKey(rk.key, dh));
      var ckr := new KeyBuffer(ChainKey(rk.key, dh));
      ReplaceRoot(newRk);
      err, calls := ChangeChains(lab, h, prev, nr, ckr);
    }

    /** The receiving half of a DH step. On an error the session is left half way; the caller
        restores it. */
    method PerformDHRatchetRecv(h: Header) returns (err: Option<Error>, ghost calls: nat)
      requires Valid()
      modifies this, rk, recvChains.repr, mkSkipped
      ensures Valid() && (rk == old(rk) || fresh(rk))
      ensures fresh(recvChains.repr - old(recvChains.repr)) && fresh(mkSkipped.repr - old(mkSkipped.repr))
      ensures unchanged(`recvChains) && unchanged(`mkSkipped) && unchanged(`cks)
      ensures err == (if Ec.RatchetRecv(config, old(View()), h).Err? then Some(Ec.RatchetRecv(config, old(View()), h).error) else None)
      ensures err.None? ==> View() == Ec.RatchetRecv(config, old(View()), h).value
      ensures calls <= MaxSkip(config)
    {
      hide ReceiverChains.Valid, Storage.Valid, StoreRange, Ec.PushChain, Ec.PreviousChain, Dh;
      calls := 0;
      if h.pk == ZERO32 {
        return Some(InvalidInput), 0;
      }
      var prev, prevNr := CopyPrevious();
      if h.pk in config.lowOrder {
        ZeroBytes(prev);
        return Some(LowOrderPoint), 0;
      }
      err, calls := StepRoot(RatchetLabel(dhr), h, prev, prevNr);
    }

    /** Reads the header's position off the chain of its ratchet key. */
    method ReadChain(h: Header) returns (r: Result<Key>, ghost calls: nat)
      requires Valid() && (h.n < U32_MAX || !Ec.Reaches(config, recvChains.contents, h))
      modifies recvChains.repr, mkSkipped
      ensures Valid() && fresh(recvChains.repr - old(recvChains.repr)) && fresh(mkSkipped.repr - old(mkSkipped.repr))
      ensures var spec := Ec.ReceiveOnChain(config, old(View()), h);
              && (spec.Err? ==> r == Err(spec.error))
              && (spec.Ok? ==> r == Ok(spec.value.0) && View() == spec.value.1)
      ensures calls <= MaxSkip(config) + 1
    {
      hide ReceiverChains.Valid, Storage.Valid, Slot, StoreRange, Ec.FindChain;
      calls := 0;
      var chain := recvChains.Get(h.pk);
      if chain == null {
        return Err(InvalidTransition), 0;
      }
      ghost var i := Ec.FindChain(recvChains.contents, h.pk);
      r, calls := ReadPosition(recvChains, mkSkipped, chain, RatchetLabel(h.pk), h.n, i);
    }

    /** The message key of a header. On an error the session is left half way; the caller
        restores it. */
    method RatchetReceiveKey(h: Header) returns (r: Result<Key>, ghost calls: nat)
      requires Valid() && Ec.Returns(config, View(), h)
      modifies this, rk, recvChains.repr, mkSkipped.repr
      ensures Valid() && (rk == old(rk) || fresh(rk))
      ensures fresh(recvChains.repr - old(recvChains.repr)) && fresh(mkSkipped.repr - old(mkSkipped.repr))
      ensures unchanged(`recvChains) && unchanged(`mkSkipped) && unchanged(`cks)
      ensures var spec := Ec.ReceiveKey(config, old(View()), h);
              && (spec.Err? ==> r == Err(spec.error))
              && (spec.Ok? ==> r == Ok(spec.value.0) && View() == spec.value.1)
      ensures calls <= 2 * MaxSkip(config) + 1
    {
      hide ReceiverChains.Valid, Storage.Valid, Has, Lookup, Remove, Ec.FindChain, Ec.RatchetRecv, Ec.ReceiveOnChain, Ec.Reaches;
      calls := 0;
      var found := TakeSkipped(h);
      if found.Some? {
        return Ok(found.value), 0;
      }
      var isCurrent := dhRSet && dhr == h.pk;
      var isOld := recvChains.Has(h.pk);
      if !isCurrent && !isOld {
        var err, steps := PerformDHRatchetRecv(h);
        calls := steps;
        if err.Some? {
          return Err(err.value), calls;
        }
      }
      ghost var steps: nat;
      r, steps := ReadChain(h);
      calls := calls + steps;
    }

    /** Takes the filed key of a header's position, if there is one. */
    method TakeSkipped(h: Header) returns (found: Option<Key>)
      requires Valid()
      modifies mkSkipped.repr
      ensures Valid() && mkSkipped.repr == old(mkSkipped.repr)
      ensures var id := Id(RatchetLabel(h.pk), h.n);
              && (found.Some? <==> Has(old(View()).skipped, id))
              && (found.Some? ==> found.value == Lookup(old(View()).skipped, id) && View() == old(View()).(skipped := Remove(old(View()).skipped, id)))
              && (found.None? ==> View() == old(View()))
    {
      hide ReceiverChains.Valid, Storage.Valid;
      found := mkSkipped.Get(Id(RatchetLabel(h.pk), h.n));
    }

    method Restore(p: PrevState)
      modifies `mkSkipped, `recvChains, `rk, `cks, `ns, `pn, `dhr, `dhs, `dhRatchetPerformed, `dhRSet
      ensures mkSkipped == p.mkSkipped && recvChains == p.recvChains && rk == p.rk && cks == p.cks && ns == p.ns && pn == p.pn
      ensures dhr == p.dhr && dhs == p.dhs && dhRatchetPerformed == p.pending && dhRSet == p.dhRSet
    {
      ns, pn, rk, dhs, dhr, cks := p.ns, p.pn, p.rk, p.dhs, p.dhr, p.cks;
      recvChains, mkSkipped, dhRSet, dhRatchetPerformed := p.recvChains, p.mkSkipped, p.dhRSet, p.pending;
    }

    method EraseLive()
      requires Valid()
      modifies rk, cks, recvChains.repr
      ensures rk.key == Zeroed && (cks != null ==> cks.key == Zeroed) && recvChains.contents == []
    {
      hide ReceiverChains.Valid, Storage.Valid;
      ZeroBytes(rk);
      ZeroBytes(cks);
      recvChains.Clear();
    }

    /** Erases what the failed call has left and goes back to the snapshot. The chains and the
        store then are the snapshot's own objects. */
    method Rollback()
      requires Valid() && invariants.Complete(MaxSkip(config)) && invariants.held !! Footprint()
      modifies this, rk, cks, recvChains.repr
      ensures Valid() && View() == invariants.kept
      ensures fresh(Footprint() - {this, invariants} - invariants.held)
    {
      hide ReceiverChains.Valid, Storage.Valid;
      var prev := invariants.GetPrevState(MaxSkip(config));
      EraseLive();
      Restore(prev);
    }

    /** Derives a message's key and opens it. */
    method Receive(m: Ec.Message, ad: bytes) returns (r: Result<bytes>, ghost calls: nat)
      requires Valid() && Ec.Returns(config, View(), m.header)
      modifies this, rk, recvChains.repr, mkSkipped.repr
      ensures Valid() && (rk == old(rk) || fresh(rk))
      ensures fresh(recvChains.repr - old(recvChains.repr)) && fresh(mkSkipped.repr - old(mkSkipped.repr))
      ensures unchanged(`recvChains) && unchanged(`mkSkipped) && unchanged(`cks)
      ensures r == Ec.Decrypt(config, old(View()), m, ad).0
      ensures r.Ok? ==> View() == Ec.Decrypt(config, old(View()), m, ad).1
      ensures calls <= 2 * MaxSkip(config) + 1
    {
      hide ReceiverChains.Valid, Storage.Valid, Ec.ReceiveKey, Ec.Returns, BuildAD;
      var k;
      k, calls := RatchetReceiveKey(m.header);
      if k.Err? {
        return Err(k.error), calls;
      }
      var text := Open(k.value, m.ct, BuildAD(config, EncodeHeader(m.header), ad, false));
      r := if text.None? then Err(AuthFailure) else Ok(text.value);
    }

    /** Decrypts a message. Whatever goes wrong, and however far the call got, a failed call
        leaves the session standing for the state it found. */
    method Decrypt(m: Ec.Message, ad: bytes) returns (r: Result<bytes>, ghost calls: nat)
      requires Valid() && Ec.Returns(config, View(), m.header)
      modifies Footprint()
      ensures Valid() && fresh(Footprint() - old(Footprint()))
      ensures (r, View()) == Ec.Decrypt(config, old(View()), m, ad)
      ensures r.Err? ==> View() == old(View())
      ensures r.Ok? ==> invariants.Complete(MaxSkip(config)) && invariants.kept == old(View()) && invariants.held !! Footprint()
      ensures calls <= 2 * MaxSkip(config) + 1
    {
      hide ReceiverChains.Valid, Storage.Valid, Invariants.Complete, Ec.Decrypt, Ec.Returns;
      ghost var s := View();
      invariants.Record(ns, pn, rk, dhs, dhr, cks, recvChains, mkSkipped, dhRSet, dhRatchetPerformed);
      r, calls := Receive(m, ad);
      FailureKeeps(config, s, m, ad);
      if r.Err? {
        Rollback();
      }
    }
  }

  method NewBuffers(rk: Key, cks: Option<Key>) returns (rootKey: KeyBuffer, sendKey: KeyBuffer?)
    ensures fresh(rootKey) && rootKey.key == rk
    ensures sendKey == null <==> cks.None?
    ensures sendKey != null ==> fresh(sendKey) && sendKey != rootKey && sendKey.key == cks.value
  {
    rootKey := new KeyBuffer(rk);
    sendKey := null;
    if cks.Some? {
      sendKey := new KeyBuffer(cks.value);
    }
  }

  method NewStores(maxSkip: u32) returns (chains: ReceiverChains, store: Storage)
    requires maxSkip <= MAX_SKIP_MAX
    ensures Apart(chains, store) && fresh(chains.repr) && fresh(store.repr)
    ensures chains.contents == [] && store.contents == [] && store.maxSkip == maxSkip
  {
    hide ReceiverChains.Valid, Storage.Valid;
    chains := new ReceiverChains();
    var err;
    err, store := NewStorage(maxSkip);
  }

  lemma WithinLimit(config: Config)
    ensures Validate(config).None? ==> MaxSkip(config) <= MAX_SKIP_MAX
  {}

  /** A session from its parts, all of them new. */
  method Assemble(config: Config, rk: Key, cks: Option<Key>, dhs: key32, dhr: key32, dhRSet: bool) returns (s: Session)
    requires Validate(config).None?
    ensures s.Valid() && fresh(s.Footprint()) && s.config == config
    ensures s.View() == Ec.State(rk, cks, 0, 0, dhs, dhr, dhRSet, false, [], [])
  {
    hide ReceiverChains.Valid, Storage.Valid, Session.Valid, Session.View, Validate, MaxSkip;
    WithinLimit(config);
    var chains, store := NewStores(MaxSkip(config));
    var rootKey, sendKey := NewBuffers(rk, cks);
    s := Join(config, chains, store, rootKey, sendKey, dhs, dhr, dhRSet);
  }

  method Join(config: Config, chains: ReceiverChains, store: Storage, rootKey: KeyBuffer, sendKey: KeyBuffer?, dhs: key32, dhr: key32, dhRSet: bool)
    returns (s: Session)
    requires Apart(chains, store) && store.maxSkip == MaxSkip(config) && rootKey != sendKey
    requires {rootKey} + Buffer(sendKey) !! chains.repr + store.repr
    ensures s.Valid() && s.config == config && fresh(s) && fresh(s.invariants)
    ensures s.Footprint() == {s, s.invariants, rootKey} + Buffer(sendKey) + chains.repr + store.repr
    ensures s.View() == Ec.State(rootKey.key, if sendKey == null then None else Some(sendKey.key), 0, 0, dhs, dhr, dhRSet, false, chains.contents, store.contents)
  {
    hide ReceiverChains.Valid, Storage.Valid, MaxSkip;
    var invariants := new Invariants();
    s := new Session(config, invariants, store, chains, rootKey, sendKey, dhs, dhr, dhRSet);
  }

  /** The initiator's session: it can send at once. `secret` is the first 32 bytes of the shared
      secret, if it has that many. */
  method NewInitiator(secret: Option<Key>, bobPK: key32, gen: Option<key32>, config: Config) returns (err: Option<Error>, s: Session?)
    ensures err == if secret.None? then Some(SharedSecretTooShort)
                   else if Validate(config).Some? then Validate(config)
                   else if gen.None? then Some(NoEntropy)
                   else if bobPK in config.lowOrder then Some(LowOrderPoint)
                   else None
    ensures err.None? ==> s != null && s.Valid() && fresh(s.Footprint()) && s.config == config && s.View() == Ec.InitInitiator(secret.value, bobPK, gen.value)
  {
    if secret.None? {
      return Some(SharedSecretTooShort), null;
    }
    err, s := Validate(config), null;
    if err.Some? {
      return;
    }
    if gen.None? {
      return Some(NoEntropy), null;
    }
    if bobPK in config.lowOrder {
      return Some(LowOrderPoint), null;
    }
    var sk, dh := secret.value, Dh(gen.value, bobPK);
    s := Assemble(config, RootKey(sk, dh), Some(ChainKey(sk, dh)), gen.value, bobPK, true);
  }

  /** The responder's session: it must receive before it can send. */
  method NewResponder(secret: Option<Key>, bob: key32, config: Config) returns (err: Option<Error>, s: Session?)
    ensures err == if secret.None? then Some(SharedSecretTooShort)
                   else if Validate(config).Some? then Validate(config)
                   else if bob == ZERO32 then Some(InvalidInput)
                   else None
    ensures err.None? ==> s != null && s.Valid() && fresh(s.Footprint()) && s.config == config && s.View() == Ec.InitResponder(secret.value, bob)
  {
    if secret.None? {
      return Some(SharedSecretTooShort), null;
    }
    err, s := Validate(config), null;
    if err.Some? {
      return;
    }
    if bob == ZERO32 {
      return Some(InvalidInput), null;
    }
    s := Assemble(config, secret.value, None, bob, ZERO32, false);
  }

  lemma FailureKeeps(cfg: Config, s: Ec.State, m: Ec.Message, ad: bytes)
    ensures Ec.Decrypt(cfg, s, m, ad).0.Err? ==> Ec.Decrypt(cfg, s, m, ad).1 == s
  {}
}
