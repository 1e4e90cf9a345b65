/** The Triple Ratchet session in memory: both halves advance, or both go back. */
module TripleSessions {
  import opened Bytes
  import opened Terms
  import opened Wire
  import opened SkippedStore
  import opened ReceiveChains
  import opened Snapshot
  import opened Sessions
  import opened PqMemory
  import opened PqSessions
  import opened TripleSpec
  import Ec = RatchetSpec
  import Pq = PqSpec
  import TripleTheorems

  class TripleRatchetSession<P> {
    const dr: Session
    const spqr: SPQRSession<P>
    const config: Config

    ghost predicate Valid()
      reads dr, dr.recvChains, dr.recvChains.repr, dr.mkSkipped, dr.mkSkipped.repr
      reads spqr, spqr.kdfChains, spqr.kdfChains.repr, spqr.mkSkipped, spqr.mkSkipped.repr
    {
      && dr.Valid() && dr.config == config
      && spqr.Valid() && spqr.config == config
      && spqr.Footprint() !! dr.Footprint()
    }

    ghost function Footprint(): set<object>
      reads dr, dr.recvChains, dr.mkSkipped, spqr, spqr.kdfChains, spqr.mkSkipped
    {
      spqr.Footprint() + dr.Footprint()
    }

    ghost function View(): TripleSpec.State
      reads dr, dr.rk, dr.cks, dr.recvChains, dr.mkSkipped, spqr, spqr.rk, spqr.kdfChains, spqr.mkSkipped
    {
      TripleSpec.State(dr.View(), spqr.View())
    }

    /** What a call changes: everything but the snapshot. */
    ghost function Live(): (r: set<object>)
      reads dr, dr.recvChains, dr.mkSkipped, spqr, spqr.kdfChains, spqr.mkSkipped
      ensures dr.invariants !in spqr.Footprint() ==> dr.invariants !in r
    {
      spqr.Footprint() + (dr.Footprint() - {dr.invariants})
    }

    lemma LiveOnly()
      requires Valid()
      ensures spqr.Footprint() <= Live() && Footprint() == Live() + {dr.invariants} && dr.invariants !in Live()
    {
      hide SPQRSession.Valid, SPQRSession.Footprint;
      SnapshotApart(dr);
    }

    constructor (dr: Session, spqr: SPQRSession<P>, config: Config)
      ensures this.dr == dr && this.spqr == spqr && this.config == config
    {
      this.dr, this.spqr, this.config := dr, spqr, config;
    }

    // ---- One half at a time ----------------------------------------------------------------

    method SendEc(gen: Option<key32>) returns (r: Result<(Header, Key)>)
      requires Valid()
      modifies Live()
      ensures Valid() && forall o :: o in Live() && o !in old(Live()) ==> fresh(o)
      ensures (r, dr.View()) == Ec.SendKey(config, old(dr.View()), gen)
      ensures spqr.View() == old(spqr.View()) && spqr.scka.state == old(spqr.scka.state)
    {
      hide Session.Valid, SPQRSession.Valid, Ec.SendKey;
      r := dr.RatchetSendKey(gen);
    }

    method SendPq() returns (r: Result<(bytes, u32, Key)>)
      requires Valid()
      modifies Live()
      ensures Valid() && forall o :: o in Live() && o !in old(Live()) ==> fresh(o)
      ensures (r, spqr.View()) == Pq.SendKey(old(spqr.View()), spqr.scka.onSend(old(spqr.scka.state)).1)
      ensures spqr.scka.state == spqr.scka.onSend(old(spqr.scka.state)).0 && dr.View() == old(dr.View())
    {
      hide Session.Valid, SPQRSession.Valid, Pq.SendKey;
      SnapshotApart(dr);
      r := spqr.SendKey();
    }

    method ReceiveEc(h: Header) returns (r: Result<Key>)
      requires Valid() && Ec.Returns(config, dr.View(), h)
      modifies Live()
      ensures Valid() && forall o :: o in Live() && o !in old(Live()) ==> fresh(o)
      ensures var spec := Ec.ReceiveKey(config, old(dr.View()), h);
              && (spec.Err? ==> r == Err(spec.error))
              && (spec.Ok? ==> r == Ok(spec.value.0) && dr.View() == spec.value.1)
      ensures spqr.View() == old(spqr.View()) && spqr.scka.state == old(spqr.scka.state)
    {
      hide Session.Valid, SPQRSession.Valid, Ec.ReceiveKey, Ec.Returns;
      SnapshotApart(dr);
      var ec, _ := dr.RatchetReceiveKey(h);
      r := ec;
    }

    method ReceivePq(hs: SckaHeader) returns (r: Result<(u32, Key)>)
      requires Valid()
      modifies Live()
      ensures Valid() && forall o :: o in Live() && o !in old(Live()) ==> fresh(o)
      ensures (r, spqr.View()) == Pq.ReceiveKey(MaxSkip(config), old(spqr.View()), spqr.scka.onReceive(old(spqr.scka.state), hs.msg).1, hs.n)
      ensures spqr.scka.state == spqr.scka.onReceive(old(spqr.scka.state), hs.msg).0 && dr.View() == old(dr.View())
    {
      hide Session.Valid, SPQRSession.Valid, Pq.ReceiveKey;
      SnapshotApart(dr);
      r := spqr.ReceiveKey(hs);
    }

    // ---- Snapshots -------------------------------------------------------------------------

    /** The snapshots are complete and share nothing with what calls change. */
    ghost predicate Saves(x: Saved)
      reads dr, dr.recvChains, dr.mkSkipped, spqr, spqr.kdfChains, spqr.mkSkipped, dr.invariants, dr.invariants.held, Objects(x)
    {
      && dr.invariants.Complete(MaxSkip(config)) && Sound(x)
      && dr.invariants.held !! Footprint() && Objects(x) !! Footprint() && Objects(x) !! dr.invariants.held
    }

    method RecordEc()
      requires Valid()
      modifies dr.invariants
      ensures Valid() && dr.invariants.Complete(MaxSkip(config)) && fresh(dr.invariants.held) && dr.invariants.kept == dr.View()
      ensures View() == old(View()) && spqr.scka.state == old(spqr.scka.state)
      ensures Footprint() == old(Footprint()) && Live() == old(Live()) && dr.invariants.held !! Footprint()
    {
      hide ReceiverChains.Valid, Storage.Valid, Invariants.Complete, SPQRSession.Valid;
      SnapshotApart(dr);
      dr.invariants.Record(dr.ns, dr.pn, dr.rk, dr.dhs, dr.dhr, dr.cks, dr.recvChains, dr.mkSkipped, dr.dhRSet, dr.dhRatchetPerformed);
    }

    method SavePq() returns (x: Saved)
      requires Valid()
      ensures Sound(x) && fresh(Objects(x)) && Objects(x) !! Footprint() && Shown(x, spqr.direction) == spqr.View()
    {
      hide Session.Valid, SPQRSession.Valid, Sound;
      SnapshotApart(dr);
      x := spqr.Save();
    }

    /** Records both halves and the provider. */
    method TakeSnapshot() returns (x: Saved, provider: P)
      requires Valid()
      modifies dr.invariants
      ensures Valid() && Saves(x) && fresh(dr.invariants.held) && fresh(Objects(x))
      ensures TripleSpec.State(dr.invariants.kept, Shown(x, spqr.direction)) == View() == old(View())
      ensures provider == spqr.scka.state == old(spqr.scka.state)
      ensures Footprint() == old(Footprint()) && Live() == old(Live())
    {
      hide Session.Valid, Invariants.Complete, SPQRSession.Valid, Sound, Session.Footprint, SPQRSession.Footprint, Live;
      RecordEc();
      x := SavePq();
      provider := spqr.scka.Snapshot();
    }

    method RollbackEc(ghost others: set<object>)
      requires Valid() && dr.invariants.Complete(MaxSkip(config)) && dr.invariants.held !! Footprint()
      requires others !! Footprint() && others !! dr.invariants.held
      modifies Live()
      ensures Valid() && dr.View() == dr.invariants.kept && (forall o :: o in Live() && o !in old(Live()) && o !in dr.invariants.held ==> fresh(o))
      ensures spqr.View() == old(spqr.View()) && spqr.Footprint() == old(spqr.Footprint()) && others !! Footprint()
    {
      hide Session.Valid, SPQRSession.Valid, Invariants.Complete;
      SnapshotApart(dr);
      dr.Rollback();
    }

    method RollbackPq(x: Saved, provider: P)
      requires Valid() && Sound(x) && Objects(x) !! Footprint()
      modifies spqr.Footprint()
      ensures Valid() && spqr.View() == old(Shown(x, spqr.direction)) && spqr.scka.state == provider
      ensures dr.View() == old(dr.View()) && (forall o :: o in Live() && o !in old(Live()) && o !in Objects(x) ==> fresh(o)) && Objects(x) == old(Objects(x))
    {
      hide Session.Valid, SPQRSession.Valid, Sound, PairErased;
      SnapshotApart(dr);
      spqr.Restore(x, provider);
    }

    /** Both halves go back to their snapshots, and the provider with them. */
    method Rollback(x: Saved, provider: P)
      requires Valid() && Saves(x)
      modifies Live()
      ensures Valid() && View() == TripleSpec.State(dr.invariants.kept, old(Shown(x, spqr.direction))) && spqr.scka.state == provider
      ensures (forall o :: o in Live() && o !in old(Live()) && o !in dr.invariants.held && o !in Objects(x) ==> fresh(o))
      ensures Objects(x) == old(Objects(x))
    {
      hide Valid, Live, Footprint, Invariants.Complete, Sound, Session.View, SPQRSession.View;
      LiveOnly();
      RollbackEc(Objects(x));
      RollbackPq(x, provider);
    }

    // ---- Messages --------------------------------------------------------------------------

    /** Derives both halves' keys and seals. On an error both halves may be left half way; the
        caller restores them. */
    method Transmit(text: bytes, ad: bytes, gen: Option<key32>) returns (r: Result<TripleMessage>)
      requires Valid()
      modifies Live()
      ensures Valid() && forall o :: o in Live() && o !in old(Live()) ==> fresh(o)
      ensures var out := spqr.scka.onSend(old(spqr.scka.state));
              && r == TripleSpec.Encrypt(config, old(View()), text, ad, gen, out.1).0
              && (r.Ok? ==> View() == TripleSpec.Encrypt(config, old(View()), text, ad, gen, out.1).1 && spqr.scka.state == out.0)
    {
      hide Valid, Live, Session.View, SPQRSession.View, Ec.SendKey, Pq.SendKey, TripleAD;
      var ec := SendEc(gen);
      if ec.Err? {
        return Err(ec.error);
      }
      var pq := SendPq();
      if pq.Err? {
        return Err(pq.error);
      }
      var (h, ecKey) := ec.value;
      var (msg, n, pqKey) := pq.value;
      var hs := SckaHeader(msg, n);
      r := Ok(TripleMessage(TripleHeader(h, Some(hs)), Sealed(Hybrid(pqKey, ecKey), TripleAD(config, h, hs, ad, true), text)));
    }

    /** Encrypts a message. A failed call restores both halves and the provider. */
    method Encrypt(text: bytes, ad: bytes, gen: Option<key32>) returns (r: Result<TripleMessage>)
      requires Valid()
      modifies Footprint()
      ensures Valid() && fresh(Footprint() - old(Footprint()))
      ensures var out := spqr.scka.onSend(old(spqr.scka.state));
              && (r, View()) == TripleSpec.Encrypt(config, old(View()), text, ad, gen, out.1)
              && spqr.scka.state == (if r.Ok? then out.0 else old(spqr.scka.state))
      ensures r.Err? ==> View() == old(View())
    {
      hide Valid, Live, Footprint, Saves, TripleSpec.Encrypt, Session.View, SPQRSession.View, Shown, Objects;
      LiveOnly();
      TripleTheorems.EncryptAllOrNothing(config, View(), text, ad, gen, spqr.scka.onSend(spqr.scka.state).1);
      var snap, provider := TakeSnapshot();
      r := TransmitOrUndo(text, ad, gen, snap, provider);
      LiveOnly();
    }

    method TransmitOrUndo(text: bytes, ad: bytes, gen: Option<key32>, x: Saved, provider: P) returns (r: Result<TripleMessage>)
      requires Valid() && Saves(x)
      modifies Live()
      ensures Valid() && (forall o :: o in Live() && o !in old(Live()) && o !in dr.invariants.held && o !in Objects(x) ==> fresh(o)) && Objects(x) == old(Objects(x))
      ensures var out := spqr.scka.onSend(old(spqr.scka.state));
              && r == TripleSpec.Encrypt(config, old(View()), text, ad, gen, out.1).0
              && (r.Ok? ==> View() == TripleSpec.Encrypt(config, old(View()), text, ad, gen, out.1).1 && spqr.scka.state == out.0)
              && (r.Err? ==> View() == TripleSpec.State(dr.invariants.kept, old(Shown(x, spqr.direction))) && spqr.scka.state == provider)
    {
      hide Valid, Live, Footprint, Invariants.Complete, Sound, Session.View, SPQRSession.View, TripleSpec.Encrypt;
      LiveOnly();
      r := Transmit(text, ad, gen);
      LiveOnly();
      if r.Err? {
        Rollback(x, provider);
      }
    }

    /** Derives both halves' keys and opens. On an error both halves may be left half way; the
        caller restores them. */
    method Receive(h: Header, hs: SckaHeader, ct: Ciphertext, ad: bytes) returns (r: Result<bytes>)
      requires Valid() && Ec.Returns(config, dr.View(), h)
      modifies Live()
      ensures Valid() && forall o :: o in Live() && o !in old(Live()) ==> fresh(o)
      ensures var out := spqr.scka.onReceive(old(spqr.scka.state), hs.msg);
              var m := TripleMessage(TripleHeader(h, Some(hs)), ct);
              && r == TripleSpec.Decrypt(config, old(View()), m, ad, out.1).0
              && (r.Ok? ==> View() == TripleSpec.Decrypt(config, old(View()), m, ad, out.1).1 && spqr.scka.state == out.0)
    {
      hide Valid, Live, Session.View, SPQRSession.View, Ec.ReceiveKey, Ec.Returns, Pq.ReceiveKey, TripleAD;
      var ec := ReceiveEc(h);
      if ec.Err? {
        return Err(ec.error);
      }
      var pq := ReceivePq(hs);
      if pq.Err? {
        return Err(pq.error);
      }
      var text := Open(Hybrid(pq.value.1, ec.value), ct, TripleAD(config, h, hs, ad, false));
      r := if text.None? then Err(AuthFailure) else Ok(text.value);
    }

    /** Decrypts a message. A failed call restores both halves and the provider. */
    method Decrypt(m: TripleMessage, ad: bytes) returns (r: Result<bytes>)
      requires Valid() && (m.header.pq.Some? ==> Ec.Returns(config, dr.View(), m.header.ec))
      modifies Footprint()
      ensures Valid() && fresh(Footprint() - old(Footprint()))
      ensures m.header.pq.None? ==> r == Err(NilHeader) && View() == old(View()) && spqr.scka.state == old(spqr.scka.state)
      ensures m.header.pq.Some? ==>
                var out := spqr.scka.onReceive(old(spqr.scka.state), m.header.pq.value.msg);
                && (r, View()) == TripleSpec.Decrypt(config, old(View()), m, ad, out.1)
                && spqr.scka.state == (if r.Ok? then out.0 else old(spqr.scka.state))
      ensures r.Err? ==> View() == old(View())
    {
      hide Valid, Live, Footprint, Saves, TripleSpec.Decrypt, Ec.Returns, Session.View, SPQRSession.View, Shown, Objects;
      LiveOnly();
      if m.header.pq.None? {
        return Err(NilHeader);
      }
      KeepsAll(config, View(), m, ad, spqr.scka.onReceive(spqr.scka.state, m.header.pq.value.msg).1);
      var snap, provider := TakeSnapshot();
      r := ReceiveOrUndo(m.header.ec, m.header.pq.value, m.ct, ad, snap, provider);
      LiveOnly();
    }

    method ReceiveOrUndo(h: Header, hs: SckaHeader, ct: Ciphertext, ad: bytes, x: Saved, provider: P) returns (r: Result<bytes>)
      requires Valid() && Saves(x) && Ec.Returns(config, dr.View(), h)
      modifies Live()
      ensures Valid() && (forall o :: o in Live() && o !in old(Live()) && o !in dr.invariants.held && o !in Objects(x) ==> fresh(o)) && Objects(x) == old(Objects(x))
      ensures var out := spqr.scka.onReceive(old(spqr.scka.state), hs.msg);
              var m := TripleMessage(TripleHeader(h, Some(hs)), ct);
              && r == TripleSpec.Decrypt(config, old(View()), m, ad, out.1).0
              && (r.Ok? ==> View() == TripleSpec.Decrypt(config, old(View()), m, ad, out.1).1 && spqr.scka.state == out.0)
              && (r.Err? ==> View() == TripleSpec.State(dr.invariants.kept, old(Shown(x, spqr.direction))) && spqr.scka.state == provider)
    {
      hide Valid, Live, Footprint, Invariants.Complete, Sound, Session.View, SPQRSession.View, TripleSpec.Decrypt, Ec.Returns;
      LiveOnly();
      r := Receive(h, hs, ct, ad);
      LiveOnly();
      if r.Err? {
        Rollback(x, provider);
      }
    }
  }

  lemma KeepsAll(config: Config, s: TripleSpec.State, m: TripleMessage, ad: bytes, out: Option<Pq.RecvOut>)
    ensures TripleSpec.Decrypt(config, s, m, ad, out).0.Err? ==> TripleSpec.Decrypt(config, s, m, ad, out).1 == s
  {}

  /** The snapshot lies outside the ring and the store, which count among their own objects. */
  lemma SnapshotApart(s: Session)
    requires s.Valid()
    ensures s.invariants !in s.recvChains.repr + s.mkSkipped.repr
    ensures s.recvChains in s.recvChains.repr && s.mkSkipped in s.mkSkipped.repr
  {}

  // ---- Initialisation ----------------------------------------------------------------------

  /** The initiator's session. `secrets` are the two keys expanded from the first 32 bytes of the
      shared secret, if it has that many. */
  method NewInitiator<P>(secrets: Option<(Key, Key)>, bobPK: key32, gen: Option<key32>, scka: Provider?<P>, config: Config)
    returns (err: Option<Error>, s: TripleRatchetSession?<P>)
    modifies scka
    ensures err == if secrets.None? then Some(SharedSecretTooShort)
                   else if scka == null then Some(NilProvider)
                   else if Validate(config).Some? then Validate(config)
                   else if gen.None? then Some(NoEntropy)
                   else if bobPK in config.lowOrder then Some(LowOrderPoint)
                   else if scka.onInit(old(scka.state), secrets.value.1, Pq.A2B).None? then Some(ProviderFailure)
                   else None
    ensures err.None? ==> s != null && s.Valid() && s.config == config && s.spqr.scka == scka && fresh(s.Footprint() - {scka})
                          && s.View() == TripleSpec.State(Ec.InitInitiator(secrets.value.0, bobPK, gen.value), Pq.Init(secrets.value.1, Pq.A2B))
  {
    hide Session.Valid, TripleRatchetSession.Valid, Pq.Init, Ec.InitInitiator, Validate, Session.View, TripleRatchetSession.View;
    if secrets.None? {
      return Some(SharedSecretTooShort), null;
    }
    if scka == null {
      return Some(NilProvider), null;
    }
    s := null;
    err := Validate(config);
    if err.Some? {
      return;
    }
    var dr;
    err, dr := Sessions.NewInitiator(Some(secrets.value.0), bobPK, gen, config);
    if err.Some? {
      return;
    }
    err, s := AddPq(dr, secrets.value.1, Pq.A2B, scka);
  }

  /** The responder's session. */
  method NewResponder<P>(secrets: Option<(Key, Key)>, bob: key32, scka: Provider?<P>, config: Config)
    returns (err: Option<Error>, s: TripleRatchetSession?<P>)
    modifies scka
    ensures err == if secrets.None? then Some(SharedSecretTooShort)
                   else if scka == null then Some(NilProvider)
                   else if Validate(config).Some? then Validate(config)
                   else if bob == ZERO32 then Some(InvalidInput)
                   else if scka.onInit(old(scka.state), secrets.value.1, Pq.B2A).None? then Some(ProviderFailure)
                   else None
    ensures err.None? ==> s != null && s.Valid() && s.config == config && s.spqr.scka == scka && fresh(s.Footprint() - {scka})
                          && s.View() == TripleSpec.State(Ec.InitResponder(secrets.value.0, bob), Pq.Init(secrets.value.1, Pq.B2A))
  {
    hide Session.Valid, TripleRatchetSession.Valid, Pq.Init, Ec.InitResponder, Validate, Session.View, TripleRatchetSession.View;
    if secrets.None? {
      return Some(SharedSecretTooShort), null;
    }
    if scka == null {
      return Some(NilProvider), null;
    }
    s := null;
    err := Validate(config);
    if err.Some? {
      return;
    }
    var dr;
    err, dr := Sessions.NewResponder(Some(secrets.value.0), bob, config);
    if err.Some? {
      return;
    }
    err, s := AddPq(dr, secrets.value.1, Pq.B2A, scka);
  }

  /** Adds the post-quantum half. */
  method AddPq<P>(dr: Session, secret: Key, direction: Pq.Direction, scka: Provider<P>) returns (err: Option<Error>, s: TripleRatchetSession?<P>)
    requires dr.Valid() && scka !in dr.Footprint()
    modifies scka
    ensures err == if scka.onInit(old(scka.state), secret, direction).None? then Some(ProviderFailure) else None
    ensures err.None? ==> s != null && s.Valid() && s.config == dr.config && s.dr == dr && s.spqr.scka == scka
                          && s.View() == TripleSpec.State(old(dr.View()), Pq.Init(secret, direction))
    ensures err.None? ==> dr.Footprint() == old(dr.Footprint()) && s.Footprint() == dr.Footprint() + s.spqr.Footprint()
                          && forall o :: o in s.spqr.Footprint() && o != scka ==> fresh(o)
  {
    hide Session.Valid, SPQRSession.Valid, Pq.Init;
    SnapshotApart(dr);
    s := null;
    var spqr;
    err, spqr := NewSession(Some(secret), direction, scka, dr.config);
    if err.Some? {
      return;
    }
    s := new TripleRatchetSession(dr, spqr, dr.config);
  }
}
