/** Over a whole run of two header-encryption sessions: while the store has room for what each delivery
    files, no message of the peer is lost. What a session has moved past was accepted or still decrypts. */
module HeaderLossless {
  import opened Bytes
  import opened Terms
  import opened Wire
  import opened SkippedQueue
  import opened History
  import opened HeaderSpec
  import opened HeaderRuns
  import opened HeaderTheorems
  import opened HeaderKept
  import HeaderGaps
  import Base = BaseRuns

  /** The session has moved past position `n` of the peer's epoch `e`. */
  predicate Past(keys: seq<key32>, r: Role, p: HeaderSpec.State, e: nat, n: nat)
    requires |keys| >= 2
  {
    var pe := Base.PeerEpoch(keys, r, p.dr);
    e < pe || (e == pe && n < NextN(p))
  }

  /** Every message of the peer that `r` has moved past was accepted, as `got` says, or is filed. */
  ghost predicate Settled(s: System, r: Role, got: set<nat>)
    requires |s.keys| >= 2
  {
    forall i :: 0 <= i < |s.log| && Owner(s.log[i].epoch) == Peer(r) && Past(s.keys, r, Party(s, r), s.log[i].epoch, s.log[i].header.n) ==>
      i in got || Filed(Party(s, r).dr.skipped, s.log[i].msg.header)
  }

  function Got(w: Base.World, s: System, got: set<nat>, a: Action): set<nat> {
    if a.Deliver? && Decrypt(Base.Cfg(w, a.receiver), Party(s, a.receiver), a.msg, a.ad).0.Ok?
    then got + set i | 0 <= i < |s.log| && s.log[i].msg == a.msg
    else got
  }

  /** The store has room for what an accepted message files. */
  ghost predicate HasRoom(w: Base.World, s: System, a: Action)
    requires |s.keys| >= 2
  {
    a.Deliver? ==>
      var p := Party(s, a.receiver);
      forall k :: 0 <= k < |s.log| && s.log[k].msg == a.msg ==>
        |p.dr.skipped| + Filings(Base.PeerEpoch(s.keys, a.receiver, p.dr), p, a.msg.header, s.log[k].epoch, s.log[k].header)
          <= MaxSkip(Base.Cfg(w, a.receiver))
  }

  ghost predicate LeadsWithRoom(w: Base.World, s: System, got: set<nat>, acts: seq<Action>, t: System, all: set<nat>)
    decreases |acts|
  {
    if acts == [] then s == t && got == all
    else
      && |s.keys| == |s.cnt| >= 2
      && Enabled(w, s, acts[0]) && HasRoom(w, s, acts[0])
      && LeadsWithRoom(w, Step(w, s, acts[0]), Got(w, s, got, acts[0]), acts[1..], t, all)
  }

  // ---- Receiving ---------------------------------------------------------------------------

  /** What one derivation moves past could be read before it, so it is filed. */
  lemma KeyPast(cfg: Config, keys: seq<key32>, cnt: seq<nat>, r: Role, p: HeaderSpec.State, header: SealedHeader, j: nat, h: Header,
                og: SealedHeader, oj: nat, oh: Header)
    requires |keys| == |cnt| >= 2 && PartyInv(keys, cnt, r, p) && KeysOk(keys, cfg.lowOrder) && Other(keys, header, j, h, og, oj, oh)
    requires ReceiveKey(cfg, p, header).Ok? && (oj == j - 2 ==> oh.n < h.pn) && (oj == j ==> oh.pn == h.pn) && Owner(oj) == Owner(j) == Peer(r)
    requires |p.dr.skipped| + Filings(Base.PeerEpoch(keys, r, p.dr), p, header, j, h) <= MaxSkip(cfg)
    requires Past(keys, r, p, oj, oh.n) ==> Filed(p.dr.skipped, og)
    ensures var p1 := ReceiveKey(cfg, p, header).value.1;
            Past(keys, r, p1, oj, oh.n) ==> Filed(p1.dr.skipped, og)
  {
    hide PartyInv, KeysOk, Filed, ReceiveKey, HonestHeader, Filings, Avail, Consumes;
    var pe, p1 := Base.PeerEpoch(keys, r, p.dr), ReceiveKey(cfg, p, header).value.1;
    HonestIndex(keys, header, j, h);
    HonestIndex(keys, og, oj, oh);
    if Past(keys, r, p1, oj, oh.n) {
      Moves(cfg, keys, cnt, r, p, header, j, h);
      SameParity(j, oj);
      KeyKeeps(cfg, keys, cnt, r, p, header, j, h, og, oj, oh);
    }
  }

  lemma SameParity(i: nat, j: nat)
    requires Owner(i) == Owner(j)
    ensures (i - j) % 2 == 0
  {}

  /** Where one derivation takes the session. */
  lemma Moves(cfg: Config, keys: seq<key32>, cnt: seq<nat>, r: Role, p: HeaderSpec.State, header: SealedHeader, j: nat, h: Header)
    requires |keys| == |cnt| >= 2 && PartyInv(keys, cnt, r, p) && KeysOk(keys, cfg.lowOrder) && HonestHeader(keys, header, j, h) && h.n < U32_MAX
    requires ReceiveKey(cfg, p, header).Ok?
    ensures var pe, p1 := Base.PeerEpoch(keys, r, p.dr), ReceiveKey(cfg, p, header).value.1;
            var pe1 := Base.PeerEpoch(keys, r, p1.dr);
            || (pe1 == pe && NextN(p1) == NextN(p))
            || (pe1 == pe == j && NextN(p1) == h.n + 1 && h.n <= NextN(p) + MaxSkip(cfg))
            || (pe1 == pe + 2 == j && NextN(p1) == h.n + 1 && h.n <= MaxSkip(cfg) && (p.dr.chains != [] ==> h.pn <= NextN(p) + MaxSkip(cfg))
                && (pe >= 1 ==> p.dr.chains != []))
  {
    hide StoreInv, HK, MK, Filed, ReceiveKey, ReceiveOnChain, RatchetRecv, Base.ChainsInv, KeysOk, C, R, Opens, Distinct, Adv, Has, StoreRange, EncodeHeader, DecodeHeader;
    var pe := Base.PeerEpoch(keys, r, p.dr);
    HonestIndex(keys, header, j, h);
    if Filed(p.dr.skipped, header) {
      TakeStays(cfg, keys, r, p, header);
    } else {
      HonestOpens(keys, header, j, h);
      OpenedBy(keys, Base.OwnEpoch(keys, r), pe, p, header, j, h);
      if j == pe {
        CurrentOutcome(cfg, p, header, h);
        OnChainOutcome(cfg, keys, j, p, h.n);
        ReadKeepsPending(cfg, p, h.n);
      } else if j == pe + 2 {
        NextOutcome(cfg, p, header, h);
        RatchetRecvKeepsParty(cfg, keys, cnt, r, p, h);
        RatchetRecvExactly(cfg, keys, pe, p, h);
        HasChain(keys, pe, p);
        var p1 := RatchetRecv(cfg, p, h, true).value;
        OnChainOutcome(cfg, keys, j, p1, h.n);
        ReadKeepsPending(cfg, p1, h.n);
      } else {
        NoOutcome(cfg, p, header);
      }
    }
  }

  lemma TakeStays(cfg: Config, keys: seq<key32>, r: Role, p: HeaderSpec.State, header: SealedHeader)
    requires |keys| >= 2 && Filed(p.dr.skipped, header)
    ensures ReceiveKey(cfg, p, header).Ok?
    ensures var p1 := ReceiveKey(cfg, p, header).value.1;
            Base.PeerEpoch(keys, r, p1.dr) == Base.PeerEpoch(keys, r, p.dr) && NextN(p1) == NextN(p)
  {
    hide Filed;
  }

  lemma HasChain(keys: seq<key32>, pe: int, p: HeaderSpec.State)
    requires Base.ChainsInv(keys, pe, p.dr.chains)
    ensures pe >= 1 ==> p.dr.chains != []
  {}

  // ---- Runs --------------------------------------------------------------------------------

  lemma DeliverSettled(w: Base.World, s: System, r: Role, m: HeMessage, ad: bytes, q: Role, got: set<nat>)
    requires Base.Proper(w) && Inv(w, s) && Enabled(w, s, Deliver(r, m, ad)) && |s.keys| == |s.cnt| >= 2 && HasRoom(w, s, Deliver(r, m, ad))
    requires Settled(s, q, got)
    ensures Settled(Step(w, s, Deliver(r, m, ad)), q, Got(w, s, got, Deliver(r, m, ad)))
  {
    hide PartyInv, KeysOk, LogAt, ReceiveKey, Outcome, Filed, Past, Filings, Obtainable;
    var cfg, p := Base.Cfg(w, r), Party(s, r);
    if q == r && Decrypt(cfg, p, m, ad).0.Ok? {
      var k := DeliverySound(w, s, r, m, ad);
      var p1 := ReceiveKey(cfg, p, m.header).value.1;
      forall i | 0 <= i < |s.log| && Owner(s.log[i].epoch) == Peer(r) && Past(s.keys, r, p1, s.log[i].epoch, s.log[i].header.n) && i != k
        ensures i in got || Filed(p1.dr.skipped, s.log[i].msg.header)
      {
        EntryKept(w, s, r, k, i);
      }
    }
  }

  lemma EntryKept(w: Base.World, s: System, r: Role, k: nat, i: nat)
    requires Base.Proper(w) && Inv(w, s) && |s.keys| == |s.cnt| >= 2 && k < |s.log| && i < |s.log| && i != k
    requires Owner(s.log[i].epoch) == Owner(s.log[k].epoch) == Peer(r)
    requires ReceiveKey(Base.Cfg(w, r), Party(s, r), s.log[k].msg.header).Ok?
    requires var p := Party(s, r);
             |p.dr.skipped| + Filings(Base.PeerEpoch(s.keys, r, p.dr), p, s.log[k].msg.header, s.log[k].epoch, s.log[k].header) <= MaxSkip(Base.Cfg(w, r))
    ensures var p, p1, e := Party(s, r), ReceiveKey(Base.Cfg(w, r), Party(s, r), s.log[k].msg.header).value.1, s.log[i];
            Past(s.keys, r, p1, e.epoch, e.header.n) ==> (Past(s.keys, r, p, e.epoch, e.header.n) ==> Filed(p.dr.skipped, e.msg.header)) ==>
              Filed(p1.dr.skipped, e.msg.header)
  {
    hide PartyInv, KeysOk, LogAt, ReceiveKey, Past, Filings, Filed, HonestHeader;
    DistinctEntries(w, s, k, i);
    LogHonest(w, s, k);
    LogHonest(w, s, i);
    if s.log[i].epoch == s.log[k].epoch {
      SameLength(w, s, k, i);
    }
    if Past(s.keys, r, Party(s, r), s.log[i].epoch, s.log[i].header.n) ==> Filed(Party(s, r).dr.skipped, s.log[i].msg.header) {
      KeyPast(Base.Cfg(w, r), s.keys, s.cnt, r, Party(s, r), s.log[k].msg.header, s.log[k].epoch, s.log[k].header,
              s.log[i].msg.header, s.log[i].epoch, s.log[i].header);
    }
  }

  /** Messages of one epoch announce the same previous length. */
  lemma SameLength(w: Base.World, s: System, k: nat, i: nat)
    requires Inv(w, s) && k < |s.log| && i < |s.log| && s.log[i].epoch == s.log[k].epoch
    ensures s.log[i].header.pn == s.log[k].header.pn
  {
    hide PartyInv, KeysOk, HK, MK, EncodeHeader;
    assert LogAt(w, s.keys, s.cnt, s.log[i]) && LogAt(w, s.keys, s.cnt, s.log[k]);
  }

  /** The owed sending step moves no reader. */
  lemma RatchetSettled(w: Base.World, s: System, r: Role, k: key32, q: Role, got: set<nat>)
    requires Inv(w, s) && Party(s, r).dr.pending && |s.keys| >= 2 && RatchetSend(Base.Cfg(w, r), Party(s, r), Some(k)).0.None? && Settled(s, q, got)
    ensures Settled(Ratcheted(w, s, r, k), q, got)
  {
    hide PartyInv, KeysOk, LogAt, HK, Filed;
    PartyOwner(w, s, r);
    var t := Ratcheted(w, s, r, k);
    assert Base.PeerEpoch(t.keys, q, Party(t, q).dr) == Base.PeerEpoch(s.keys, q, Party(s, q).dr);
  }

  /** A message just sent lies ahead of its reader. */
  lemma OnChainSettled(w: Base.World, s: System, r: Role, text: bytes, ad: bytes, gen: Option<key32>, q: Role, got: set<nat>)
    requires Base.Proper(w) && Inv(w, s) && HeaderGaps.AllBounded(s) && !Party(s, r).dr.pending && Party(s, r).dr.ns < U32_MAX && |s.keys| == |s.cnt| >= 2
    requires Settled(s, q, got)
    ensures var t := Step(w, s, Send(r, text, ad, gen)); |t.keys| >= 2 && Settled(t, q, got)
  {
    hide PartyInv, KeysOk, LogAt, HK, Filed, Encrypt, Step, HeaderGaps.StoreBounded;
    if Base.OwnEpoch(s.keys, r) != 0 {
      SentEntry(w, s, r, text, ad, gen);
      SendingSet(s.keys, s.cnt, r, Party(s, r));
      EncryptFrame(Base.Cfg(w, r), Party(s, r), text, ad, gen);
      var t := Step(w, s, Send(r, text, ad, gen));
      AheadOfReader(w, s, r);
      forall i | 0 <= i < |t.log| && Owner(t.log[i].epoch) == Peer(q) && Past(t.keys, q, Party(t, q), t.log[i].epoch, t.log[i].header.n)
        ensures i in got || Filed(Party(t, q).dr.skipped, t.log[i].msg.header)
      {
        if i < |s.log| {
          assert t.log[i] == s.log[i];
        }
      }
    } else {
      SendKeepsParty(Base.Cfg(w, r), s.keys, s.cnt, r, Party(s, r), text, ad, gen);
      NothingSent(w, s, r, text, ad, gen);
    }
  }

  lemma AheadOfReader(w: Base.World, s: System, r: Role)
    requires Inv(w, s) && HeaderGaps.AllBounded(s) && |s.keys| == |s.cnt| >= 2 && Base.OwnEpoch(s.keys, r) != 0
    ensures var j := Base.OwnEpoch(s.keys, r);
            && !Past(s.keys, Peer(r), Party(s, Peer(r)), j, s.cnt[j]) && Owner(j) == r
  {
    hide StoreInv, Base.ChainsInv, KeysOk, LogAt, HeaderKeysInv, HeaderGaps.StoreBounded;
  }

  lemma SendSettled(w: Base.World, s: System, a: Action, q: Role, got: set<nat>)
    requires Base.Proper(w) && Inv(w, s) && HeaderGaps.AllBounded(s) && a.Send? && Enabled(w, s, a) && |s.keys| == |s.cnt| >= 2
    requires Settled(s, q, got)
    ensures |Step(w, s, a).keys| >= 2 && Settled(Step(w, s, a), q, got)
  {
    hide Inv, Settled, Step, RatchetSend, HeaderGaps.AllBounded;
    var r := a.sender;
    if Party(s, r).dr.pending {
      RatchetedInv(w, s, r, a.gen.value);
      HeaderGaps.RatchetBounded(w, s, r, a.gen.value);
      RatchetSettled(w, s, r, a.gen.value, q, got);
      StepRatcheted(w, s, r, a.text, a.sendAd, a.gen);
      InvSize(w, Ratcheted(w, s, r, a.gen.value));
      OnChainSettled(w, Ratcheted(w, s, r, a.gen.value), r, a.text, a.sendAd, a.gen, q, got);
    } else {
      OnChainSettled(w, s, r, a.text, a.sendAd, a.gen, q, got);
    }
  }

  lemma {:induction false} RunSettled(w: Base.World, s: System, got: set<nat>, acts: seq<Action>, t: System, all: set<nat>)
    requires Base.Proper(w) && Inv(w, s) && HeaderGaps.AllBounded(s) && |s.keys| >= 2 && Settled(s, Initiator, got) && Settled(s, Responder, got)
    requires LeadsWithRoom(w, s, got, acts, t, all)
    ensures Inv(w, t) && |t.keys| >= 2 && Settled(t, Initiator, all) && Settled(t, Responder, all)
    decreases |acts|
  {
    hide Inv, Step, HeaderGaps.AllBounded, Settled, Obtainable, HasRoom, Got;
    if acts != [] {
      StepInv(w, s, acts[0]);
      match acts[0] {
        case Send(r, text, ad, gen) =>
          HeaderGaps.SendBounded(w, s, r, text, ad, gen);
          SendSettled(w, s, acts[0], Initiator, got);
          SendSettled(w, s, acts[0], Responder, got);
          NothingGot(w, s, got, acts[0]);
        case Deliver(r, m, ad) =>
          HeaderGaps.DeliverBounded(w, s, r, m, ad);
          DeliverSettled(w, s, r, m, ad, Initiator, got);
          DeliverSettled(w, s, r, m, ad, Responder, got);
      }
      InvSize(w, Step(w, s, acts[0]));
      RunSettled(w, Step(w, s, acts[0]), Got(w, s, got, acts[0]), acts[1..], t, all);
    }
  }

  lemma NothingGot(w: Base.World, s: System, got: set<nat>, a: Action)
    requires a.Send?
    ensures Got(w, s, got, a) == got
  {}

  /** Nothing is lost: after any run in which the store always had room, a message of the peer that a
      session has moved past, in the epoch it reads or by leaving an epoch, has been accepted or still
      decrypts to its text. */
  lemma NothingLost(w: Base.World, bob: key32, alice: key32, acts: seq<Action>, t: System, all: set<nat>, r: Role, i: nat)
    requires Base.Proper(w) && KeysOk([bob, alice], w.init.lowOrder) && LeadsWithRoom(w, Start(bob, alice), {}, acts, t, all)
    requires i < |t.log| && Owner(t.log[i].epoch) == Peer(r) && i !in all
    requires |t.keys| >= 2 && Past(t.keys, r, Party(t, r), t.log[i].epoch, t.log[i].header.n)
    ensures Decrypt(Base.Cfg(w, r), Party(t, r), t.log[i].msg, t.log[i].ad).0 == Ok(t.log[i].text)
  {
    hide Inv, KeysOk, LeadsWithRoom, Filed, Decrypt, Past, HeaderGaps.AllBounded;
    InvStart(w, bob, alice);
    StartSettled(bob, alice);
    RunSettled(w, Start(bob, alice), {}, acts, t, all);
    SettledEntry(t, r, all, i);
    DeliveryWindow(w, t, r, i);
  }

  lemma SettledEntry(s: System, r: Role, got: set<nat>, i: nat)
    requires |s.keys| >= 2 && Settled(s, r, got) && i < |s.log| && Owner(s.log[i].epoch) == Peer(r) && i !in got
    requires Past(s.keys, r, Party(s, r), s.log[i].epoch, s.log[i].header.n)
    ensures Filed(Party(s, r).dr.skipped, s.log[i].msg.header)
  {}

  lemma StartSettled(bob: key32, alice: key32)
    ensures var s := Start(bob, alice); HeaderGaps.AllBounded(s) && Settled(s, Initiator, {}) && Settled(s, Responder, {})
  {}
}
