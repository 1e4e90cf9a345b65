/** What every run of two header-encryption sessions satisfies. */
module HeaderTheorems {
  import opened Bytes
  import opened Terms
  import opened Wire
  import opened SkippedQueue
  import opened History
  import opened HeaderSpec
  import opened HeaderRuns
  import Base = BaseRuns

  /** Position in the log of the message `m`, or the length of the log. */
  function Index(log: seq<Sent>, m: HeMessage): (i: nat)
    ensures i <= |log|
    ensures i < |log| ==> log[i].msg == m
    ensures forall k :: 0 <= k < i ==> log[k].msg != m
  {
    if log == [] then 0 else if log[0].msg == m then 0 else 1 + Index(log[1..], m)
  }

  /** The log entry whose message an action gets accepted, if any. */
  function Accepted(w: Base.World, s: System, a: Action): multiset<nat> {
    if a.Deliver? && Decrypt(Base.Cfg(w, a.receiver), Party(s, a.receiver), a.msg, a.ad).0.Ok?
    then multiset{Index(s.log, a.msg)}
    else multiset{}
  }

  /** The actions `acts`, each enabled when it is taken, lead from `s` to `t`; `got` counts how
      often each sent message was accepted. */
  ghost predicate Leads(w: Base.World, s: System, acts: seq<Action>, t: System, got: multiset<nat>)
    decreases |acts|
  {
    if acts == [] then s == t && got == multiset{}
    else
      && |s.keys| == |s.cnt| >= 2
      && Enabled(w, s, acts[0])
      && exists rest :: got == Accepted(w, s, acts[0]) + rest && Leads(w, Step(w, s, acts[0]), acts[1..], t, rest)
  }

  // ---- Header keys in lock step ------------------------------------------------------------

  /** The peer of `r` reads with `r`'s sending header keys; or `r` is one step ahead, and the
      peer's next key is the one `r` seals with. */
  ghost predicate HeaderLockStep(s: System, r: Role) {
    var a, b := Party(s, r), Party(s, Peer(r));
    && (b.hkr.key == a.hks.key <==> b.nhkr.key == a.nhks.key)
    && (b.hkr.key == a.hks.key || b.nhkr.key == a.hks.key)
    && !(b.hkr.key == a.hks.key && b.nhkr.key == a.hks.key)
    && (b.hkr.key == a.hks.key <==> b.dr.dhRSet && b.dr.dhr == a.dr.dhs)
  }

  lemma InvLockStep(w: Base.World, s: System, r: Role)
    requires Inv(w, s)
    ensures HeaderLockStep(s, r)
  {
    hide LogAt;
    PartyLockStep(s.keys, s.cnt, w.init.lowOrder, r, Party(s, r), Party(s, Peer(r)));
  }

  lemma PartyLockStep(keys: seq<key32>, cnt: seq<nat>, lowOrder: set<key32>, r: Role, a: HeaderSpec.State, b: HeaderSpec.State)
    requires |keys| == |cnt| >= 2 && KeysOk(keys, lowOrder) && PartyInv(keys, cnt, r, a) && PartyInv(keys, cnt, Peer(r), b)
    ensures b.hkr.key == a.hks.key <==> b.nhkr.key == a.nhks.key
    ensures b.hkr.key == a.hks.key || b.nhkr.key == a.hks.key
    ensures !(b.hkr.key == a.hks.key && b.nhkr.key == a.hks.key)
    ensures b.hkr.key == a.hks.key <==> b.dr.dhRSet && b.dr.dhr == a.dr.dhs
  {
    hide StoreInv, Base.ChainsInv, HK, R, C, Adv;
    var me: int, pe := Base.OwnEpoch(keys, r), Base.PeerEpoch(keys, Peer(r), b.dr);
    assert pe == me || pe == me - 2;
    HKDistinct(keys, me, pe);
  }

  lemma HKDistinct(keys: seq<key32>, me: nat, pe: int)
    requires me < |keys| && -1 <= pe && (pe == me || pe == me - 2)
    ensures me >= 1 ==> HK(keys, me) != Zeroed && HK(keys, me) != HK(keys, me + 2)
    ensures pe >= 1 ==> HK(keys, pe) != HK(keys, pe + 2) && HK(keys, pe) != Zeroed
    ensures HK(keys, me + 2) != HK(keys, pe + 2) || pe == me
    ensures HK(keys, me + 2) != Zeroed && HK(keys, pe + 2) != Zeroed
  {
    hide HK;
    HKSecret(keys, me + 2);
    HKSecret(keys, pe + 2);
    if me >= 1 {
      HKSecret(keys, me);
      if HK(keys, me) == HK(keys, me + 2) { HKInjective(keys, me, me + 2); }
    }
    if pe >= 1 {
      HKSecret(keys, pe);
      if HK(keys, pe) == HK(keys, pe + 2) { HKInjective(keys, pe, pe + 2); }
    }
    if HK(keys, me + 2) == HK(keys, pe + 2) { HKInjective(keys, me + 2, pe + 2); }
  }

  // ---- Who opens a header ------------------------------------------------------------------

  /** An honest header of the peer opens under the current header key exactly when it carries the
      remote key in use, under the next one exactly when it carries a ratchet key not yet received,
      and under no stored key but the one filed for its own chain and position. A header whose key
      is filed does not open under the next header key, and opens under the current one exactly if
      it was filed for the current chain, which has then passed its position. */
  lemma OneOpener(w: Base.World, s: System, r: Role, i: nat)
    requires Inv(w, s) && i < |s.log| && Owner(s.log[i].epoch) == Peer(r)
    ensures var p, e := Party(s, r), s.log[i];
            && !(Opens(p.hkr.key, e.msg.header) && Opens(p.nhkr.key, e.msg.header))
            && (Opens(p.hkr.key, e.msg.header) <==> p.dr.dhRSet && p.dr.dhr == e.header.pk)
            && (Opens(p.nhkr.key, e.msg.header) <==> e.epoch > Base.PeerEpoch(s.keys, r, p.dr))
            && (forall x, y :: x in p.dr.skipped && Serves(x, e.msg.header) && y in p.dr.skipped && Serves(y, e.msg.header) ==> x == y)
            && (Filed(p.dr.skipped, e.msg.header) ==>
                 && !Opens(p.nhkr.key, e.msg.header)
                 && (Opens(p.hkr.key, e.msg.header) <==> e.epoch == Base.PeerEpoch(s.keys, r, p.dr))
                 && (Opens(p.hkr.key, e.msg.header) ==> e.header.n < NextN(p)))
  {
    hide PartyInv, KeysOk, LogAt, HonestHeader, Serves;
    LogHonest(w, s, i);
    PartyOpener(s.keys, s.cnt, w.init.lowOrder, r, Party(s, r), s.log[i].msg.header, s.log[i].epoch, s.log[i].header);
  }

  lemma PartyOpener(keys: seq<key32>, cnt: seq<nat>, lowOrder: set<key32>, r: Role, p: HeaderSpec.State, header: SealedHeader, j: nat, h: Header)
    requires |keys| == |cnt| >= 2 && PartyInv(keys, cnt, r, p) && KeysOk(keys, lowOrder) && HonestHeader(keys, header, j, h)
    requires Owner(j) == Peer(r)
    ensures !(Opens(p.hkr.key, header) && Opens(p.nhkr.key, header))
    ensures Opens(p.hkr.key, header) <==> p.dr.dhRSet && p.dr.dhr == h.pk
    ensures Opens(p.nhkr.key, header) <==> j > Base.PeerEpoch(keys, r, p.dr)
    ensures forall x, y :: x in p.dr.skipped && Serves(x, header) && y in p.dr.skipped && Serves(y, header) ==> x == y
    ensures Filed(p.dr.skipped, header) ==>
              && !Opens(p.nhkr.key, header)
              && (Opens(p.hkr.key, header) <==> j == Base.PeerEpoch(keys, r, p.dr))
              && (Opens(p.hkr.key, header) ==> h.n < NextN(p))
  {
    hide StoreInv, Base.ChainsInv, HK, R, C, Adv, Opens, Serves, Distinct, Filed;
    OpenedBy(keys, Base.OwnEpoch(keys, r), Base.PeerEpoch(keys, r, p.dr), p, header, j, h);
    if Filed(p.dr.skipped, header) {
      FiledKey(keys, Base.PeerEpoch(keys, r, p.dr), NextN(p), p.dr.skipped, header, j, h);
    }
    PartyStore(keys, cnt, r, p);
    forall x, y | x in p.dr.skipped && Serves(x, header) && y in p.dr.skipped && Serves(y, header)
      ensures x == y
    {
      ServingEntry(p.dr.skipped, x, header);
      ServingEntry(p.dr.skipped, y, header);
    }
  }

  // ---- The delivery window -----------------------------------------------------------------

  /** The exact delivery window: an honest message of the peer decrypts, to the text that was
      sent, if and only if its key is filed, or it lies ahead within reach on the current chain,
      or it opens the peer's next epoch within reach. */
  lemma DeliveryWindow(w: Base.World, s: System, r: Role, i: nat)
    requires Base.Proper(w) && Inv(w, s) && i < |s.log| && Owner(s.log[i].epoch) == Peer(r)
    requires |s.keys| >= 2
    ensures var e, cfg, p := s.log[i], Base.Cfg(w, r), Party(s, r);
            var res := Decrypt(cfg, p, e.msg, e.ad).0;
            && (res.Ok? <==> InWindow(cfg, Base.PeerEpoch(s.keys, r, p.dr), p, e.msg.header, e.epoch, e.header))
            && (res.Ok? ==> res.value == e.text)
  {
    hide PartyInv, KeysOk, LogAt, HonestHeader, ReceiveKey, InWindow, MK, IdentityPrefix;
    var e, cfg, p := s.log[i], Base.Cfg(w, r), Party(s, r);
    LogHonest(w, s, i);
    HonestOutcome(cfg, s.keys, s.cnt, r, p, e.msg.header, e.epoch, e.header);
    PairedPrefix(Base.Cfg(w, Peer(r)), cfg);
  }

  // ---- At most once ------------------------------------------------------------------------

  /** The peer of its author can still come to accept log entry `i`. */
  ghost predicate Open(s: System, i: nat)
    requires |s.keys| >= 2
  {
    i < |s.log| ==>
      var r := Peer(Owner(s.log[i].epoch));
      Avail(s.keys, Base.PeerEpoch(s.keys, r, Party(s, r).dr), Party(s, r), s.log[i].epoch, s.log[i].header.n)
  }

  lemma DeliverConsumes(w: Base.World, s: System, r: Role, m: HeMessage, ad: bytes)
    requires Base.Proper(w) && Inv(w, s) && Enabled(w, s, Deliver(r, m, ad)) && |s.keys| == |s.cnt| >= 2
    ensures var t := Step(w, s, Deliver(r, m, ad));
            && t.keys == s.keys && t.log == s.log
            && (forall i :: Open(t, i) ==> Open(s, i))
            && (forall i :: i in Accepted(w, s, Deliver(r, m, ad)) ==> i < |s.log| && Open(s, i) && !Open(t, i))
  {
    hide PartyInv, KeysOk, LogAt, Outcome, ReceiveKey, Avail, HonestHeader, Obtainable;
    if Decrypt(Base.Cfg(w, r), Party(s, r), m, ad).0.Ok? {
      var k := DeliverySound(w, s, r, m, ad);
      OutcomePeer(Base.Cfg(w, r), s.keys, s.cnt, r, Party(s, r), m.header, s.log[k].epoch, s.log[k].header);
      var i := Index(s.log, m);
      SameHeader(w, s, i, k);
      SameEpoch(w, s, i, k);
    }
  }

  lemma SameEpoch(w: Base.World, s: System, i: nat, k: nat)
    requires Inv(w, s) && i < |s.log| && k < |s.log| && s.log[i].msg.header == s.log[k].msg.header
    ensures s.log[i].epoch == s.log[k].epoch
  {
    hide PartyInv, KeysOk, HK, MK, EncodeHeader;
    assert LogAt(w, s.keys, s.cnt, s.log[i]) && LogAt(w, s.keys, s.cnt, s.log[k]);
    HKInjective(s.keys, s.log[i].epoch, s.log[k].epoch);
  }

  /** Sending opens or closes no earlier entry. */
  lemma SendKeepsOpen(w: Base.World, s: System, r: Role, text: bytes, ad: bytes, gen: Option<key32>)
    requires Base.Proper(w) && Inv(w, s) && Enabled(w, s, Send(r, text, ad, gen)) && |s.keys| == |s.cnt| >= 2
    ensures var t := Step(w, s, Send(r, text, ad, gen));
            |t.keys| >= 2 && forall i :: Open(t, i) ==> Open(s, i)
  {
    hide Inv, Open, Step, RatchetSend;
    if Party(s, r).dr.pending {
      RatchetedInv(w, s, r, gen.value);
      RatchetKeepsOpen(w, s, r, gen.value);
      StepRatcheted(w, s, r, text, ad, gen);
      OnChainKeepsOpen(w, Ratcheted(w, s, r, gen.value), r, text, ad, gen);
    } else {
      OnChainKeepsOpen(w, s, r, text, ad, gen);
    }
  }

  lemma RatchetKeepsOpen(w: Base.World, s: System, r: Role, k: key32)
    requires Inv(w, s) && Party(s, r).dr.pending && |s.keys| >= 2
    ensures forall i :: Open(Ratcheted(w, s, r, k), i) ==> Open(s, i)
  {
    hide PartyInv, KeysOk, LogAt, HK, Has;
    PartyOwner(w, s, r);
    var t := Ratcheted(w, s, r, k);
    forall i: nat | i < |s.log| && Open(t, i)
      ensures Open(s, i)
    {
      LogHonest(w, s, i);
      HKExtends(s.keys, k, s.log[i].epoch);
    }
  }

  lemma OnChainKeepsOpen(w: Base.World, s: System, r: Role, text: bytes, ad: bytes, gen: Option<key32>)
    requires Inv(w, s) && !Party(s, r).dr.pending && Party(s, r).dr.ns < U32_MAX && |s.keys| == |s.cnt| >= 2
    ensures var t := Step(w, s, Send(r, text, ad, gen));
            |t.keys| >= 2 && forall i :: Open(t, i) ==> Open(s, i)
  {
    hide PartyInv, KeysOk, LogAt, HK, Has, Encrypt, Step;
    if Base.OwnEpoch(s.keys, r) != 0 {
      SentEntry(w, s, r, text, ad, gen);
      SendingSet(s.keys, s.cnt, r, Party(s, r));
      EncryptFrame(Base.Cfg(w, r), Party(s, r), text, ad, gen);
      var t := Step(w, s, Send(r, text, ad, gen));
      assert forall i :: 0 <= i < |s.log| ==> t.log[i] == s.log[i];
    } else {
      SendKeepsParty(Base.Cfg(w, r), s.keys, s.cnt, r, Party(s, r), text, ad, gen);
      NothingSent(w, s, r, text, ad, gen);
    }
  }

  lemma SendingSet(keys: seq<key32>, cnt: seq<nat>, r: Role, p: HeaderSpec.State)
    requires |keys| == |cnt| >= 2 && PartyInv(keys, cnt, r, p) && !p.dr.pending && Base.OwnEpoch(keys, r) != 0
    ensures p.dr.cks.Some?
  {
    hide StoreInv, Base.ChainsInv, HeaderKeysInv;
  }

  /** Sending on the current chain touches nothing that receiving depends on. */
  lemma EncryptFrame(cfg: Config, p: HeaderSpec.State, text: bytes, ad: bytes, gen: Option<key32>)
    requires !p.dr.pending && (p.dr.cks.Some? || !p.dr.dhRSet)
    ensures var t := Encrypt(cfg, p, text, ad, gen).1;
            t.dr.chains == p.dr.chains && t.dr.skipped == p.dr.skipped && t.dr.pending == p.dr.pending
  {}

  /** At most once over every run: a sent message is accepted no more than once, failed attempts
      use nothing up, and no run opens an entry again. */
  lemma {:induction false} AtMostOnce(w: Base.World, s: System, acts: seq<Action>, t: System, got: multiset<nat>)
    requires Base.Proper(w) && Inv(w, s) && Leads(w, s, acts, t, got)
    ensures Inv(w, t) && |s.keys| >= 2 && |t.keys| >= 2
    ensures forall i :: got[i] <= 1
    ensures forall i :: i in got ==> Open(s, i) && !Open(t, i)
    ensures forall i :: Open(t, i) ==> Open(s, i)
    decreases |acts|
  {
    hide Inv, Open, Step, Accepted, Obtainable;
    InvSize(w, s);
    if acts != [] {
      var rest :| got == Accepted(w, s, acts[0]) + rest && Leads(w, Step(w, s, acts[0]), acts[1..], t, rest);
      StepInv(w, s, acts[0]);
      ActionConsumes(w, s, acts[0]);
      AtMostOnce(w, Step(w, s, acts[0]), acts[1..], t, rest);
      forall i
        ensures got[i] <= 1
      {
        assert i in rest ==> i !in Accepted(w, s, acts[0]);
      }
    }
  }

  lemma ActionConsumes(w: Base.World, s: System, a: Action)
    requires Base.Proper(w) && Inv(w, s) && Enabled(w, s, a) && |s.keys| == |s.cnt| >= 2
    ensures |Step(w, s, a).keys| >= 2
    ensures forall i :: Open(Step(w, s, a), i) ==> Open(s, i)
    ensures forall i :: i in Accepted(w, s, a) ==> Open(s, i) && !Open(Step(w, s, a), i)
    ensures forall i :: Accepted(w, s, a)[i] <= 1
  {
    hide Inv, Open, Step, Obtainable, Decrypt;
    match a
    case Send(r, text, ad, gen) => SendKeepsOpen(w, s, r, text, ad, gen);
    case Deliver(r, m, ad) => DeliverConsumes(w, s, r, m, ad);
  }

  /** Every delivery comes back: a header that opens was sealed by the peer, and the peer has never
      announced the largest position. */
  lemma AlwaysReturns(w: Base.World, s: System, r: Role, m: HeMessage)
    requires Inv(w, s) && Obtainable(s, m)
    ensures Returns(Base.Cfg(w, r), Party(s, r), m.header)
  {
    hide PartyInv, KeysOk, LogAt, HonestHeader, OpenedReturns, Filed;
    var p := Party(s, r);
    if Opens(p.hkr.key, m.header) || Opens(p.nhkr.key, m.header) {
      OpensSecret(s.keys, s.cnt, r, p, m.header);
      var i :| 0 <= i < |s.log| && s.log[i].msg.header == m.header;
      LogHonest(w, s, i);
      HonestOpens(s.keys, m.header, s.log[i].epoch, s.log[i].header);
      EarlierReturns(Base.Cfg(w, r), p, s.log[i].header, OpenHeader(p, m.header).value.viaNext);
    }
  }

  lemma OpensSecret(keys: seq<key32>, cnt: seq<nat>, r: Role, p: HeaderSpec.State, header: SealedHeader)
    requires |keys| == |cnt| >= 2 && PartyInv(keys, cnt, r, p)
    requires Opens(p.hkr.key, header) || Opens(p.nhkr.key, header)
    ensures header.SealedHeader? && SecretBased(header.hk)
  {
    hide RatchetInv, HK, StoreInv;
    var pe := Base.PeerEpoch(keys, r, p.dr);
    HKSecret(keys, pe + 2);
    if pe >= 1 {
      HKSecret(keys, pe);
    }
  }

  lemma EarlierReturns(cfg: Config, p: HeaderSpec.State, h: Header, viaNext: bool)
    requires h.n < U32_MAX
    ensures OpenedReturns(cfg, p, h, viaNext)
  {}

  // ---- Nonces ------------------------------------------------------------------------------

  /** No header key is used twice with one nonce, and the counter of the sending header key is
      the number of the next message. */
  lemma NonceUnique(w: Base.World, s: System, i: nat, k: nat)
    requires Inv(w, s) && i < k < |s.log|
    ensures var a, b := s.log[i].msg.header, s.log[k].msg.header;
            a.SealedHeader? && b.SealedHeader? && (a.hk, a.nonce) != (b.hk, b.nonce)
  {
    hide PartyInv, KeysOk, HK, MK, EncodeHeader;
    assert LogAt(w, s.keys, s.cnt, s.log[i]) && LogAt(w, s.keys, s.cnt, s.log[k]);
    if s.log[i].epoch != s.log[k].epoch && s.log[i].msg.header.hk == s.log[k].msg.header.hk {
      HKInjective(s.keys, s.log[i].epoch, s.log[k].epoch);
    }
  }

  /** In every state, also while a step is owed; the key is set once the party has an epoch to
      send in. */
  lemma NonceIsNs(w: Base.World, s: System, r: Role)
    requires Inv(w, s)
    ensures |s.keys| >= 2
    ensures Party(s, r).hks.nonce == Party(s, r).dr.ns
    ensures Party(s, r).hks.key != Zeroed <==> Base.OwnEpoch(s.keys, r) != 0
  {
    hide StoreInv, Base.ChainsInv, HK, R, C, Adv, LogAt;
    if Base.OwnEpoch(s.keys, r) != 0 {
      HKSecret(s.keys, Base.OwnEpoch(s.keys, r));
    }
  }

  // ---- All of it, of runs from the start ---------------------------------------------------

  /** Safety over every run: header keys stay in lock step both ways, every header sealed has a
      nonce of its own, and every sent message is accepted at most once. */
  lemma EveryRun(w: Base.World, bob: key32, alice: key32, acts: seq<Action>, t: System, got: multiset<nat>, r: Role, i: nat, k: nat)
    requires Base.Proper(w) && KeysOk([bob, alice], w.init.lowOrder)
    requires Leads(w, Start(bob, alice), acts, t, got)
    ensures HeaderLockStep(t, r)
    ensures got[i] <= 1
    ensures i < k < |t.log| ==>
              var a, b := t.log[i].msg.header, t.log[k].msg.header;
              a.SealedHeader? && b.SealedHeader? && (a.hk, a.nonce) != (b.hk, b.nonce)
    ensures Party(t, r).hks.nonce == Party(t, r).dr.ns
  {
    hide PartyInv, KeysOk, LogAt, Leads, HeaderLockStep;
    InvStart(w, bob, alice);
    AtMostOnce(w, Start(bob, alice), acts, t, got);
    InvLockStep(w, t, r);
    if i < k < |t.log| {
      NonceUnique(w, t, i, k);
    }
    NonceIsNs(w, t, r);
  }

  /** Delivery soundness over every run. */
  lemma OnlyPeerMessagesDecrypt(w: Base.World, bob: key32, alice: key32, acts: seq<Action>, t: System, got: multiset<nat>,
                                r: Role, m: HeMessage, ad: bytes, text: bytes)
    requires Base.Proper(w) && KeysOk([bob, alice], w.init.lowOrder)
    requires Leads(w, Start(bob, alice), acts, t, got) && Enabled(w, t, Deliver(r, m, ad))
    requires Decrypt(Base.Cfg(w, r), Party(t, r), m, ad).0 == Ok(text)
    ensures exists i :: 0 <= i < |t.log| && t.log[i].msg == m && t.log[i].ad == ad && t.log[i].text == text
                        && Owner(t.log[i].epoch) == Peer(r)
  {
    hide Inv, KeysOk, Leads, Decrypt, Obtainable, Outcome;
    InvStart(w, bob, alice);
    AtMostOnce(w, Start(bob, alice), acts, t, got);
    var i := DeliverySound(w, t, r, m, ad);
  }
}
