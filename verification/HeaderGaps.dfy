/** How far a header-encryption session has come, against what its peer has sent: the peer's next
    message is within reach exactly when the number of unread messages is. */
module HeaderGaps {
  import opened Bytes
  import opened Terms
  import opened Wire
  import opened SkippedQueue
  import opened History
  import opened HeaderSpec
  import opened HeaderRuns
  import Base = BaseRuns
  import HeaderTheorems
  import HeaderConversation

  /** The current chain does not stand past the messages sent in its epoch, and no key of an unsent
      one is filed. */
  ghost predicate Bounded(keys: seq<key32>, cnt: seq<nat>, r: Role, p: HeaderSpec.State)
    requires |keys| == |cnt| >= 2
  {
    var pe := Base.PeerEpoch(keys, r, p.dr);
    && (1 <= pe < |cnt| ==> NextN(p) <= cnt[pe])
    && StoreBounded(keys, cnt, p.dr.skipped)
  }

  ghost predicate StoreBounded(keys: seq<key32>, cnt: seq<nat>, q: seq<Entry>)
    requires |keys| == |cnt|
  {
    forall e, j :: e in q && 1 <= j < |keys| && e.id.lab == HeaderLabel(HK(keys, j)) ==> e.id.n < cnt[j]
  }

  ghost predicate AllBounded(s: System) {
    && |s.keys| == |s.cnt| >= 2
    && Bounded(s.keys, s.cnt, Initiator, s.init) && Bounded(s.keys, s.cnt, Responder, s.resp)
  }

  // ---- Receiving keeps the bound -----------------------------------------------------------

  lemma RangeBounded(keys: seq<key32>, cnt: seq<nat>, cap: nat, q: seq<Entry>, pe: nat, ck: Key, from: u32, until: u32)
    requires |keys| == |cnt| && StoreBounded(keys, cnt, q) && Distinct(q) && 1 <= pe < |keys| && until <= cnt[pe]
    ensures StoreBounded(keys, cnt, StoreRange(cap, q, HeaderLabel(HK(keys, pe)), ck, from, until))
  {
    hide StoreRange, Distinct, HK, Adv;
    StoreRangeFacts(cap, q, HeaderLabel(HK(keys, pe)), ck, from, until);
    forall e, j | e in StoreRange(cap, q, HeaderLabel(HK(keys, pe)), ck, from, until) && 1 <= j < |keys| && e.id.lab == HeaderLabel(HK(keys, j))
      ensures e.id.n < cnt[j]
    {
      if e !in q {
        HKInjective(keys, j, pe);
      }
    }
  }

  lemma ReadBounded(cfg: Config, keys: seq<key32>, cnt: seq<nat>, r: Role, p: HeaderSpec.State, n: u32)
    requires |keys| == |cnt| >= 2 && PartyInv(keys, cnt, r, p) && KeysOk(keys, cfg.lowOrder)
    requires StoreBounded(keys, cnt, p.dr.skipped)
    requires 1 <= Base.PeerEpoch(keys, r, p.dr) < |cnt| && n < cnt[Base.PeerEpoch(keys, r, p.dr)] && n < U32_MAX
    requires ReceiveOnChain(cfg, p, n).Ok?
    ensures Bounded(keys, cnt, r, ReceiveOnChain(cfg, p, n).value.1)
  {
    hide StoreInv, StoreBounded, Base.ChainsInv, KeysOk, ReceiveOnChain, HK, MK, R, C, Adv, StoreRange, Distinct;
    var pe := Base.PeerEpoch(keys, r, p.dr);
    PartyStore(keys, cnt, r, p);
    OnChainOutcome(cfg, keys, pe, p, n);
    RangeBounded(keys, cnt, MaxSkip(cfg), p.dr.skipped, pe, Adv(C(keys, pe), NextN(p)), NextN(p), n);
  }

  lemma LeaveBounded(cfg: Config, keys: seq<key32>, cnt: seq<nat>, r: Role, p: HeaderSpec.State, h: Header)
    requires |keys| == |cnt| >= 2 && PartyInv(keys, cnt, r, p) && KeysOk(keys, cfg.lowOrder)
    requires StoreBounded(keys, cnt, p.dr.skipped)
    requires var pe := Base.PeerEpoch(keys, r, p.dr);
             pe + 2 < |keys| && h.pk == keys[pe + 2] && (pe >= 1 ==> h.pn <= cnt[pe])
    requires RatchetRecv(cfg, p, h, true).Ok?
    ensures StoreBounded(keys, cnt, RatchetRecv(cfg, p, h, true).value.dr.skipped)
  {
    hide StoreInv, StoreBounded, Base.ChainsInv, KeysOk, HK, R, C, Adv, StoreRange, Distinct;
    var pe := Base.PeerEpoch(keys, r, p.dr);
    PartyStore(keys, cnt, r, p);
    HeaderRuns.Window.CurrentChain(keys, cfg.lowOrder, pe, p.dr);
    if pe >= 1 {
      RangeBounded(keys, cnt, MaxSkip(cfg), p.dr.skipped, pe, p.dr.chains[|p.dr.chains| - 1].ck, NextN(p), h.pn);
    }
  }

  lemma KeyBounded(cfg: Config, keys: seq<key32>, cnt: seq<nat>, r: Role, p: HeaderSpec.State, header: SealedHeader, j: nat, h: Header)
    requires |keys| == |cnt| >= 2 && PartyInv(keys, cnt, r, p) && KeysOk(keys, cfg.lowOrder) && Bounded(keys, cnt, r, p)
    requires HonestHeader(keys, header, j, h) && h.n < U32_MAX && ReceiveKey(cfg, p, header).Ok?
    requires h.n < cnt[j] && h.pn == (if j >= 2 then cnt[j - 2] else 0)
    ensures Bounded(keys, cnt, r, ReceiveKey(cfg, p, header).value.1)
  {
    hide StoreInv, StoreBounded, HK, MK, Filed, ReceiveKey, ReceiveOnChain, RatchetRecv, Base.ChainsInv, KeysOk, C, R, Opens, Distinct, Adv, Has, StoreRange, EncodeHeader, DecodeHeader, Remove;
    var pe := Base.PeerEpoch(keys, r, p.dr);
    HonestOpens(keys, header, j, h);
    OpenedBy(keys, Base.OwnEpoch(keys, r), pe, p, header, j, h);
    if Filed(p.dr.skipped, header) {
      TakeBounded(cfg, keys, cnt, r, p, header);
    } else if j == pe {
      CurrentOutcome(cfg, p, header, h);
      ReadBounded(cfg, keys, cnt, r, p, h.n);
    } else if j == pe + 2 {
      NextOutcome(cfg, p, header, h);
      RatchetRecvKeepsParty(cfg, keys, cnt, r, p, h);
      LeaveBounded(cfg, keys, cnt, r, p, h);
      ReadBounded(cfg, keys, cnt, r, RatchetRecv(cfg, p, h, true).value, h.n);
    } else {
      NoOutcome(cfg, p, header);
    }
  }

  lemma TakeBounded(cfg: Config, keys: seq<key32>, cnt: seq<nat>, r: Role, p: HeaderSpec.State, header: SealedHeader)
    requires |keys| == |cnt| >= 2 && PartyInv(keys, cnt, r, p) && Bounded(keys, cnt, r, p) && Filed(p.dr.skipped, header)
    ensures ReceiveKey(cfg, p, header).Ok? && Bounded(keys, cnt, r, ReceiveKey(cfg, p, header).value.1)
  {
    hide StoreInv, RatchetInv, HeaderKeysInv, HK, Distinct, Remove;
    PartyStore(keys, cnt, r, p);
    RemoveFacts(p.dr.skipped, ServingId(header).value);
  }

  lemma DeliverBounded(w: Base.World, s: System, r: Role, m: HeMessage, ad: bytes)
    requires Base.Proper(w) && Inv(w, s) && AllBounded(s) && Obtainable(s, m)
    ensures AllBounded(Step(w, s, Deliver(r, m, ad)))
  {
    hide PartyInv, KeysOk, LogAt, Bounded, ReceiveKey, Outcome, HonestHeader;
    if Decrypt(Base.Cfg(w, r), Party(s, r), m, ad).0.Ok? {
      var k := DeliverySound(w, s, r, m, ad);
      LogHonest(w, s, k);
      LogBounds(w, s, k);
      KeyBounded(Base.Cfg(w, r), s.keys, s.cnt, r, Party(s, r), m.header, s.log[k].epoch, s.log[k].header);
    }
  }

  lemma LogBounds(w: Base.World, s: System, i: nat)
    requires Inv(w, s) && i < |s.log|
    ensures var e := s.log[i];
            && 1 <= e.epoch < |s.keys| == |s.cnt| && e.header.n < s.cnt[e.epoch]
            && e.header.pn == (if e.epoch >= 2 then s.cnt[e.epoch - 2] else 0)
  {
    hide PartyInv, KeysOk, HK, MK;
    assert LogAt(w, s.keys, s.cnt, s.log[i]);
  }

  // ---- Sending loosens it ------------------------------------------------------------------

  lemma StoreExtends(keys: seq<key32>, cnt: seq<nat>, k: key32, pe: int, nr: nat, q: seq<Entry>)
    requires |keys| == |cnt| && StoreInv(keys, pe, nr, q) && StoreBounded(keys, cnt, q)
    ensures StoreBounded(keys + [k], cnt + [0], q)
  {
    hide HK, MK;
    forall e, j | e in q && 1 <= j < |keys| + 1 && e.id.lab == HeaderLabel(HK(keys + [k], j))
      ensures e.id.n < (cnt + [0])[j]
    {
      var l :| l <= pe && (pe - l) % 2 == 0 && FiledAt(keys, l, e) && (l == pe ==> e.id.n < nr);
      HKExtends(keys, k, l);
      HKInjective(keys + [k], l, j);
    }
  }

  lemma RatchetBounded(w: Base.World, s: System, r: Role, k: key32)
    requires Inv(w, s) && AllBounded(s) && Party(s, r).dr.pending && RatchetSend(Base.Cfg(w, r), Party(s, r), Some(k)).0.None?
    ensures AllBounded(Ratcheted(w, s, r, k))
  {
    hide PartyInv, KeysOk, LogAt, StoreBounded, HK;
    PartyOwner(w, s, r);
    var p, q := Party(s, r), Party(s, Peer(r));
    PartyStore(s.keys, s.cnt, r, p);
    PartyStore(s.keys, s.cnt, Peer(r), q);
    StoreExtends(s.keys, s.cnt, k, Base.PeerEpoch(s.keys, r, p.dr), NextN(p), p.dr.skipped);
    StoreExtends(s.keys, s.cnt, k, Base.PeerEpoch(s.keys, Peer(r), q.dr), NextN(q), q.dr.skipped);
  }

  lemma OnChainBounded(w: Base.World, s: System, r: Role, text: bytes, ad: bytes, gen: Option<key32>)
    requires Base.Proper(w) && Inv(w, s) && AllBounded(s) && !Party(s, r).dr.pending && Party(s, r).dr.ns < U32_MAX
    ensures AllBounded(Step(w, s, Send(r, text, ad, gen)))
  {
    hide PartyInv, KeysOk, LogAt, Encrypt, Step, HK;
    var cfg, p := Base.Cfg(w, r), Party(s, r);
    if Base.OwnEpoch(s.keys, r) != 0 {
      SentEntry(w, s, r, text, ad, gen);
      HeaderTheorems.SendingSet(s.keys, s.cnt, r, p);
      HeaderTheorems.EncryptFrame(cfg, p, text, ad, gen);
    } else {
      SendKeepsParty(cfg, s.keys, s.cnt, r, p, text, ad, gen);
      NothingSent(w, s, r, text, ad, gen);
    }
  }

  lemma SendBounded(w: Base.World, s: System, r: Role, text: bytes, ad: bytes, gen: Option<key32>)
    requires Base.Proper(w) && Inv(w, s) && AllBounded(s) && Enabled(w, s, Send(r, text, ad, gen))
    ensures AllBounded(Step(w, s, Send(r, text, ad, gen)))
  {
    hide Inv, AllBounded, Step, RatchetSend, Fresh;
    InvSize(w, s);
    if Party(s, r).dr.pending {
      RatchetedInv(w, s, r, gen.value);
      RatchetBounded(w, s, r, gen.value);
      StepRatcheted(w, s, r, text, ad, gen);
      OnChainBounded(w, Ratcheted(w, s, r, gen.value), r, text, ad, gen);
    } else {
      OnChainBounded(w, s, r, text, ad, gen);
    }
  }

  lemma {:induction false} RunBounded(w: Base.World, s: System, acts: seq<Action>, t: System, got: multiset<nat>)
    requires Base.Proper(w) && Inv(w, s) && AllBounded(s) && HeaderTheorems.Leads(w, s, acts, t, got)
    ensures Inv(w, t) && AllBounded(t)
    decreases |acts|
  {
    hide Inv, Step, AllBounded, HeaderTheorems.Accepted, Obtainable;
    if acts != [] {
      var rest :| got == HeaderTheorems.Accepted(w, s, acts[0]) + rest && HeaderTheorems.Leads(w, Step(w, s, acts[0]), acts[1..], t, rest);
      StepInv(w, s, acts[0]);
      match acts[0] {
        case Send(r, text, ad, gen) => SendBounded(w, s, r, text, ad, gen);
        case Deliver(r, m, ad) => DeliverBounded(w, s, r, m, ad);
      }
      RunBounded(w, Step(w, s, acts[0]), acts[1..], t, rest);
    }
  }

  lemma FromStart(w: Base.World, bob: key32, alice: key32, acts: seq<Action>, t: System, got: multiset<nat>)
    requires Base.Proper(w) && KeysOk([bob, alice], w.init.lowOrder)
    requires HeaderTheorems.Leads(w, Start(bob, alice), acts, t, got)
    ensures Inv(w, t) && AllBounded(t)
  {
    hide Inv, HeaderTheorems.Leads;
    InvStart(w, bob, alice);
    RunBounded(w, Start(bob, alice), acts, t, got);
  }

  // ---- The next message --------------------------------------------------------------------

  /** Messages of the epoch being read that the session has not reached. */
  function Unread(cnt: seq<nat>, pe: int, p: HeaderSpec.State): int
    requires pe < |cnt|
  {
    if pe < 1 then 0 else cnt[pe] - NextN(p)
  }

  /** The peer's next message, in epoch `j`, is within reach. */
  predicate NextInReach(cfg: Config, cnt: seq<nat>, pe: int, p: HeaderSpec.State, j: nat)
    requires pe < |cnt| && j < |cnt|
  {
    Unread(cnt, pe, p) <= MaxSkip(cfg) && (j != pe ==> cnt[j] <= MaxSkip(cfg))
  }

  /** The system once `r` has taken the sending step it may owe. */
  function Due(w: Base.World, s: System, r: Role, gen: Option<key32>): System {
    if Party(s, r).dr.pending && gen.Some? then Ratcheted(w, s, r, gen.value) else s
  }

  /** Whatever the network did before, the message that a party sends next, delivered at once,
      decrypts to its text exactly when the numbers of unread messages are within the skip limit. */
  lemma NextDecrypts(w: Base.World, s: System, r: Role, text: bytes, ad: bytes, gen: Option<key32>)
    requires Base.Proper(w) && Inv(w, s) && AllBounded(s) && Enabled(w, s, Send(r, text, ad, gen))
    ensures |s.keys| == |s.cnt| >= 2
    ensures var d, s1 := Due(w, s, r, gen), Step(w, s, Send(r, text, ad, gen));
            && |d.keys| == |d.cnt| >= 2
            && var q, j := Peer(r), Base.OwnEpoch(d.keys, r);
            var pe := Base.PeerEpoch(d.keys, q, Party(s, q).dr);
            && pe < |d.cnt| && 0 <= Unread(d.cnt, pe, Party(s, q))
            && (j != 0 ==>
                 && |s1.log| == |s.log| + 1
                 && var res := Decrypt(Base.Cfg(w, q), Party(s1, q), s1.log[|s.log|].msg, ad).0;
                 && (res.Ok? <==> NextInReach(Base.Cfg(w, q), d.cnt, pe, Party(s, q), j))
                 && (res.Ok? ==> res.value == text))
  {
    hide Inv, AllBounded, Step, RatchetSend, Fresh, Decrypt, NextInReach, Unread;
    InvSize(w, s);
    if Party(s, r).dr.pending {
      RatchetedInv(w, s, r, gen.value);
      RatchetBounded(w, s, r, gen.value);
      StepRatcheted(w, s, r, text, ad, gen);
      NextOnChain(w, Ratcheted(w, s, r, gen.value), r, text, ad, gen);
    } else {
      NextOnChain(w, s, r, text, ad, gen);
    }
  }

  lemma NextOnChain(w: Base.World, s: System, r: Role, text: bytes, ad: bytes, gen: Option<key32>)
    requires Base.Proper(w) && Inv(w, s) && AllBounded(s) && !Party(s, r).dr.pending && Party(s, r).dr.ns < U32_MAX
    ensures |s.keys| == |s.cnt| >= 2
    ensures var q, j, s1 := Peer(r), Base.OwnEpoch(s.keys, r), Step(w, s, Send(r, text, ad, gen));
            var pe := Base.PeerEpoch(s.keys, q, Party(s, q).dr);
            && pe < |s.cnt| && 0 <= Unread(s.cnt, pe, Party(s, q))
            && (j != 0 ==>
                 && |s1.log| == |s.log| + 1
                 && var res := Decrypt(Base.Cfg(w, q), Party(s1, q), s1.log[|s.log|].msg, ad).0;
                 && (res.Ok? <==> NextInReach(Base.Cfg(w, q), s.cnt, pe, Party(s, q), j))
                 && (res.Ok? ==> res.value == text))
  {
    hide PartyInv, KeysOk, LogAt, Bounded, Encrypt, Decrypt, Step, InWindow, NextInReach, Unread, HonestHeader;
    var q, j, s1 := Peer(r), Base.OwnEpoch(s.keys, r), Step(w, s, Send(r, text, ad, gen));
    UnreadRange(s.keys, s.cnt, q, Party(s, q));
    if j != 0 {
      SentEntry(w, s, r, text, ad, gen);
      SendOnChainInv(w, s, r, text, ad, gen);
      LogHonest(w, s1, |s.log|);
      LogBounds(w, s1, |s.log|);
      SentOwner(s.keys, r);
      HeaderConversation.LastSent(w, s, r, text, ad, gen);
      HeaderTheorems.DeliveryWindow(w, s1, q, |s.log|);
      ReachExactly(Base.Cfg(w, q), s.keys, s.cnt, q, Party(s, q), s1.log[|s.log|].msg.header, s1.log[|s.log|].header);
    }
  }

  lemma SentOwner(keys: seq<key32>, r: Role)
    requires |keys| >= 2
    ensures Owner(Base.OwnEpoch(keys, r)) == r
  {}

  lemma UnreadRange(keys: seq<key32>, cnt: seq<nat>, q: Role, p: HeaderSpec.State)
    requires |keys| == |cnt| >= 2 && PartyInv(keys, cnt, q, p) && Bounded(keys, cnt, q, p)
    ensures Base.PeerEpoch(keys, q, p.dr) < |cnt| && 0 <= Unread(cnt, Base.PeerEpoch(keys, q, p.dr), p)
  {
    hide StoreInv, Base.ChainsInv, HeaderKeysInv, StoreBounded;
  }

  lemma ReachExactly(cfg: Config, keys: seq<key32>, cnt: seq<nat>, q: Role, p: HeaderSpec.State, header: SealedHeader, h: Header)
    requires |keys| == |cnt| >= 2 && PartyInv(keys, cnt, q, p) && KeysOk(keys, cfg.lowOrder) && Bounded(keys, cnt, q, p)
    requires var j := Base.OwnEpoch(keys, Peer(q));
             && HonestHeader(keys, header, j, h) && h.n == cnt[j] && h.pn == (if j >= 2 then cnt[j - 2] else 0)
    ensures var j, pe := Base.OwnEpoch(keys, Peer(q)), Base.PeerEpoch(keys, q, p.dr);
            && pe < |cnt|
            && (InWindow(cfg, pe, p, header, j, h) <==> NextInReach(cfg, cnt, pe, p, j))
  {
    hide StoreInv, Base.ChainsInv, HeaderKeysInv, R, C, Adv, HK, StoreBounded, Filed, HonestHeader;
    var j, pe := Base.OwnEpoch(keys, Peer(q)), Base.PeerEpoch(keys, q, p.dr);
    HeaderRuns.Window.CurrentChain(keys, cfg.lowOrder, pe, p.dr);
    HonestIndex(keys, header, j, h);
    NotFiled(keys, cnt, p, header, j, h);
  }

  lemma NotFiled(keys: seq<key32>, cnt: seq<nat>, p: HeaderSpec.State, header: SealedHeader, j: nat, h: Header)
    requires |keys| == |cnt| && StoreBounded(keys, cnt, p.dr.skipped) && HonestHeader(keys, header, j, h) && h.n >= cnt[j]
    ensures !Filed(p.dr.skipped, header)
  {
    hide HK;
    HonestOpens(keys, header, j, h);
  }
}
