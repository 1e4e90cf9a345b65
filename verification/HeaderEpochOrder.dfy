/** Orders of arrival in the system of two header-encryption sessions: the messages the peer has
    sent in its next epoch are a batch that opens it. */
module HeaderEpochOrder {
  import opened Bytes
  import opened Terms
  import opened Wire
  import opened SkippedQueue
  import opened History
  import opened HeaderSpec
  import opened HeaderRuns
  import Ec = RatchetSpec
  import Base = BaseRuns
  import Order = HeaderOrder
  import Batch = SkippedBatch
  import Plain = OrderIndependence

  /** `idx` lists where the first messages of epoch `j` stand in the log. */
  ghost predicate FirstOf(s: System, j: nat, idx: seq<nat>) {
    forall d :: 0 <= d < |idx| ==> idx[d] < |s.log| && s.log[idx[d]].epoch == j && s.log[idx[d]].header.n == d
  }

  ghost function BatchOf(s: System, j: nat, idx: seq<nat>): Order.Batch
    requires FirstOf(s, j, idx) && 1 <= j < |s.keys|
  {
    Order.Batch(HK(s.keys, j), s.keys[j], C(s.keys, j), 0,
                seq(|idx|, d requires 0 <= d < |idx| => s.log[idx[d]].header),
                seq(|idx|, d requires 0 <= d < |idx| => s.log[idx[d]].msg),
                seq(|idx|, d requires 0 <= d < |idx| => s.log[idx[d]].ad),
                seq(|idx|, d requires 0 <= d < |idx| => s.log[idx[d]].text))
  }

  lemma BatchHonest(w: Base.World, s: System, r: Role, j: nat, idx: seq<nat>)
    requires Base.Proper(w) && Inv(w, s) && Owner(j) == Peer(r) && 1 <= j < |s.keys| == |s.cnt|
    requires FirstOf(s, j, idx) && |idx| <= MaxSkip(Base.Cfg(w, r))
    ensures Order.Honest(Base.Cfg(w, r), BatchOf(s, j, idx))
    ensures forall d :: 0 <= d < |idx| ==> s.log[idx[d]].header.pk == s.keys[j] && s.log[idx[d]].header.pn == (if j >= 2 then s.cnt[j - 2] else 0)
  {
    hide PartyInv, KeysOk, EncodeHeader, IdentityPrefix, C, Adv, HK;
    var cfg, b := Base.Cfg(w, r), BatchOf(s, j, idx);
    HKSecret(s.keys, j);
    PairedPrefix(Base.Cfg(w, Peer(r)), cfg);
    forall d | 0 <= d < |idx|
      ensures b.hs[d].pk == b.pk && b.hs[d].n == d < U32_MAX && b.hs[d].pn == (if j >= 2 then s.cnt[j - 2] else 0)
      ensures b.msgs[d].header.SealedHeader? && b.msgs[d].header.hk == b.hk && b.msgs[d].header.header == EncodeHeader(b.hs[d])
      ensures b.msgs[d].ct == Sealed(MessageKey(Adv(b.ck, d)), HeaderAD(cfg, b.msgs[d].header, b.ads[d], false), b.texts[d])
    {
      assert LogAt(w, s.keys, s.cnt, s.log[idx[d]]);
    }
  }

  /** The peer's next epoch: its header key is the next one, its chain key is what the session derives,
      and nothing of it is on file. */
  lemma NextEpochFacts(keys: seq<key32>, cnt: seq<nat>, r: Role, p: HeaderSpec.State, lowOrder: set<key32>)
    requires |keys| == |cnt| >= 2 && PartyInv(keys, cnt, r, p) && KeysOk(keys, lowOrder)
    requires Base.PeerEpoch(keys, r, p.dr) + 2 < |keys|
    ensures var j := Base.PeerEpoch(keys, r, p.dr) + 2;
            && 1 <= j < |keys| && Owner(j) == Peer(r) && C(keys, j) == ChainKey(p.dr.rk, Dh(p.dr.dhs, keys[j]))
            && p.nhkr.key == HK(keys, j) && p.hkr.key != HK(keys, j)
            && Ec.FindChain(p.dr.chains, keys[j]) < 0
            && Distinct(p.dr.skipped) && Plain.NoneFiled(p.dr.skipped, HeaderLabel(HK(keys, j)))
  {
    hide StoreInv, Base.ChainsInv, R, Dh, HK;
    var j := Base.PeerEpoch(keys, r, p.dr) + 2;
    PartyStore(keys, cnt, r, p);
    HKSecret(keys, j);
    if j > 2 && HK(keys, j - 2) == HK(keys, j) {
      HKInjective(keys, j - 2, j);
    }
    NoneOfNext(keys, j - 2, NextN(p), p.dr.skipped);
    NoChainOfNext(keys, lowOrder, j - 2, p.dr.chains);
  }

  lemma NoneOfNext(keys: seq<key32>, pe: int, nr: nat, q: seq<Entry>)
    requires StoreInv(keys, pe, nr, q) && -1 <= pe && pe + 2 < |keys|
    ensures Plain.NoneFiled(q, HeaderLabel(HK(keys, pe + 2)))
  {
    hide HK, MK;
    forall e | e in q
      ensures e.id.lab != HeaderLabel(HK(keys, pe + 2))
    {
      var j :| j <= pe && (pe - j) % 2 == 0 && FiledAt(keys, j, e) && (j == pe ==> e.id.n < nr);
      if HK(keys, j) == HK(keys, pe + 2) {
        HKInjective(keys, j, pe + 2);
      }
    }
  }

  lemma NoChainOfNext(keys: seq<key32>, lowOrder: set<key32>, pe: int, chains: seq<Ec.Chain>)
    requires Base.ChainsInv(keys, pe, chains) && KeysOk(keys, lowOrder) && -1 <= pe && pe + 2 < |keys|
    ensures Ec.FindChain(chains, keys[pe + 2]) < 0
  {
    hide Base.ChainsInv, C, Adv;
    var i := Ec.FindChain(chains, keys[pe + 2]);
    if i >= 0 {
      var j := Base.RetainedKey(keys, pe, chains, i, chains[i].nr);
    }
  }

  /** The DH step succeeds and leaves room for the keys of `k` messages. */
  predicate StepFits(cfg: Config, p: HeaderSpec.State, h: Header, k: nat) {
    RatchetRecv(cfg, p, h, true).Ok? && |RatchetRecv(cfg, p, h, true).value.dr.skipped| + k <= MaxSkip(cfg)
  }

  /** The state after the DH step, with `c` as the newest chain. */
  function Entered(cfg: Config, p: HeaderSpec.State, h: Header, c: Ec.Chain): HeaderSpec.State
    requires RatchetRecv(cfg, p, h, true).Ok?
  {
    var s1 := RatchetRecv(cfg, p, h, true).value;
    s1.(dr := s1.dr.(chains := s1.dr.chains[|s1.dr.chains| - 1 := c]))
  }

  /** In every state of the system, the messages that open the peer's next epoch may arrive in any
      order: all of them decrypt to what was sent, and the session ends in one and the same state,
      with the new chain at their number. The step and the batch must fit the skip limit. */
  lemma EpochArrives(w: Base.World, s: System, r: Role, j: nat, idx: seq<nat>, order: seq<nat>)
    requires Base.Proper(w) && Inv(w, s) && 1 <= j < |s.keys| == |s.cnt| && j == Base.PeerEpoch(s.keys, r, Party(s, r).dr) + 2
    requires FirstOf(s, j, idx) && 0 < |idx| <= MaxSkip(Base.Cfg(w, r)) && Batch.Permutation(order, |idx|)
    requires StepFits(Base.Cfg(w, r), Party(s, r), s.log[idx[0]].header, |idx|)
    ensures var cfg, p, b := Base.Cfg(w, r), Party(s, r), BatchOf(s, j, idx);
            && Order.Honest(cfg, b)
            && var (res, t) := Order.DeliverAll(cfg, p, b, order);
            && |res| == |order| && (forall i :: 0 <= i < |order| ==> res[i] == Ok(b.texts[order[i]]))
            && t == Entered(cfg, p, s.log[idx[0]].header, Ec.Chain(s.keys[j], Adv(C(s.keys, j), |idx|), |idx|))
  {
    hide Inv, Order.Honest, Order.DeliverAll, Order.Opening, Batch.Permutation, RatchetRecv, C, Adv, HK;
    BatchOpens(w, s, r, j, idx);
    Order.EpochInAnyOrder(Base.Cfg(w, r), Party(s, r), BatchOf(s, j, idx), order);
  }

  lemma BatchOpens(w: Base.World, s: System, r: Role, j: nat, idx: seq<nat>)
    requires Base.Proper(w) && Inv(w, s) && 1 <= j < |s.keys| == |s.cnt| && j == Base.PeerEpoch(s.keys, r, Party(s, r).dr) + 2
    requires FirstOf(s, j, idx) && 0 < |idx| <= MaxSkip(Base.Cfg(w, r))
    requires StepFits(Base.Cfg(w, r), Party(s, r), s.log[idx[0]].header, |idx|)
    ensures var cfg, p, b := Base.Cfg(w, r), Party(s, r), BatchOf(s, j, idx);
            Order.Honest(cfg, b) && Order.Opening(cfg, p, b)
  {
    hide PartyInv, LogAt, KeysOk, Order.Honest, RatchetRecv, C, Adv, Plain.NoneFiled, HK;
    NextEpochFacts(s.keys, s.cnt, r, Party(s, r), w.init.lowOrder);
    BatchHonest(w, s, r, j, idx);
  }
}
