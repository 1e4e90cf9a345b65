/** Orders of arrival in the two-party system: the messages the peer has sent in its next epoch
    are a batch that opens it. */
module EpochOrder {
  import opened Bytes
  import opened Terms
  import opened Wire
  import opened SkippedQueue
  import opened RatchetSpec
  import opened History
  import opened BaseRuns
  import opened BaseTheorems
  import opened BaseReplay
  import Order = OrderIndependence
  import Batch = SkippedBatch

  /** `idx` lists where the first messages of epoch `j` stand in the log. */
  ghost predicate FirstOf(s: System, j: nat, idx: seq<nat>) {
    forall d :: 0 <= d < |idx| ==> idx[d] < |s.log| && s.log[idx[d]].epoch == j && s.log[idx[d]].msg.header.n == d
  }

  ghost function BatchOf(s: System, j: nat, idx: seq<nat>): Order.Batch
    requires FirstOf(s, j, idx) && 1 <= j < |s.keys|
  {
    Order.Batch(s.keys[j], C(s.keys, j), 0,
                seq(|idx|, d requires 0 <= d < |idx| => s.log[idx[d]].msg),
                seq(|idx|, d requires 0 <= d < |idx| => s.log[idx[d]].ad),
                seq(|idx|, d requires 0 <= d < |idx| => s.log[idx[d]].text))
  }

  lemma BatchHonest(w: World, s: System, r: Role, j: nat, idx: seq<nat>)
    requires Proper(w) && Inv(w, s) && Owner(j) == Peer(r) && 1 <= j < |s.keys|
    requires FirstOf(s, j, idx) && |idx| <= MaxSkip(Cfg(w, r))
    ensures Order.Honest(Cfg(w, r), BatchOf(s, j, idx))
    ensures forall d :: 0 <= d < |idx| ==> s.log[idx[d]].msg.header.pn == (if j >= 2 then s.cnt[j - 2] else 0)
  {
    hide PartyInv, KeysOk, EncodeHeader, IdentityPrefix, C, Adv;
    var cfg, b := Cfg(w, r), BatchOf(s, j, idx);
    PairedPrefix(Cfg(w, Peer(r)), cfg);
    forall d | 0 <= d < |idx|
      ensures b.msgs[d].header.pk == b.pk && b.msgs[d].header.n == d < U32_MAX
      ensures b.msgs[d].ct == Sealed(MessageKey(Adv(b.ck, d)), BuildAD(cfg, EncodeHeader(b.msgs[d].header), b.ads[d], false), b.texts[d])
      ensures b.msgs[d].header.pn == (if j >= 2 then s.cnt[j - 2] else 0)
    {
      assert LogAt(w, s.keys, s.cnt, s.log[idx[d]]);
    }
  }

  /** The peer's next epoch: its chain key is what the session derives, nothing of it is on file,
      and its ratchet key is unknown. */
  lemma NextEpochFacts(cfg: Config, keys: seq<key32>, cnt: seq<nat>, r: Role, p: State)
    requires |keys| == |cnt| >= 2 && PartyInv(keys, cnt, r, p) && KeysOk(keys, cfg.lowOrder)
    requires PeerEpoch(keys, r, p) + 2 < |keys|
    ensures var j := PeerEpoch(keys, r, p) + 2;
            && 1 <= j < |keys| && !Known(p, keys[j]) && C(keys, j) == ChainKey(p.rk, Dh(p.dhs, keys[j]))
            && Distinct(p.skipped) && Order.NoneFiled(p.skipped, RatchetLabel(keys[j]))
  {
    hide StoreInv, ChainsInv, R, Dh;
    var j := PeerEpoch(keys, r, p) + 2;
    StoreDistinct(keys, j - 2, p.skipped);
    if Known(p, keys[j]) {
      KnownIsReceived(keys, cnt, cfg.lowOrder, r, p, j);
    }
    NoneOfNext(keys, cfg.lowOrder, j - 2, p.skipped);
  }

  lemma NoneOfNext(keys: seq<key32>, lowOrder: set<key32>, pe: int, q: seq<Entry>)
    requires KeysOk(keys, lowOrder) && StoreInv(keys, pe, q) && -1 <= pe && pe + 2 < |keys|
    ensures Order.NoneFiled(q, RatchetLabel(keys[pe + 2]))
  {
    forall e | e in q
      ensures e.id.lab != RatchetLabel(keys[pe + 2])
    {
      var j :| j <= pe && (pe - j) % 2 == 0 && FiledAt(keys, j, e);
    }
  }

  /** In every state of the system, the messages that open the peer's next epoch may arrive in any
      order: all of them decrypt to what was sent, and the session ends in one and the same state,
      with the new chain at their number. The step and the batch must fit the skip limit. */
  lemma EpochArrives(w: World, s: System, r: Role, j: nat, idx: seq<nat>, order: seq<nat>)
    requires Proper(w) && Inv(w, s) && 1 <= j < |s.keys| && j == PeerEpoch(s.keys, r, Party(s, r)) + 2
    requires FirstOf(s, j, idx) && 0 < |idx| <= MaxSkip(Cfg(w, r)) && Batch.Permutation(order, |idx|)
    requires StepFits(Cfg(w, r), Party(s, r), s.log[idx[0]].msg.header, |idx|)
    ensures var cfg, p, b := Cfg(w, r), Party(s, r), BatchOf(s, j, idx);
            && Order.Honest(cfg, b)
            && var (res, t) := Order.DeliverAll(cfg, p, b, order);
            && |res| == |order| && (forall i :: 0 <= i < |order| ==> res[i] == Ok(b.texts[order[i]]))
            && t == Entered(cfg, p, s.log[idx[0]].msg.header, Chain(s.keys[j], Adv(C(s.keys, j), |idx|), |idx|))
  {
    hide Inv, Order.Honest, Order.DeliverAll, Order.Opening, Batch.Permutation, RatchetRecv, C, Adv;
    BatchOpens(w, s, r, j, idx);
    Order.EpochInAnyOrder(Cfg(w, r), Party(s, r), BatchOf(s, j, idx), order);
  }

  lemma BatchOpens(w: World, s: System, r: Role, j: nat, idx: seq<nat>)
    requires Proper(w) && Inv(w, s) && 1 <= j < |s.keys| && j == PeerEpoch(s.keys, r, Party(s, r)) + 2
    requires FirstOf(s, j, idx) && 0 < |idx| <= MaxSkip(Cfg(w, r))
    requires StepFits(Cfg(w, r), Party(s, r), s.log[idx[0]].msg.header, |idx|)
    ensures var cfg, p, b := Cfg(w, r), Party(s, r), BatchOf(s, j, idx);
            Order.Honest(cfg, b) && Order.Opening(cfg, p, b)
  {
    hide PartyInv, LogAt, KeysOk, Order.Honest, RatchetRecv, C, Adv, Known, Order.NoneFiled;
    var cfg, p := Cfg(w, r), Party(s, r);
    NextIsPeers(s.keys, s.cnt, r, p);
    NextEpochFacts(cfg, s.keys, s.cnt, r, p);
    BatchHonest(w, s, r, j, idx);
    Order.HonestHeader(cfg, BatchOf(s, j, idx), 0);
  }

  /** The DH step succeeds and leaves room for the keys of `k` messages. */
  predicate StepFits(cfg: Config, p: State, h: Header, k: nat) {
    RatchetRecv(cfg, p, h).Ok? && |RatchetRecv(cfg, p, h).value.skipped| + k <= MaxSkip(cfg)
  }

  /** The state after the DH step, with `c` as the newest chain. */
  function Entered(cfg: Config, p: State, h: Header, c: Chain): State
    requires RatchetRecv(cfg, p, h).Ok?
  {
    var s1 := RatchetRecv(cfg, p, h).value;
    s1.(chains := s1.chains[|s1.chains| - 1 := c])
  }

  lemma NextIsPeers(keys: seq<key32>, cnt: seq<nat>, r: Role, p: State)
    requires |keys| == |cnt| >= 2 && PartyInv(keys, cnt, r, p) && PeerEpoch(keys, r, p) + 2 < |keys|
    ensures PeerEpoch(keys, r, p) >= -1 && Owner(PeerEpoch(keys, r, p) + 2) == Peer(r)
  {
    hide StoreInv, ChainsInv;
  }
}
