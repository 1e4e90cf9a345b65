/** What accepting a message costs: while the store has room, every other message that could be read
    still can, save those of a chain that is dropped for a sixth one. */
module BaseKept {
  import opened Bytes
  import opened Terms
  import opened Wire
  import opened SkippedQueue
  import opened RatchetSpec
  import opened History
  import opened BaseRuns
  import opened BaseTheorems
  import BaseReplay

  /** How many keys a call may file: the positions passed over, and the unread rest of an epoch left. */
  function Filings(p: State, h: Header): nat {
    var i, left := FindChain(p.chains, h.pk), PreviousChain(p);
    if Has(p.skipped, Id(RatchetLabel(h.pk), h.n)) then 0
    else if Known(p, h.pk) then (if i >= 0 && h.n > p.chains[i].nr then h.n - p.chains[i].nr else 0)
    else h.n + (if left >= 0 && h.pn > p.chains[left].nr then h.pn - p.chains[left].nr else 0)
  }

  /** Accepting `h` begins an epoch, and the chain of `pk` is the oldest of five. */
  predicate Drops(p: State, h: Header, pk: key32) {
    && !Has(p.skipped, Id(RatchetLabel(h.pk), h.n)) && !Known(p, h.pk)
    && |p.chains| == 5 && p.chains[0].pk == pk
  }

  ghost predicate Held(cfg: Config, p: State, g: Header) {
    InStore(p, g) || InChain(cfg, p, g)
  }

  // ---- Reading a chain ---------------------------------------------------------------------

  /** A position passed over goes on file, one ahead stays ahead. */
  lemma ReadKeeps(cfg: Config, keys: seq<key32>, pe: int, p: State, h: Header, g: Header)
    requires ChainsInv(keys, pe, p.chains) && KeysOk(keys, cfg.lowOrder) && ReceiveOnChain(cfg, p, h).Ok?
    requires |p.skipped| + (h.n - p.chains[FindChain(p.chains, h.pk)].nr) <= MaxSkip(cfg)
    requires (g.pk, g.n) != (h.pk, h.n) && Held(cfg, p, g)
    ensures Held(cfg, ReceiveOnChain(cfg, p, h).value.1, g)
  {
    hide ChainsInv, KeysOk, StoreRange, Adv, Has;
    var p1, i := ReceiveOnChain(cfg, p, h).value.1, FindChain(p.chains, h.pk);
    var c := p.chains[i];
    ChainsDistinct(keys, cfg.lowOrder, pe, p.chains);
    HasStored(MaxSkip(cfg), p.skipped, RatchetLabel(h.pk), c.ck, c.nr, h.n, Id(RatchetLabel(g.pk), g.n));
    if InChain(cfg, p, g) {
      var k :| 0 <= k < |p.chains| && p.chains[k].pk == g.pk && p.chains[k].nr <= g.n <= p.chains[k].nr + MaxSkip(cfg);
      if k != i || g.n > h.n {
        assert p1.chains[k].pk == g.pk && p1.chains[k].nr <= g.n <= p1.chains[k].nr + MaxSkip(cfg);
      }
    }
  }

  /** Nothing of another chain appears. */
  lemma ReadOthers(cfg: Config, p: State, h: Header, g: Header)
    requires Distinct(p.skipped) && ReceiveOnChain(cfg, p, h).Ok? && g.pk != h.pk
    ensures Held(cfg, ReceiveOnChain(cfg, p, h).value.1, g) ==> Held(cfg, p, g)
  {
    hide StoreRange, Adv, Has;
    var p1, i := ReceiveOnChain(cfg, p, h).value.1, FindChain(p.chains, h.pk);
    StoreRangeFacts(MaxSkip(cfg), p.skipped, RatchetLabel(h.pk), p.chains[i].ck, p.chains[i].nr, h.n);
    if InChain(cfg, p1, g) {
      var k :| 0 <= k < |p1.chains| && p1.chains[k].pk == g.pk && p1.chains[k].nr <= g.n <= p1.chains[k].nr + MaxSkip(cfg);
      assert k != i && p.chains[k] == p1.chains[k];
    }
  }

  // ---- Beginning an epoch ------------------------------------------------------------------

  lemma LeaveKeeps(cfg: Config, p: State, h: Header, g: Header)
    requires RatchetRecv(cfg, p, h).Ok? && !Known(p, h.pk) && !Has(p.skipped, Id(RatchetLabel(h.pk), h.n))
    requires |p.chains| <= MAX_CHAINS && |p.skipped| + Filings(p, h) <= MaxSkip(cfg)
    requires Held(cfg, p, g) && (Drops(p, h, g.pk) ==> InStore(p, g))
    ensures Held(cfg, RatchetRecv(cfg, p, h).value, g)
  {
    hide StoreRange, Has;
    var p1, left := RatchetRecv(cfg, p, h).value, PreviousChain(p);
    if left >= 0 {
      HasStored(MaxSkip(cfg), p.skipped, RatchetLabel(p.dhr), p.chains[left].ck, p.chains[left].nr, h.pn, Id(RatchetLabel(g.pk), g.n));
    }
    if InChain(cfg, p, g) && !InStore(p, g) {
      var k :| 0 <= k < |p.chains| && p.chains[k].pk == g.pk && p.chains[k].nr <= g.n <= p.chains[k].nr + MaxSkip(cfg);
      var l := if |p.chains| >= MAX_CHAINS then k - 1 else k;
      assert p1.chains[l] == p.chains[k];
    }
  }

  /** The chain that is dropped is gone, and nothing else of it appears. */
  lemma LeaveOthers(cfg: Config, keys: seq<key32>, pe: int, p: State, h: Header, g: Header)
    requires ChainsInv(keys, pe, p.chains) && KeysOk(keys, cfg.lowOrder) && -1 <= pe < |keys| && Distinct(p.skipped)
    requires p.dhRSet == (pe >= 0) && (pe >= 0 ==> p.dhr == keys[pe])
    requires RatchetRecv(cfg, p, h).Ok? && Drops(p, h, g.pk) && !InStore(p, g)
    ensures !Held(cfg, RatchetRecv(cfg, p, h).value, g)
  {
    hide ChainsInv, KeysOk, StoreRange, Has;
    var p1, left := RatchetRecv(cfg, p, h).value, PreviousChain(p);
    ChainsDistinct(keys, cfg.lowOrder, pe, p.chains);
    CurrentChain(keys, cfg.lowOrder, pe, p);
    if left >= 0 {
      StoreRangeFacts(MaxSkip(cfg), p.skipped, RatchetLabel(p.dhr), p.chains[left].ck, p.chains[left].nr, h.pn);
    }
    forall k | 0 <= k < |p1.chains|
      ensures p1.chains[k].pk != g.pk
    {
      assert p1.chains[k].pk == if k < 4 then p.chains[k + 1].pk else h.pk;
    }
  }

  // ---- Messages ----------------------------------------------------------------------------

  /** Both headers open the epoch that is followed. */
  lemma EnterKeeps(cfg: Config, p: State, h: Header, g: Header)
    requires RatchetRecv(cfg, p, h).Ok? && !Known(p, h.pk) && g.pk == h.pk && g.n <= MaxSkip(cfg)
    ensures Held(cfg, RatchetRecv(cfg, p, h).value, g)
  {
    hide StoreRange;
    var chains := RatchetRecv(cfg, p, h).value.chains;
    assert chains[|chains| - 1] == Chain(h.pk, ChainKey(p.rk, Dh(p.dhs, h.pk)), 0);
  }

  lemma NewKeeps(cfg: Config, keys: seq<key32>, cnt: seq<nat>, r: Role, p: State, h: Header, g: Header)
    requires |keys| == |cnt| >= 2 && PartyInv(keys, cnt, r, p) && KeysOk(keys, cfg.lowOrder)
    requires !InStore(p, h) && !Known(p, h.pk) && ReceiveKey(cfg, p, h).Ok?
    requires Owner(|keys| - 1) == Peer(r) && !p.pending && h.pk == keys[|keys| - 1]
    requires |p.skipped| + Filings(p, h) <= MaxSkip(cfg) && (g.pk, g.n) != (h.pk, h.n)
    requires Held(cfg, p, g) || InNextEpoch(cfg, keys, r, p, g)
    ensures Held(cfg, ReceiveKey(cfg, p, h).value.1, g) <==> !(Drops(p, h, g.pk) && !InStore(p, g))
  {
    hide StoreInv, ChainsInv, KeysOk, ReceiveOnChain, RatchetRecv, ReceiveKey, Held, Known;
    var pe := PeerEpoch(keys, r, p);
    NewEpochOutcome(cfg, p, h);
    var p1 := RatchetRecv(cfg, p, h).value;
    RatchetRecvKeepsParty(cfg, keys, cnt, r, p, h);
    BaseReplay.StoreDistinct(keys, pe, p.skipped);
    BaseReplay.StoreDistinct(keys, PeerEpoch(keys, r, p1), p1.skipped);
    AtMostFive(keys, pe, p.chains);
    StoredAfter(cfg, p, h);
    if Drops(p, h, g.pk) && !InStore(p, g) {
      LeaveOthers(cfg, keys, pe, p, h, g);
      DroppedIsOther(p, h, g);
      ReadOthers(cfg, p1, h, g);
    } else {
      if Held(cfg, p, g) {
        LeaveKeeps(cfg, p, h, g);
      } else {
        EnterKeeps(cfg, p, h, g);
      }
      ReadKeeps(cfg, keys, PeerEpoch(keys, r, p1), p1, h, g);
    }
  }

  lemma AtMostFive(keys: seq<key32>, pe: int, chains: seq<Chain>)
    requires ChainsInv(keys, pe, chains)
    ensures |chains| <= 5
  {}

  lemma DroppedIsOther(p: State, h: Header, g: Header)
    requires Drops(p, h, g.pk)
    ensures g.pk != h.pk
  {}

  /** There is room for the positions passed over once the epoch before has been filed. */
  lemma StoredAfter(cfg: Config, p: State, h: Header)
    requires RatchetRecv(cfg, p, h).Ok? && !Known(p, h.pk) && !Has(p.skipped, Id(RatchetLabel(h.pk), h.n))
    requires |p.skipped| + Filings(p, h) <= MaxSkip(cfg)
    ensures var p1 := RatchetRecv(cfg, p, h).value;
            var i := FindChain(p1.chains, h.pk);
            i >= 0 && p1.chains[i].nr == 0 && |p1.skipped| + h.n <= MaxSkip(cfg)
  {
    hide StoreRange, Has, PushChain;
    var left := PreviousChain(p);
    Pushed(p.chains, Chain(h.pk, ChainKey(p.rk, Dh(p.dhs, h.pk)), 0));
    if left >= 0 {
      StoreRangeGrows(MaxSkip(cfg), p.skipped, RatchetLabel(p.dhr), p.chains[left].ck, p.chains[left].nr, h.pn);
    }
  }

  lemma KnownKeeps(cfg: Config, keys: seq<key32>, cnt: seq<nat>, r: Role, p: State, h: Header, g: Header)
    requires |keys| == |cnt| >= 2 && PartyInv(keys, cnt, r, p) && KeysOk(keys, cfg.lowOrder)
    requires InStore(p, h) || Known(p, h.pk)
    requires ReceiveKey(cfg, p, h).Ok?
    requires |p.skipped| + Filings(p, h) <= MaxSkip(cfg) && (g.pk, g.n) != (h.pk, h.n)
    requires Held(cfg, p, g) || InNextEpoch(cfg, keys, r, p, g)
    ensures var p1 := ReceiveKey(cfg, p, h).value.1;
            (Held(cfg, p, g) ==> Held(cfg, p1, g)) && (InNextEpoch(cfg, keys, r, p, g) ==> InNextEpoch(cfg, keys, r, p1, g))
  {
    hide StoreInv, ChainsInv, KeysOk, Has, ReceiveOnChain;
    var pe := PeerEpoch(keys, r, p);
    BaseReplay.StoreDistinct(keys, pe, p.skipped);
    if InStore(p, h) {
      RemoveFacts(p.skipped, Id(RatchetLabel(h.pk), h.n));
    } else {
      OnChainFacts(cfg, p, h);
      if Held(cfg, p, g) {
        ReadKeeps(cfg, keys, pe, p, h, g);
      }
      if InNextEpoch(cfg, keys, r, p, g) {
        ReadKeepsNext(cfg, keys, r, p, h, g);
      }
    }
  }

  lemma ReadKeepsNext(cfg: Config, keys: seq<key32>, r: Role, p: State, h: Header, g: Header)
    requires |keys| >= 2 && ReceiveOnChain(cfg, p, h).Ok? && InNextEpoch(cfg, keys, r, p, g)
    ensures InNextEpoch(cfg, keys, r, ReceiveOnChain(cfg, p, h).value.1, g)
  {
    hide StoreRange, Adv;
    var p1, i := ReceiveOnChain(cfg, p, h).value.1, FindChain(p.chains, h.pk);
    SameFind(p.chains, p1.chains, p.dhr);
  }

  /** After the peer's last epoch has been entered there is no next one. */
  lemma NoNext(cfg: Config, keys: seq<key32>, r: Role, p: State, h: Header, g: Header)
    requires |keys| >= 2 && Owner(|keys| - 1) == Peer(r) && RatchetRecv(cfg, p, h).Ok?
    requires ReceiveOnChain(cfg, RatchetRecv(cfg, p, h).value, h).Ok?
    ensures !InNextEpoch(cfg, keys, r, ReceiveOnChain(cfg, RatchetRecv(cfg, p, h).value, h).value.1, g)
  {
    hide StoreRange, Adv;
  }

  /** Accepting one message costs no other that could be read: while the store has room for what is to
      be filed, a message of the peer that decrypted before decrypts afterwards, to its text, exactly
      unless it was to be read off the oldest of five chains and that chain was dropped for a sixth. */
  lemma StillDecrypts(w: World, s: System, r: Role, m: Message, ad: bytes, i: nat)
    requires Proper(w) && Inv(w, s) && Enabled(w, s, Deliver(r, m, ad)) && Decrypt(Cfg(w, r), Party(s, r), m, ad).0.Ok?
    requires |Party(s, r).skipped| + Filings(Party(s, r), m.header) <= MaxSkip(Cfg(w, r))
    requires i < |s.log| && Owner(s.log[i].epoch) == Peer(r)
    requires (s.log[i].msg.header.pk, s.log[i].msg.header.n) != (m.header.pk, m.header.n)
    requires Decrypt(Cfg(w, r), Party(s, r), s.log[i].msg, s.log[i].ad).0.Ok?
    ensures var cfg, p, e := Cfg(w, r), Party(s, r), s.log[i];
            var after := Decrypt(cfg, Decrypt(cfg, p, m, ad).1, e.msg, e.ad).0;
            && (after.Ok? <==> !(Drops(p, m.header, e.msg.header.pk) && !InStore(p, e.msg.header)))
            && (after.Ok? ==> after.value == e.text)
  {
    hide PartyInv, KeysOk, LogAt, ReceiveKey, InStore, InChain, InNextEpoch, Filings, Drops, Returns;
    var s1 := Step(w, s, Deliver(r, m, ad));
    var k := DeliverySound(w, s, r, m, ad);
    DeliveredKey(w, s, r, m, ad, k);
    DeliverInv(w, s, r, m, ad);
    RetentionWindow(w, s, r, i);
    RetentionWindow(w, s1, r, i);
    KeyKeeps(Cfg(w, r), s.keys, s.cnt, r, Party(s, r), m.header, s.log[k].epoch, s.log[i].msg.header);
  }

  lemma KeyKeeps(cfg: Config, keys: seq<key32>, cnt: seq<nat>, r: Role, p: State, h: Header, j: nat, g: Header)
    requires |keys| == |cnt| >= 2 && PartyInv(keys, cnt, r, p) && KeysOk(keys, cfg.lowOrder)
    requires ReceiveKey(cfg, p, h).Ok? && 1 <= j < |keys| && ReceiveKey(cfg, p, h).value.0 == MK(keys, j, h.n)
    requires |p.skipped| + Filings(p, h) <= MaxSkip(cfg) && (g.pk, g.n) != (h.pk, h.n)
    requires Held(cfg, p, g) || InNextEpoch(cfg, keys, r, p, g)
    ensures var p1 := ReceiveKey(cfg, p, h).value.1;
            Held(cfg, p1, g) || InNextEpoch(cfg, keys, r, p1, g) <==> !(Drops(p, h, g.pk) && !InStore(p, g))
  {
    hide StoreInv, ChainsInv, KeysOk, ReceiveKey, RatchetRecv, ReceiveOnChain, Held, InNextEpoch, Filings, Known;
    if InStore(p, h) || Known(p, h.pk) {
      KnownKeeps(cfg, keys, cnt, r, p, h, g);
    } else {
      NewEpochOutcome(cfg, p, h);
      NextEpochOnly(keys, r, p, h.pk, h.n, j);
      NewKeeps(cfg, keys, cnt, r, p, h, g);
      NoNext(cfg, keys, r, p, h, g);
    }
  }

  lemma SameFind(a: seq<Chain>, b: seq<Chain>, pk: key32)
    requires |a| == |b| && forall k :: 0 <= k < |a| ==> a[k].pk == b[k].pk
    ensures FindChain(a, pk) == FindChain(b, pk)
  {}
}
