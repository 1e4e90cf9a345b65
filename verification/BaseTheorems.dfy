/** What every run of two base sessions satisfies. */
module BaseTheorems {
  import opened Bytes
  import opened Terms
  import opened Wire
  import opened SkippedQueue
  import opened RatchetSpec
  import opened History
  import opened BaseRuns

  /** The actions `acts`, each enabled when it is taken, lead from `s` to `t`. */
  ghost predicate Leads(w: World, s: System, acts: seq<Action>, t: System)
    decreases |acts|
  {
    if acts == [] then s == t
    else
      && |s.keys| == |s.cnt| >= 2
      && Enabled(w, s, acts[0])
      && Leads(w, Step(w, s, acts[0]), acts[1..], t)
  }

  ghost predicate Reachable(w: World, s: System) {
    exists bob, alice, acts ::
      KeysOk([bob, alice], w.init.lowOrder) && Leads(w, Start(bob, alice), acts, s)
  }

  lemma {:induction false} LeadsInv(w: World, s: System, acts: seq<Action>, t: System)
    requires Proper(w) && Inv(w, s) && Leads(w, s, acts, t)
    ensures Inv(w, t)
    decreases |acts|
  {
    if acts != [] {
      StepInv(w, s, acts[0]);
      LeadsInv(w, Step(w, s, acts[0]), acts[1..], t);
    }
  }

  lemma ReachableInv(w: World, s: System)
    requires Proper(w) && Reachable(w, s)
    ensures Inv(w, s)
  {
    var bob, alice, acts :|
      KeysOk([bob, alice], w.init.lowOrder) && Leads(w, Start(bob, alice), acts, s);
    InvStart(w, bob, alice);
    LeadsInv(w, Start(bob, alice), acts, s);
  }

  /** Root lock step: both root keys lie on one chain of DH steps, at most one step apart; they
      coincide exactly when one party owes a sending step, and both never owe one. */
  ghost predicate LockStep(s: System, a: nat, b: nat) {
    && a < |s.keys| && b < |s.keys| && -1 <= a - b <= 1
    && s.init.rk == R(s.keys, a) && s.resp.rk == R(s.keys, b)
    && !(s.init.pending && s.resp.pending)
    && (a == b <==> s.init.pending || s.resp.pending)
    && (s.init.rk == s.resp.rk <==> s.init.pending || s.resp.pending)
  }

  lemma InvLockStep(w: World, s: System) returns (a: nat, b: nat)
    requires Inv(w, s)
    ensures LockStep(s, a, b)
  {
    hide StoreInv, ChainsInv, LogAt;
    a, b := Level(s.keys, Initiator, s.init), Level(s.keys, Responder, s.resp);
    if s.init.rk == s.resp.rk {
      RInjective(s.keys, a, b);
    }
  }

  lemma RootLockStep(w: World, s: System) returns (a: nat, b: nat)
    requires Proper(w) && Reachable(w, s)
    ensures LockStep(s, a, b)
  {
    ReachableInv(w, s);
    a, b := InvLockStep(w, s);
  }

  /** Delivery soundness over all runs. */
  lemma OnlyPeerMessagesDecrypt(w: World, s: System, r: Role, m: Message, ad: bytes, text: bytes)
    requires Proper(w) && Reachable(w, s) && Enabled(w, s, Deliver(r, m, ad))
    requires Decrypt(Cfg(w, r), Party(s, r), m, ad).0 == Ok(text)
    ensures exists i :: 0 <= i < |s.log| && s.log[i].msg == m && s.log[i].ad == ad && s.log[i].text == text
                        && Owner(s.log[i].epoch) == Peer(r)
  {
    ReachableInv(w, s);
    var i := DeliverySound(w, s, r, m, ad);
  }

  // ---- The retention window ----------------------------------------------------------------

  ghost predicate InStore(p: State, h: Header) {
    Has(p.skipped, Id(RatchetLabel(h.pk), h.n))
  }

  ghost predicate InChain(cfg: Config, p: State, h: Header) {
    exists k :: 0 <= k < |p.chains| && p.chains[k].pk == h.pk && p.chains[k].nr <= h.n <= p.chains[k].nr + MaxSkip(cfg)
  }

  ghost predicate InNextEpoch(cfg: Config, keys: seq<key32>, r: Role, p: State, h: Header)
    requires |keys| >= 2
  {
    && 0 <= PeerEpoch(keys, r, p) + 2 < |keys|
    && h.pk == keys[PeerEpoch(keys, r, p) + 2]
    && h.n <= MaxSkip(cfg)
    && (PreviousChain(p) >= 0 ==> h.pn <= p.chains[PreviousChain(p)].nr + MaxSkip(cfg))
  }

  /** Retained chains carry distinct keys of received epochs. */
  lemma ChainsDistinct(keys: seq<key32>, lowOrder: set<key32>, pe: int, chains: seq<Chain>)
    requires ChainsInv(keys, pe, chains) && KeysOk(keys, lowOrder)
    ensures forall i, k :: 0 <= i < k < |chains| ==> chains[i].pk != chains[k].pk
  {
    forall i, k | 0 <= i < k < |chains|
      ensures chains[i].pk != chains[k].pk
    {
      assert ChainAt(keys, EpochAt(pe, |chains|, i), chains[i]);
      assert ChainAt(keys, EpochAt(pe, |chains|, k), chains[k]);
    }
  }

  /** Of the epochs received, the chains of the last five are retained, and no others. */
  lemma RetainedExactly(keys: seq<key32>, lowOrder: set<key32>, pe: int, chains: seq<Chain>, j: nat)
    requires ChainsInv(keys, pe, chains) && KeysOk(keys, lowOrder) && 1 <= j < |keys|
    ensures FindChain(chains, keys[j]) >= 0 <==> j <= pe && (pe - j) % 2 == 0 && (pe - j) / 2 < 5
  {
    hide C, R, Adv;
    var i := FindChain(chains, keys[j]);
    if i >= 0 {
      assert ChainAt(keys, EpochAt(pe, |chains|, i), chains[i]);
    }
    if j <= pe && (pe - j) % 2 == 0 && (pe - j) / 2 < 5 {
      var k := |chains| - 1 - (pe - j) / 2;
      assert EpochAt(pe, |chains|, k) == j;
      assert ChainAt(keys, EpochAt(pe, |chains|, k), chains[k]);
    }
  }

  /** So in every state of the two-party system. */
  lemma LastFiveEpochs(w: World, s: System, r: Role, j: nat)
    requires Inv(w, s) && 1 <= j < |s.keys| && |s.keys| >= 2
    ensures FindChain(Party(s, r).chains, s.keys[j]) >= 0 <==>
              j <= PeerEpoch(s.keys, r, Party(s, r)) && Owner(j) == Peer(r) && (PeerEpoch(s.keys, r, Party(s, r)) - j) / 2 < 5
  {
    hide PartyInv, KeysOk, LogAt, FindChain, PeerEpoch, Owner;
    PartyRetains(s.keys, s.cnt, w.init.lowOrder, r, Party(s, r), j);
  }

  lemma PartyRetains(keys: seq<key32>, cnt: seq<nat>, lowOrder: set<key32>, r: Role, p: State, j: nat)
    requires |keys| == |cnt| >= 2 && PartyInv(keys, cnt, r, p) && KeysOk(keys, lowOrder) && 1 <= j < |keys|
    ensures FindChain(p.chains, keys[j]) >= 0 <==>
              j <= PeerEpoch(keys, r, p) && Owner(j) == Peer(r) && (PeerEpoch(keys, r, p) - j) / 2 < 5
  {
    hide StoreInv, ChainsInv, KeysOk, FindChain, R, C, Adv;
    RetainedExactly(keys, lowOrder, PeerEpoch(keys, r, p), p.chains, j);
  }

  /** The chain of the current remote key is the newest one. */
  lemma CurrentChain(keys: seq<key32>, lowOrder: set<key32>, pe: int, p: State)
    requires KeysOk(keys, lowOrder) && -1 <= pe < |keys| && ChainsInv(keys, pe, p.chains)
    requires pe >= 0 ==> p.dhr == keys[pe]
    ensures pe <= 0 ==> p.chains == []
    ensures pe >= 1 ==>
              var i := |p.chains| - 1;
              i >= 0 && FindChain(p.chains, p.dhr) == i && p.chains[i].pk == keys[pe] && p.chains[i].ck == Adv(C(keys, pe), p.chains[i].nr)
  {
    if pe >= 1 {
      var i := |p.chains| - 1;
      assert ChainAt(keys, EpochAt(pe, |p.chains|, i), p.chains[i]);
      ChainsDistinct(keys, lowOrder, pe, p.chains);
    }
  }

  /** Reading a retained chain succeeds exactly inside its window, with the history's key. */
  lemma OnChainWindow(cfg: Config, keys: seq<key32>, pe: int, p: State, h: Header, j: nat)
    requires ChainsInv(keys, pe, p.chains) && KeysOk(keys, cfg.lowOrder) && h.n < U32_MAX
    requires 1 <= j < |keys| && h.pk == keys[j]
    ensures ReceiveOnChain(cfg, p, h).Ok? <==> InChain(cfg, p, h)
    ensures InChain(cfg, p, h) ==> ReceiveOnChain(cfg, p, h).value.0 == MK(keys, j, h.n)
  {
    hide ChainsInv, StoreRange, Adv, C, R;
    ChainsDistinct(keys, cfg.lowOrder, pe, p.chains);
    var i := FindChain(p.chains, h.pk);
    if i >= 0 && p.chains[i].nr <= h.n {
      var l := RetainedKey(keys, pe, p.chains, i, h.n);
    }
  }

  /** A received ratchet key is never the peer's next one. */
  lemma KnownIsReceived(keys: seq<key32>, cnt: seq<nat>, lowOrder: set<key32>, r: Role, p: State, j: nat)
    requires |keys| == |cnt| >= 2 && PartyInv(keys, cnt, r, p) && KeysOk(keys, lowOrder)
    requires 1 <= j < |keys| && Known(p, keys[j])
    ensures j <= PeerEpoch(keys, r, p)
  {
    hide StoreInv;
    var i := FindChain(p.chains, keys[j]);
    if i >= 0 {
      assert ChainAt(keys, EpochAt(PeerEpoch(keys, r, p), |p.chains|, i), p.chains[i]);
    }
  }

  /** Following a header into a new epoch yields the history's key exactly when the header
      carries the peer's next ratchet key, within reach. */
  lemma NextEpochWindow(cfg: Config, keys: seq<key32>, cnt: seq<nat>, r: Role, p: State, h: Header, j: nat)
    requires |keys| == |cnt| >= 2 && PartyInv(keys, cnt, r, p) && KeysOk(keys, cfg.lowOrder) && h.n < U32_MAX
    requires 1 <= j < |keys| && h.pk == keys[j] && !InStore(p, h) && !Known(p, h.pk)
    ensures ReceiveKey(cfg, p, h).Ok? && ReceiveKey(cfg, p, h).value.0 == MK(keys, j, h.n) <==> InNextEpoch(cfg, keys, r, p, h)
  {
    hide StoreInv, ChainsInv, ReceiveKey, RatchetRecv, ReceiveOnChain, PreviousChain, Adv, R;
    NewEpochOutcome(cfg, p, h);
    if ReceiveKey(cfg, p, h).Ok? && ReceiveKey(cfg, p, h).value.0 == MK(keys, j, h.n) {
      NextEpochOnly(keys, r, p, h.pk, h.n, j);
    }
  }

  /** The key of an honest header is derived exactly inside the window. */
  lemma KeyWindow(cfg: Config, keys: seq<key32>, cnt: seq<nat>, r: Role, p: State, h: Header, j: nat)
    requires |keys| == |cnt| >= 2 && PartyInv(keys, cnt, r, p) && KeysOk(keys, cfg.lowOrder) && h.n < U32_MAX
    requires 1 <= j < |keys| && h.pk == keys[j]
    ensures ReceiveKey(cfg, p, h).Ok? && ReceiveKey(cfg, p, h).value.0 == MK(keys, j, h.n) <==>
              InStore(p, h) || InChain(cfg, p, h) || InNextEpoch(cfg, keys, r, p, h)
  {
    hide StoreInv, ChainsInv, ReceiveOnChain, RatchetRecv;
    if InStore(p, h) {
      var i := StoredKey(keys, PeerEpoch(keys, r, p), p.skipped, h.pk, h.n);
    } else if Known(p, h.pk) {
      OnChainWindow(cfg, keys, PeerEpoch(keys, r, p), p, h, j);
      KnownIsReceived(keys, cnt, cfg.lowOrder, r, p, j);
    } else {
      NextEpochWindow(cfg, keys, cnt, r, p, h, j);
    }
  }

  /** The exact retention window: an honest message of the peer decrypts, to the text that was
      sent, if and only if its key is filed, or its chain is retained and within reach, or it
      opens the peer's next epoch within reach. */
  lemma RetentionWindow(w: World, s: System, r: Role, i: nat)
    requires Proper(w) && Inv(w, s) && i < |s.log| && Owner(s.log[i].epoch) == Peer(r)
    ensures var e, cfg, p := s.log[i], Cfg(w, r), Party(s, r);
            var res := Decrypt(cfg, p, e.msg, e.ad).0;
            && (res.Ok? <==> InStore(p, e.msg.header) || InChain(cfg, p, e.msg.header) || InNextEpoch(cfg, s.keys, r, p, e.msg.header))
            && (res.Ok? ==> res.value == e.text)
  {
    hide PartyInv, ChainsInv, KeysOk;
    var e, cfg, p := s.log[i], Cfg(w, r), Party(s, r);
    assert LogAt(w, s.keys, s.cnt, e);
    PairedPrefix(Cfg(w, Peer(r)), cfg);
    KeyWindow(cfg, s.keys, s.cnt, r, p, e.msg.header, e.epoch);
  }

  // ---- What a log entry says ---------------------------------------------------------------

  lemma LogEpoch(w: World, s: System, i: nat)
    requires Inv(w, s) && i < |s.log|
    ensures 1 <= s.log[i].epoch < |s.keys| && s.log[i].msg.header.pk == s.keys[s.log[i].epoch]
  {
    assert LogAt(w, s.keys, s.cnt, s.log[i]);
  }

  lemma LogKey(w: World, s: System, i: nat)
    requires Inv(w, s) && i < |s.log|
    ensures 1 <= s.log[i].epoch < |s.keys| && s.log[i].msg.ct.Sealed?
    ensures s.log[i].msg.ct.key == MK(s.keys, s.log[i].epoch, s.log[i].msg.header.n)
  {
    assert LogAt(w, s.keys, s.cnt, s.log[i]);
  }

  lemma DeliveredKey(w: World, s: System, r: Role, m: Message, ad: bytes, i: nat)
    requires Inv(w, s) && i < |s.log| && s.log[i].msg == m
    requires Decrypt(Cfg(w, r), Party(s, r), m, ad).0.Ok?
    ensures 1 <= s.log[i].epoch < |s.keys|
    ensures ReceiveKey(Cfg(w, r), Party(s, r), m.header).Ok?
    ensures ReceiveKey(Cfg(w, r), Party(s, r), m.header).value.0 == MK(s.keys, s.log[i].epoch, m.header.n)
  {
    hide PartyInv, KeysOk, ReceiveKey;
    assert LogAt(w, s.keys, s.cnt, s.log[i]);
  }

  /** A derived key of the history names the header it was derived for. */
  lemma KeyNames(cfg: Config, keys: seq<key32>, cnt: seq<nat>, r: Role, p: State, h: Header, j: nat, n: nat)
    requires |keys| == |cnt| >= 2 && PartyInv(keys, cnt, r, p)
    requires ReceiveKey(cfg, p, h).Ok?
    requires 1 <= j < |keys| && ReceiveKey(cfg, p, h).value.0 == MK(keys, j, n)
    ensures h.pk == keys[j] && h.n == n
  {
    hide StoreInv, ChainsInv, ReceiveOnChain, RatchetRecv;
    var pe := PeerEpoch(keys, r, p);
    if InStore(p, h) {
      var i := StoredKey(keys, pe, p.skipped, h.pk, h.n);
      MKInjective(keys, i, h.n, j, n);
    } else if Known(p, h.pk) {
      OnChainFacts(cfg, p, h);
      var i := RetainedKey(keys, pe, p.chains, FindChain(p.chains, h.pk), h.n);
      MKInjective(keys, i, h.n, j, n);
    } else {
      NewEpochOutcome(cfg, p, h);
      NewEpochNames(keys, r, p, h.pk, h.n, j, n);
    }
  }

  lemma NewEpochNames(keys: seq<key32>, r: Role, p: State, remote: key32, n: nat, j: nat, m: nat)
    requires |keys| >= 2 && p.rk == R(keys, Level(keys, r, p)) && p.dhs == keys[OwnEpoch(keys, r)]
    requires Owner(|keys| - 1) == r ==> !p.pending
    requires 1 <= j < |keys|
    requires MessageKey(Adv(ChainKey(p.rk, Dh(p.dhs, remote)), n)) == MK(keys, j, m)
    ensures remote == keys[j] && n == m
  {
    if Level(keys, r, p) == |keys| - 1 {
      DerivedBeyond(keys, p.dhs, remote, n, j, m);
    } else {
      DerivedChain(keys, |keys| - 2, remote, n, j, m);
    }
  }
}
