/** How often the base session accepts a message. A skipped key is deleted when it is used, yet
    a chain that is left behind keeps serving the positions whose keys were filed on leaving
    it, so those can be accepted a second time; nothing is accepted a third time. */
module BaseReplay {
  import opened Bytes
  import opened Terms
  import opened Wire
  import opened SkippedQueue
  import opened RatchetSpec
  import opened History
  import opened BaseRuns
  import opened BaseTheorems

  /** Reading a position off a chain removes it from the chain and never files it. */
  lemma OnChainConsumes(cfg: Config, p: State, h: Header)
    requires ReceiveOnChain(cfg, p, h).Ok? && Distinct(p.skipped) && !InStore(p, h)
    ensures var p1, i := ReceiveOnChain(cfg, p, h).value.1, FindChain(p.chains, h.pk);
            && !InStore(p1, h)
            && 0 <= i < |p1.chains| && p1.chains[i].pk == h.pk && p1.chains[i].nr == h.n + 1
  {
    var c := p.chains[FindChain(p.chains, h.pk)];
    StoreRangeFacts(MaxSkip(cfg), p.skipped, RatchetLabel(h.pk), c.ck, c.nr, h.n);
  }

  /** Leaving the previous chain files no position of the new one. */
  lemma RatchetRecvStore(cfg: Config, p: State, h: Header, id: Id)
    requires Distinct(p.skipped) && RatchetRecv(cfg, p, h).Ok?
    ensures Distinct(RatchetRecv(cfg, p, h).value.skipped)
    ensures Has(RatchetRecv(cfg, p, h).value.skipped, id) ==> Has(p.skipped, id) || LeftBehind(p, h, id)
  {
    var i := PreviousChain(p);
    if i >= 0 {
      StoreRangeFacts(MaxSkip(cfg), p.skipped, RatchetLabel(p.dhr), p.chains[i].ck, p.chains[i].nr, h.pn);
    }
  }

  /** The positions filed on leaving the chain of the current remote key: those from its
      counter up to the announced length. The chain itself still covers them. */
  predicate LeftBehind(p: State, h: Header, id: Id) {
    var i := PreviousChain(p);
    i >= 0 && id.lab == RatchetLabel(p.dhr) && p.chains[i].nr <= id.n < h.pn
  }

  /** What is left of an accepted position: nothing, unless its key had been filed while its
      chain still covered it. */
  lemma Consumed(w: World, s: System, r: Role, h: Header, j: nat)
    requires Proper(w) && |s.keys| == |s.cnt| >= 2 && KeysOk(s.keys, w.init.lowOrder)
    requires PartyInv(s.keys, s.cnt, r, Party(s, r))
    requires ReceiveKey(Cfg(w, r), Party(s, r), h).Ok?
    requires 1 <= j < |s.keys| && h.pk == s.keys[j]
    requires PartyInv(s.keys, s.cnt, r, ReceiveKey(Cfg(w, r), Party(s, r), h).value.1)
    ensures var cfg, p := Cfg(w, r), Party(s, r);
            var p1 := ReceiveKey(cfg, p, h).value.1;
            && !InStore(p1, h)
            && !InNextEpoch(cfg, s.keys, r, p1, h)
            && (InChain(cfg, p1, h) <==> InStore(p, h) && InChain(cfg, p, h))
  {
    hide StoreInv, ChainsInv, ReceiveOnChain, RatchetRecv, KeysOk;
    var cfg, p, pe := Cfg(w, r), Party(s, r), PeerEpoch(s.keys, r, Party(s, r));
    if InStore(p, h) {
      var l := StoredKey(s.keys, pe, p.skipped, h.pk, h.n);
      ReceivedIsNotNext(s.keys, w.init.lowOrder, pe, l);
      StoreDistinct(s.keys, pe, p.skipped);
      RemoveFacts(p.skipped, Id(RatchetLabel(h.pk), h.n));
    } else {
      ReadConsumes(cfg, s.keys, s.cnt, r, p, h, j);
    }
  }

  lemma StoreDistinct(keys: seq<key32>, pe: int, q: seq<Entry>)
    requires StoreInv(keys, pe, q)
    ensures Distinct(q)
  {}

  lemma ReceivedIsNotNext(keys: seq<key32>, lowOrder: set<key32>, pe: int, l: nat)
    requires KeysOk(keys, lowOrder) && l <= pe && l < |keys|
    ensures 0 <= pe + 2 < |keys| ==> keys[l] != keys[pe + 2]
  {}

  lemma ReadConsumes(cfg: Config, keys: seq<key32>, cnt: seq<nat>, r: Role, p: State, h: Header, j: nat)
    requires |keys| == |cnt| >= 2 && KeysOk(keys, cfg.lowOrder) && PartyInv(keys, cnt, r, p)
    requires ReceiveKey(cfg, p, h).Ok? && !InStore(p, h)
    requires 1 <= j < |keys| && h.pk == keys[j]
    requires PartyInv(keys, cnt, r, ReceiveKey(cfg, p, h).value.1)
    ensures var p1 := ReceiveKey(cfg, p, h).value.1;
            !InStore(p1, h) && !InNextEpoch(cfg, keys, r, p1, h) && !InChain(cfg, p1, h)
  {
    hide StoreInv, ChainsInv, ReceiveOnChain, RatchetRecv, KeysOk;
    var p1 := ReceiveKey(cfg, p, h).value.1;
    StoreDistinct(keys, PeerEpoch(keys, r, p), p.skipped);
    if Known(p, h.pk) {
      OnChainFacts(cfg, p, h);
      OnChainConsumes(cfg, p, h);
    } else {
      NewEpochOutcome(cfg, p, h);
      RatchetRecvStore(cfg, p, h, Id(RatchetLabel(h.pk), h.n));
      OnChainConsumes(cfg, RatchetRecv(cfg, p, h).value, h);
    }
    ChainsDistinct(keys, cfg.lowOrder, PeerEpoch(keys, r, p1), p1.chains);
    KnownIsReceived(keys, cnt, cfg.lowOrder, r, p1, j);
    ReceivedIsNotNext(keys, cfg.lowOrder, PeerEpoch(keys, r, p1), j);
  }

  /** Replay, exactly: the message just accepted is accepted again if and only if its key came
      from the store and its chain is retained and still covers it. */
  lemma ReplayExactly(w: World, s: System, r: Role, m: Message, ad: bytes)
    requires Proper(w) && Inv(w, s) && Enabled(w, s, Deliver(r, m, ad))
    requires Decrypt(Cfg(w, r), Party(s, r), m, ad).0.Ok?
    ensures var cfg, p := Cfg(w, r), Party(s, r);
            Decrypt(cfg, Decrypt(cfg, p, m, ad).1, m, ad).0.Ok? <==> InStore(p, m.header) && InChain(cfg, p, m.header)
  {
    hide PartyInv, KeysOk, LogAt, ReceiveKey;
    var i := DeliverySound(w, s, r, m, ad);
    var s1 := Step(w, s, Deliver(r, m, ad));
    DeliverInv(w, s, r, m, ad);
    RetentionWindow(w, s1, r, i);
    LogEpoch(w, s, i);
    Consumed(w, s, r, m.header, s.log[i].epoch);
  }

  // ---- Accounting over whole runs ----------------------------------------------------------

  /** Who accepted which message how often, and which positions were left behind twofold. */
  datatype Ledger = Ledger(accepted: multiset<(Role, key32, u32)>, doubled: set<(Role, key32, u32)>)

  function LeftPositions(r: Role, p: State, h: Header): set<(Role, key32, u32)> {
    if Has(p.skipped, Id(RatchetLabel(h.pk), h.n)) || Known(p, h.pk) || PreviousChain(p) < 0 then {}
    else set n: u32 | p.chains[PreviousChain(p)].nr <= n < h.pn :: (r, p.dhr, n)
  }

  function Note(w: World, s: System, l: Ledger, a: Action): Ledger {
    match a
    case Send(_, _, _, _) => l
    case Deliver(r, m, ad) =>
      var p, h := Party(s, r), m.header;
      if Decrypt(Cfg(w, r), p, m, ad).0.Err? then l
      else Ledger(l.accepted + multiset{(r, h.pk, h.n)}, l.doubled + LeftPositions(r, p, h))
  }

  ghost predicate LeadsNoting(w: World, s: System, l: Ledger, acts: seq<Action>, t: System, k: Ledger)
    decreases |acts|
  {
    if acts == [] then s == t && l == k
    else
      && |s.keys| == |s.cnt| >= 2
      && Enabled(w, s, acts[0])
      && LeadsNoting(w, Step(w, s, acts[0]), Note(w, s, l, acts[0]), acts[1..], t, k)
  }

  ghost predicate Received(keys: seq<key32>, pe: int, pk: key32) {
    exists j :: 1 <= j <= pe && j < |keys| && (pe - j) % 2 == 0 && keys[j] == pk
  }

  ghost predicate OnChain(p: State, pk: key32, n: u32) {
    exists k :: 0 <= k < |p.chains| && p.chains[k].pk == pk && p.chains[k].nr <= n
  }

  /** How many more times a position can be accepted: once while its epoch is still to come,
      then once from the store and once from its chain. */
  ghost function Left(keys: seq<key32>, pe: int, p: State, pk: key32, n: u32): nat {
    if !Received(keys, pe, pk) then 1
    else (if Has(p.skipped, Id(RatchetLabel(pk), n)) then 1 else 0) + (if OnChain(p, pk, n) then 1 else 0)
  }

  ghost predicate Balanced(keys: seq<key32>, pe: int, r: Role, p: State, l: Ledger) {
    && (forall pk: key32, n: u32 :: l.accepted[(r, pk, n)] + Left(keys, pe, p, pk, n) <= 1 + (if (r, pk, n) in l.doubled then 1 else 0))
    && (forall pk: key32, n: u32 :: (r, pk, n) in l.doubled ==> Received(keys, pe, pk) && pk != p.dhr)
  }

  lemma TakeBalances(keys: seq<key32>, pe: int, r: Role, p: State, l: Ledger, pk: key32, n: u32)
    requires Balanced(keys, pe, r, p, l) && StoreInv(keys, pe, p.skipped) && Has(p.skipped, Id(RatchetLabel(pk), n))
    ensures Balanced(keys, pe, r, p.(skipped := Remove(p.skipped, Id(RatchetLabel(pk), n))), l.(accepted := l.accepted + multiset{(r, pk, n)}))
  {
    var id := Id(RatchetLabel(pk), n);
    var p1 := p.(skipped := Remove(p.skipped, id));
    RemoveFacts(p.skipped, id);
    var j := StoredKey(keys, pe, p.skipped, pk, n);
    assert Received(keys, pe, pk);
    forall pk': key32, n': u32
      ensures Left(keys, pe, p1, pk', n') + (if (pk', n') == (pk, n) then 1 else 0) <= Left(keys, pe, p, pk', n')
    {
      assert OnChain(p1, pk', n') == OnChain(p, pk', n');
    }
  }

  /** Reading position `h.n` uses up the chain's positions up to it and no other. */
  lemma ReadOnChain(cfg: Config, keys: seq<key32>, pe: int, p: State, h: Header, pk: key32, n: u32)
    requires ChainsInv(keys, pe, p.chains) && KeysOk(keys, cfg.lowOrder)
    requires ReceiveOnChain(cfg, p, h).Ok?
    ensures var p1, i := ReceiveOnChain(cfg, p, h).value.1, FindChain(p.chains, h.pk);
            && (OnChain(p1, pk, n) ==> OnChain(p, pk, n) && (pk == h.pk ==> n > h.n))
            && (pk == h.pk && p.chains[i].nr <= n ==> OnChain(p, pk, n))
  {
    var p1, i := ReceiveOnChain(cfg, p, h).value.1, FindChain(p.chains, h.pk);
    ChainsDistinct(keys, cfg.lowOrder, pe, p.chains);
    if OnChain(p1, pk, n) {
      var k :| 0 <= k < |p1.chains| && p1.chains[k].pk == pk && p1.chains[k].nr <= n;
      assert p.chains[k].pk == pk && p.chains[k].nr <= n;
    }
  }

  lemma ReadLeaves(cfg: Config, keys: seq<key32>, pe: int, p: State, h: Header, pk: key32, n: u32)
    requires ChainsInv(keys, pe, p.chains) && KeysOk(keys, cfg.lowOrder) && Distinct(p.skipped)
    requires ReceiveOnChain(cfg, p, h).Ok? && !InStore(p, h) && Received(keys, pe, h.pk)
    ensures var p1 := ReceiveOnChain(cfg, p, h).value.1;
            Left(keys, pe, p1, pk, n) + (if (pk, n) == (h.pk, h.n) then 1 else 0) <= Left(keys, pe, p, pk, n)
  {
    hide ChainsInv, KeysOk, OnChain, Received;
    var i := FindChain(p.chains, h.pk);
    ReadOnChain(cfg, keys, pe, p, h, pk, n);
    StoreRangeFacts(MaxSkip(cfg), p.skipped, RatchetLabel(h.pk), p.chains[i].ck, p.chains[i].nr, h.n);
  }

  lemma ReadBalances(cfg: Config, keys: seq<key32>, pe: int, r: Role, p: State, l: Ledger, h: Header)
    requires Balanced(keys, pe, r, p, l) && StoreInv(keys, pe, p.skipped)
    requires ChainsInv(keys, pe, p.chains) && KeysOk(keys, cfg.lowOrder)
    requires ReceiveOnChain(cfg, p, h).Ok? && !InStore(p, h)
    ensures Balanced(keys, pe, r, ReceiveOnChain(cfg, p, h).value.1, l.(accepted := l.accepted + multiset{(r, h.pk, h.n)}))
  {
    hide StoreInv, ChainsInv, KeysOk;
    var p1 := ReceiveOnChain(cfg, p, h).value.1;
    StoreDistinct(keys, pe, p.skipped);
    OnChainFacts(cfg, p, h);
    var j := RetainedKey(keys, pe, p.chains, FindChain(p.chains, h.pk), h.n);
    assert Received(keys, pe, h.pk);
    forall pk: key32, n: u32
      ensures Left(keys, pe, p1, pk, n) + (if (pk, n) == (h.pk, h.n) then 1 else 0) <= Left(keys, pe, p, pk, n)
    {
      ReadLeaves(cfg, keys, pe, p, h, pk, n);
    }
  }

  lemma LeaveOnChain(cfg: Config, p: State, h: Header, pk: key32, n: u32)
    requires RatchetRecv(cfg, p, h).Ok?
    ensures OnChain(RatchetRecv(cfg, p, h).value, pk, n) ==> OnChain(p, pk, n) || pk == h.pk
  {
    var p1 := RatchetRecv(cfg, p, h).value;
    if OnChain(p1, pk, n) {
      var k :| 0 <= k < |p1.chains| && p1.chains[k].pk == pk && p1.chains[k].nr <= n;
      assert p1.chains[k] in p.chains || p1.chains[k].pk == h.pk;
    }
  }

  lemma LeftBehindOnChain(keys: seq<key32>, pe: int, p: State, h: Header, pk: key32, n: u32)
    requires ChainsInv(keys, pe, p.chains) && LeftBehind(p, h, Id(RatchetLabel(pk), n))
    ensures OnChain(p, pk, n) && Received(keys, pe, pk)
  {
    var j := RetainedKey(keys, pe, p.chains, PreviousChain(p), n);
  }

  /** Following the peer into its next epoch doubles exactly the positions it leaves behind. */
  lemma LeaveLeaves(cfg: Config, keys: seq<key32>, pe: int, p: State, h: Header, pk: key32, n: u32)
    requires StoreInv(keys, pe, p.skipped) && ChainsInv(keys, pe, p.chains) && KeysOk(keys, cfg.lowOrder)
    requires -1 <= pe && pe + 2 < |keys| && h.pk == keys[pe + 2] && RatchetRecv(cfg, p, h).Ok?
    requires pe >= 0 ==> p.dhr == keys[pe]
    ensures var p1 := RatchetRecv(cfg, p, h).value;
            && Left(keys, pe + 2, p1, pk, n) <= Left(keys, pe, p, pk, n) + (if LeftBehind(p, h, Id(RatchetLabel(pk), n)) then 1 else 0)
            && (LeftBehind(p, h, Id(RatchetLabel(pk), n)) ==> Left(keys, pe + 2, p1, pk, n) <= 2 && OnChain(p, pk, n) && Received(keys, pe, pk))
            && (Received(keys, pe, pk) ==> Received(keys, pe + 2, pk))
  {
    hide StoreInv, ChainsInv, KeysOk, OnChain, Received, RatchetRecv, LeftBehind;
    var id := Id(RatchetLabel(pk), n);
    StoreDistinct(keys, pe, p.skipped);
    RatchetRecvStore(cfg, p, h, id);
    LeaveOnChain(cfg, p, h, pk, n);
    ReceivedGrows(keys, pe, pk);
    NextNotReceived(keys, cfg.lowOrder, pe);
    NextNotStored(keys, cfg.lowOrder, pe, p.skipped, n);
    if LeftBehind(p, h, id) {
      LeftBehindOnChain(keys, pe, p, h, pk, n);
    }
  }

  lemma ReceivedGrows(keys: seq<key32>, pe: int, pk: key32)
    requires -1 <= pe && pe + 2 < |keys|
    ensures Received(keys, pe + 2, pk) <==> Received(keys, pe, pk) || pk == keys[pe + 2]
  {
    if Received(keys, pe + 2, pk) {
      var j :| 1 <= j <= pe + 2 && (pe + 2 - j) % 2 == 0 && keys[j] == pk;
      assert j == pe + 2 || j <= pe;
    }
    if Received(keys, pe, pk) {
      var j :| 1 <= j <= pe && (pe - j) % 2 == 0 && keys[j] == pk;
      assert (pe + 2 - j) % 2 == 0;
    }
  }

  lemma NextNotReceived(keys: seq<key32>, lowOrder: set<key32>, pe: int)
    requires KeysOk(keys, lowOrder) && -1 <= pe && pe + 2 < |keys|
    ensures !Received(keys, pe, keys[pe + 2])
  {}

  lemma NextNotStored(keys: seq<key32>, lowOrder: set<key32>, pe: int, q: seq<Entry>, n: u32)
    requires KeysOk(keys, lowOrder) && StoreInv(keys, pe, q) && -1 <= pe && pe + 2 < |keys|
    ensures !Has(q, Id(RatchetLabel(keys[pe + 2]), n))
  {
    var i := Find(q, Id(RatchetLabel(keys[pe + 2]), n));
    if i >= 0 {
      assert q[i] in q;
    }
  }

  lemma LeaveBalances(cfg: Config, keys: seq<key32>, pe: int, r: Role, p: State, l: Ledger, h: Header)
    requires Balanced(keys, pe, r, p, l)
    requires StoreInv(keys, pe, p.skipped) && ChainsInv(keys, pe, p.chains) && KeysOk(keys, cfg.lowOrder)
    requires -1 <= pe && pe + 2 < |keys| && h.pk == keys[pe + 2] && RatchetRecv(cfg, p, h).Ok?
    requires p.dhRSet == (pe >= 0) && (pe >= 0 ==> p.dhr == keys[pe])
    requires !Has(p.skipped, Id(RatchetLabel(h.pk), h.n)) && !Known(p, h.pk)
    ensures Balanced(keys, pe + 2, r, RatchetRecv(cfg, p, h).value, l.(doubled := l.doubled + LeftPositions(r, p, h)))
  {
    hide StoreInv, ChainsInv, KeysOk, Left, Received, OnChain, RatchetRecv;
    var p1 := RatchetRecv(cfg, p, h).value;
    forall pk: key32, n: u32
      ensures l.accepted[(r, pk, n)] + Left(keys, pe + 2, p1, pk, n) <= 1 + (if (r, pk, n) in l.doubled + LeftPositions(r, p, h) then 1 else 0)
      ensures (r, pk, n) in l.doubled + LeftPositions(r, p, h) ==> Received(keys, pe + 2, pk) && pk != p1.dhr
    {
      LeaveLeaves(cfg, keys, pe, p, h, pk, n);
      LeaveOne(cfg, keys, pe, r, p, l, h, pk, n);
    }
  }

  lemma LeaveOne(cfg: Config, keys: seq<key32>, pe: int, r: Role, p: State, l: Ledger, h: Header, pk: key32, n: u32)
    requires Balanced(keys, pe, r, p, l) && KeysOk(keys, cfg.lowOrder)
    requires -1 <= pe && pe + 2 < |keys| && h.pk == keys[pe + 2] && RatchetRecv(cfg, p, h).Ok?
    requires !Has(p.skipped, Id(RatchetLabel(h.pk), h.n)) && !Known(p, h.pk)
    requires LeftBehind(p, h, Id(RatchetLabel(pk), n)) ==> OnChain(p, pk, n) && Received(keys, pe, pk)
    ensures RatchetRecv(cfg, p, h).value.dhr == h.pk
    ensures LeftBehind(p, h, Id(RatchetLabel(pk), n)) <==> (r, pk, n) in LeftPositions(r, p, h)
    ensures LeftBehind(p, h, Id(RatchetLabel(pk), n)) ==> (r, pk, n) !in l.doubled && l.accepted[(r, pk, n)] == 0
    ensures (r, pk, n) in l.doubled + LeftPositions(r, p, h) ==> Received(keys, pe, pk) && pk != h.pk
  {
    NextNotReceived(keys, cfg.lowOrder, pe);
  }

  /** A successful delivery balances the receiver's account. */
  lemma DeliverBalances(cfg: Config, keys: seq<key32>, cnt: seq<nat>, r: Role, p: State, l: Ledger, h: Header, j: nat)
    requires |keys| == |cnt| >= 2 && PartyInv(keys, cnt, r, p) && KeysOk(keys, cfg.lowOrder)
    requires Balanced(keys, PeerEpoch(keys, r, p), r, p, l)
    requires ReceiveKey(cfg, p, h).Ok? && 1 <= j < |keys| && ReceiveKey(cfg, p, h).value.0 == MK(keys, j, h.n)
    ensures var p1 := ReceiveKey(cfg, p, h).value.1;
            Balanced(keys, PeerEpoch(keys, r, p1), r, p1,
                     Ledger(l.accepted + multiset{(r, h.pk, h.n)}, l.doubled + LeftPositions(r, p, h)))
  {
    hide StoreInv, ChainsInv, KeysOk, Balanced, ReceiveOnChain, RatchetRecv;
    var pe := PeerEpoch(keys, r, p);
    if InStore(p, h) {
      TakeBalances(keys, pe, r, p, l, h.pk, h.n);
      assert l.doubled + LeftPositions(r, p, h) == l.doubled;
    } else if Known(p, h.pk) {
      ReadBalances(cfg, keys, pe, r, p, l, h);
      ReadKeepsPending(cfg, p, h);
      assert l.doubled + LeftPositions(r, p, h) == l.doubled;
    } else {
      NewEpochOutcome(cfg, p, h);
      NextEpochOnly(keys, r, p, h.pk, h.n, j);
      EnterBalances(cfg, keys, cnt, r, p, l, h);
    }
  }

  lemma ReadKeepsPending(cfg: Config, p: State, h: Header)
    requires ReceiveOnChain(cfg, p, h).Ok?
    ensures ReceiveOnChain(cfg, p, h).value.1.pending == p.pending
  {}

  lemma EnterBalances(cfg: Config, keys: seq<key32>, cnt: seq<nat>, r: Role, p: State, l: Ledger, h: Header)
    requires |keys| == |cnt| >= 2 && PartyInv(keys, cnt, r, p) && KeysOk(keys, cfg.lowOrder)
    requires Balanced(keys, PeerEpoch(keys, r, p), r, p, l)
    requires !InStore(p, h) && !Known(p, h.pk) && ReceiveKey(cfg, p, h).Ok?
    requires Owner(|keys| - 1) == Peer(r) && !p.pending && h.pk == keys[|keys| - 1]
    ensures var p1 := ReceiveKey(cfg, p, h).value.1;
            Balanced(keys, PeerEpoch(keys, r, p1), r, p1,
                     Ledger(l.accepted + multiset{(r, h.pk, h.n)}, l.doubled + LeftPositions(r, p, h)))
  {
    hide StoreInv, ChainsInv, KeysOk, Balanced, ReceiveOnChain, ReceiveKey, RatchetRecv, LeftBehind;
    var pe := PeerEpoch(keys, r, p);
    NewEpochOutcome(cfg, p, h);
    var p2 := RatchetRecv(cfg, p, h).value;
    var l2 := l.(doubled := l.doubled + LeftPositions(r, p, h));
    LeaveBalances(cfg, keys, pe, r, p, l, h);
    LeavePending(cfg, p, h);
    NotLeftBehind(p, h);
    RatchetRecvKeepsParty(cfg, keys, cnt, r, p, h);
    StoreDistinct(keys, pe, p.skipped);
    RatchetRecvStore(cfg, p, h, Id(RatchetLabel(h.pk), h.n));
    ReadBalances(cfg, keys, pe + 2, r, p2, l2, h);
    ReadKeepsPending(cfg, p2, h);
  }

  /** The position can still be accepted. */
  ghost predicate Usable(keys: seq<key32>, r: Role, p: State, pk: key32, n: u32)
    requires |keys| >= 2
  {
    Left(keys, PeerEpoch(keys, r, p), p, pk, n) > 0
  }

  /** Where one derivation of a key of the history leaves the receiver: it was usable, nothing
      becomes usable by it, and it stays usable exactly where it was filed while its chain still
      covers it. */
  lemma KeyUses(cfg: Config, keys: seq<key32>, cnt: seq<nat>, r: Role, p: State, h: Header, j: nat)
    requires |keys| == |cnt| >= 2 && PartyInv(keys, cnt, r, p) && KeysOk(keys, cfg.lowOrder)
    requires ReceiveKey(cfg, p, h).Ok? && 1 <= j < |keys| && ReceiveKey(cfg, p, h).value.0 == MK(keys, j, h.n)
    ensures var p1 := ReceiveKey(cfg, p, h).value.1;
            && Usable(keys, r, p, h.pk, h.n)
            && (forall pk: key32, n: u32 :: Usable(keys, r, p1, pk, n) ==> Usable(keys, r, p, pk, n))
            && (Usable(keys, r, p1, h.pk, h.n) <==> InStore(p, h) && OnChain(p, h.pk, h.n))
  {
    hide StoreInv, ChainsInv, KeysOk, Left, OnChain, Received, ReceiveOnChain, RatchetRecv, Returns;
    var pe := PeerEpoch(keys, r, p);
    if InStore(p, h) {
      TakeUses(keys, pe, p, h);
    } else if Known(p, h.pk) {
      ReadUses(cfg, keys, pe, p, h);
      ReadKeepsPending(cfg, p, h);
    } else {
      NewEpochOutcome(cfg, p, h);
      NextEpochOnly(keys, r, p, h.pk, h.n, j);
      EnterUses(cfg, keys, cnt, r, p, h);
    }
  }

  lemma LeavePending(cfg: Config, p: State, h: Header)
    requires RatchetRecv(cfg, p, h).Ok?
    ensures RatchetRecv(cfg, p, h).value.pending
  {}

  lemma TakeUses(keys: seq<key32>, pe: int, p: State, h: Header)
    requires StoreInv(keys, pe, p.skipped) && InStore(p, h)
    ensures var p1 := p.(skipped := Remove(p.skipped, Id(RatchetLabel(h.pk), h.n)));
            && Left(keys, pe, p, h.pk, h.n) > 0
            && (forall pk: key32, n: u32 :: Left(keys, pe, p1, pk, n) <= Left(keys, pe, p, pk, n))
            && (Left(keys, pe, p1, h.pk, h.n) > 0 <==> OnChain(p, h.pk, h.n))
  {
    RemoveFacts(p.skipped, Id(RatchetLabel(h.pk), h.n));
    var p1 := p.(skipped := Remove(p.skipped, Id(RatchetLabel(h.pk), h.n)));
    var j := StoredKey(keys, pe, p.skipped, h.pk, h.n);
    assert Received(keys, pe, h.pk);
    forall pk: key32, n: u32
      ensures Left(keys, pe, p1, pk, n) <= Left(keys, pe, p, pk, n)
      ensures OnChain(p1, pk, n) == OnChain(p, pk, n)
    {
      assert OnChain(p1, pk, n) == OnChain(p, pk, n);
    }
  }

  lemma ReadUses(cfg: Config, keys: seq<key32>, pe: int, p: State, h: Header)
    requires StoreInv(keys, pe, p.skipped) && ChainsInv(keys, pe, p.chains) && KeysOk(keys, cfg.lowOrder)
    requires ReceiveOnChain(cfg, p, h).Ok? && !InStore(p, h)
    ensures var p1 := ReceiveOnChain(cfg, p, h).value.1;
            && Received(keys, pe, h.pk)
            && (forall pk: key32, n: u32 :: Left(keys, pe, p1, pk, n) <= Left(keys, pe, p, pk, n))
            && Left(keys, pe, p, h.pk, h.n) == 1 && Left(keys, pe, p1, h.pk, h.n) == 0
  {
    hide StoreInv, ChainsInv, KeysOk, OnChain;
    var p1 := ReceiveOnChain(cfg, p, h).value.1;
    StoreDistinct(keys, pe, p.skipped);
    OnChainFacts(cfg, p, h);
    var j := RetainedKey(keys, pe, p.chains, FindChain(p.chains, h.pk), h.n);
    assert Received(keys, pe, h.pk);
    forall pk: key32, n: u32
      ensures Left(keys, pe, p1, pk, n) + (if (pk, n) == (h.pk, h.n) then 1 else 0) <= Left(keys, pe, p, pk, n)
    {
      ReadLeaves(cfg, keys, pe, p, h, pk, n);
    }
    assert Left(keys, pe, p1, h.pk, h.n) + 1 <= Left(keys, pe, p, h.pk, h.n);
  }

  lemma EnterUses(cfg: Config, keys: seq<key32>, cnt: seq<nat>, r: Role, p: State, h: Header)
    requires |keys| == |cnt| >= 2 && PartyInv(keys, cnt, r, p) && KeysOk(keys, cfg.lowOrder)
    requires !InStore(p, h) && !Known(p, h.pk)
    requires Owner(|keys| - 1) == Peer(r) && !p.pending && h.pk == keys[|keys| - 1]
    requires RatchetRecv(cfg, p, h).Ok? && ReceiveOnChain(cfg, RatchetRecv(cfg, p, h).value, h).Ok?
    ensures var p1 := ReceiveOnChain(cfg, RatchetRecv(cfg, p, h).value, h).value.1;
            && (forall pk: key32, n: u32 :: Usable(keys, r, p1, pk, n) ==> Usable(keys, r, p, pk, n))
            && Usable(keys, r, p, h.pk, h.n) && !Usable(keys, r, p1, h.pk, h.n)
  {
    hide StoreInv, ChainsInv, KeysOk, OnChain, ReceiveOnChain, RatchetRecv, LeftBehind, Received;
    var pe := PeerEpoch(keys, r, p);
    var p2 := RatchetRecv(cfg, p, h).value;
    RatchetRecvKeepsParty(cfg, keys, cnt, r, p, h);
    LeavePending(cfg, p, h);
    ReadKeepsPending(cfg, p2, h);
    NextNotReceived(keys, cfg.lowOrder, pe);
    StoreDistinct(keys, pe, p.skipped);
    RatchetRecvStore(cfg, p, h, Id(RatchetLabel(h.pk), h.n));
    NotLeftBehind(p, h);
    ReadUses(cfg, keys, pe + 2, p2, h);
    forall pk: key32, n: u32 | Left(keys, pe + 2, ReceiveOnChain(cfg, p2, h).value.1, pk, n) > 0
      ensures Left(keys, pe, p, pk, n) > 0
    {
      LeaveLeaves(cfg, keys, pe, p, h, pk, n);
    }
  }

  lemma NotLeftBehind(p: State, h: Header)
    requires !Known(p, h.pk)
    ensures !LeftBehind(p, h, Id(RatchetLabel(h.pk), h.n))
  {}

  /** An account is the same for every state with the same store, chains and remote key. */
  lemma BalancedSame(keys: seq<key32>, keys': seq<key32>, pe: int, r: Role, p: State, q: State, l: Ledger)
    requires Balanced(keys, pe, r, p, l) && pe < |keys| && keys <= keys'
    requires q.skipped == p.skipped && q.chains == p.chains && q.dhr == p.dhr
    ensures Balanced(keys', pe, r, q, l)
  {
    forall pk: key32, n: u32
      ensures Received(keys', pe, pk) == Received(keys, pe, pk) && OnChain(q, pk, n) == OnChain(p, pk, n)
    {
      if Received(keys', pe, pk) {
        var j :| 1 <= j <= pe && j < |keys'| && (pe - j) % 2 == 0 && keys'[j] == pk;
        assert keys[j] == pk;
      }
      if Received(keys, pe, pk) {
        var j :| 1 <= j <= pe && j < |keys| && (pe - j) % 2 == 0 && keys[j] == pk;
        assert keys'[j] == pk;
      }
    }
  }

  /** What one party accepts does not concern the other. */
  lemma BalancedOther(keys: seq<key32>, pe: int, r: Role, p: State, l: Ledger, h: Header, q: State)
    requires Balanced(keys, pe, r, p, l)
    ensures Balanced(keys, pe, r, p, Ledger(l.accepted + multiset{(Peer(r), h.pk, h.n)}, l.doubled + LeftPositions(Peer(r), q, h)))
  {
    hide Left, Received;
  }

  ghost predicate AccountOf(s: System, r: Role, l: Ledger)
    requires |s.keys| >= 2
  {
    Balanced(s.keys, PeerEpoch(s.keys, r, Party(s, r)), r, Party(s, r), l)
  }

  /** A send adds at most one ratchet key and moves nobody's reading position. */
  lemma SendShape(w: World, s: System, a: Action, r: Role)
    requires Proper(w) && Inv(w, s) && a.Send? && Enabled(w, s, a)
    ensures var p, s1 := Party(s, r), Step(w, s, a);
            var q := Party(s1, r);
            && |s1.keys| >= 2 && s.keys <= s1.keys
            && PeerEpoch(s.keys, r, p) < |s.keys|
            && PeerEpoch(s1.keys, r, q) == PeerEpoch(s.keys, r, p)
            && q.chains == p.chains && q.skipped == p.skipped && q.dhr == p.dhr
  {
    hide PartyInv, KeysOk, LogAt, BuildAD, Encrypt, RatchetSend;
    EncryptFrame(Cfg(w, a.sender), Party(s, a.sender), a.text, a.ad, a.gen);
    if Party(s, a.sender).pending {
      PartyOwner(w, s, a.sender);
      RatchetSendKeepsParty(Cfg(w, a.sender), s.keys, s.cnt, a.sender, Party(s, a.sender), a.gen.value);
      PendingSends(Cfg(w, a.sender), Party(s, a.sender), a.text, a.ad, a.gen);
    } else {
      IdleSends(Cfg(w, a.sender), Party(s, a.sender), a.text, a.ad, a.gen);
    }
  }

  lemma PendingSends(cfg: Config, p: State, text: bytes, ad: bytes, gen: Option<key32>)
    requires p.pending && RatchetSend(cfg, p, gen).0.None?
    ensures Encrypt(cfg, p, text, ad, gen).0.Ok? && !Encrypt(cfg, p, text, ad, gen).1.pending
  {}

  lemma IdleSends(cfg: Config, p: State, text: bytes, ad: bytes, gen: Option<key32>)
    requires !p.pending
    ensures !Encrypt(cfg, p, text, ad, gen).1.pending
  {}

  lemma SendAccounts(w: World, s: System, a: Action, r: Role, l: Ledger)
    requires Proper(w) && Inv(w, s) && a.Send? && Enabled(w, s, a) && AccountOf(s, r, l)
    ensures |Step(w, s, a).keys| >= 2 && AccountOf(Step(w, s, a), r, l)
  {
    hide PartyInv, KeysOk, LogAt, Balanced, Step, PeerEpoch;
    SendShape(w, s, a, r);
    BalancedSame(s.keys, Step(w, s, a).keys, PeerEpoch(s.keys, r, Party(s, r)), r, Party(s, r), Party(Step(w, s, a), r), l);
  }

  lemma DeliverAccounts(w: World, s: System, a: Action, r: Role, l: Ledger)
    requires Proper(w) && Inv(w, s) && a.Deliver? && Enabled(w, s, a) && AccountOf(s, r, l)
    ensures AccountOf(Step(w, s, a), r, Note(w, s, l, a))
  {
    hide PartyInv, KeysOk, LogAt, ReceiveKey, Balanced, LeftPositions;
    var cfg, p, h := Cfg(w, a.receiver), Party(s, a.receiver), a.msg.header;
    if Decrypt(cfg, p, a.msg, a.ad).0.Ok? {
      if r == a.receiver {
        var i := DeliverySound(w, s, r, a.msg, a.ad);
        assert LogAt(w, s.keys, s.cnt, s.log[i]);
        DeliveredKey(w, s, r, a.msg, a.ad, i);
        DeliverBalances(cfg, s.keys, s.cnt, r, p, l, h, s.log[i].epoch);
      } else {
        BalancedOther(s.keys, PeerEpoch(s.keys, r, Party(s, r)), r, Party(s, r), l, h, p);
      }
    }
  }

  lemma {:induction false} RunAccounts(w: World, s: System, l: Ledger, acts: seq<Action>, t: System, k: Ledger)
    requires Proper(w) && Inv(w, s) && AccountOf(s, Initiator, l) && AccountOf(s, Responder, l)
    requires LeadsNoting(w, s, l, acts, t, k)
    ensures Inv(w, t) && AccountOf(t, Initiator, k) && AccountOf(t, Responder, k)
    decreases |acts|
  {
    hide PartyInv, KeysOk, LogAt, Balanced, Step, Note;
    if acts != [] {
      var a := acts[0];
      StepInv(w, s, a);
      if a.Send? {
        SendAccounts(w, s, a, Initiator, l);
        SendAccounts(w, s, a, Responder, l);
        NoteSend(w, s, l, a);
      } else {
        DeliverAccounts(w, s, a, Initiator, l);
        DeliverAccounts(w, s, a, Responder, l);
      }
      RunAccounts(w, Step(w, s, a), Note(w, s, l, a), acts[1..], t, k);
    }
  }

  lemma NoteSend(w: World, s: System, l: Ledger, a: Action)
    requires a.Send?
    ensures Note(w, s, l, a) == l
  {}

  const NOTHING := Ledger(multiset{}, {})

  /** Over any run, no message is accepted more than twice, and more than once only if its
      position was filed on leaving a chain that still covered it. */
  lemma AcceptedAtMostTwice(w: World, bob: key32, alice: key32, acts: seq<Action>, t: System, k: Ledger, r: Role, pk: key32, n: u32)
    requires Proper(w) && KeysOk([bob, alice], w.init.lowOrder)
    requires LeadsNoting(w, Start(bob, alice), NOTHING, acts, t, k)
    ensures k.accepted[(r, pk, n)] <= 2
    ensures (r, pk, n) !in k.doubled ==> k.accepted[(r, pk, n)] <= 1
  {
    hide PartyInv, KeysOk, LogAt;
    InvStart(w, bob, alice);
    StartBalanced(bob, alice, Initiator);
    StartBalanced(bob, alice, Responder);
    RunAccounts(w, Start(bob, alice), NOTHING, acts, t, k);
    AccountBound(t.keys, PeerEpoch(t.keys, r, Party(t, r)), r, Party(t, r), k, pk, n);
  }

  lemma StartBalanced(bob: key32, alice: key32, r: Role)
    ensures AccountOf(Start(bob, alice), r, NOTHING)
  {}

  lemma AccountBound(keys: seq<key32>, pe: int, r: Role, p: State, l: Ledger, pk: key32, n: u32)
    requires Balanced(keys, pe, r, p, l)
    ensures l.accepted[(r, pk, n)] <= if (r, pk, n) in l.doubled then 2 else 1
  {
    assert l.accepted[(r, pk, n)] + Left(keys, pe, p, pk, n) <= 1 + (if (r, pk, n) in l.doubled then 1 else 0);
  }
}
