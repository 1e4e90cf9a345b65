/** Two base sessions and the network between them. The network keeps every message sent and
    may deliver, repeat, drop, reorder or alter it, or submit messages of its own. */
module BaseRuns {
  import opened Bytes
  import opened Terms
  import opened Wire
  import opened SkippedQueue
  import opened RatchetSpec
  import opened History

  /** A sent message, with the epoch it was sent in. */
  datatype Sent = Sent(epoch: nat, ad: bytes, text: bytes, msg: Message)

  /** `keys` and `cnt` record the ratchet keys used so far and the messages sent under each. */
  datatype System = System(
    init: State,
    resp: State,
    keys: seq<key32>,
    cnt: seq<nat>,
    log: seq<Sent>)

  datatype World = World(init: Config, resp: Config)

  ghost predicate Proper(w: World) {
    Paired(w.init, w.resp)
  }

  function Cfg(w: World, r: Role): Config {
    if r.Initiator? then w.init else w.resp
  }

  function Party(s: System, r: Role): State {
    if r.Initiator? then s.init else s.resp
  }

  function SetParty(s: System, r: Role, p: State): System {
    if r.Initiator? then s.(init := p) else s.(resp := p)
  }

  /** The initiator starts with its own fresh key and the responder's published key. */
  function Start(bob: key32, alice: key32): System {
    System(InitInitiator(SK, bob, alice), InitResponder(SK, bob), [bob, alice], [0, 0], [])
  }

  datatype Action =
    | Send(sender: Role, text: bytes, ad: bytes, gen: Option<key32>)
    | Deliver(receiver: Role, msg: Message, ad: bytes)

  /** Fresh keys are fresh, sending counters do not wrap, a delivery comes back, and whoever
      delivers a ciphertext sealed under a key it cannot compute has copied it from the log. */
  ghost predicate Enabled(w: World, s: System, a: Action) {
    match a
    case Send(r, _, _, gen) =>
      && Party(s, r).ns < U32_MAX
      && (Party(s, r).pending ==> gen.Some? && Fresh(s.keys, w.init.lowOrder, gen.value))
    case Deliver(r, m, _) =>
      && Returns(Cfg(w, r), Party(s, r), m.header)
      && Obtainable(s, m.ct)
  }

  ghost predicate Obtainable(s: System, ct: Ciphertext) {
    ct.Sealed? && SecretBased(ct.key) ==> exists i :: 0 <= i < |s.log| && s.log[i].msg.ct == ct
  }

  /** The latest epoch in which `r` sends; it is named by `r`'s current key pair. */
  function OwnEpoch(keys: seq<key32>, r: Role): nat
    requires |keys| >= 2
  {
    if Owner(|keys| - 1) == r then |keys| - 1 else |keys| - 2
  }

  function Step(w: World, s: System, a: Action): System
    requires |s.keys| >= 2 && |s.cnt| == |s.keys|
  {
    match a
    case Send(r, text, ad, gen) =>
      var (res, p) := Encrypt(Cfg(w, r), Party(s, r), text, ad, gen);
      if res.Err? then SetParty(s, r, p)
      else
        var (keys, cnt) := if Party(s, r).pending && gen.Some? then (s.keys + [gen.value], s.cnt + [0]) else (s.keys, s.cnt);
        var j := OwnEpoch(keys, r);
        SetParty(s, r, p).(keys := keys, cnt := cnt[j := cnt[j] + 1], log := s.log + [Sent(j, ad, text, res.value)])
    case Deliver(r, m, ad) =>
      SetParty(s, r, Decrypt(Cfg(w, r), Party(s, r), m, ad).1)
  }

  /** Number of root-key steps `r` has taken, and the peer epoch it reads. */
  function Level(keys: seq<key32>, r: Role, p: State): nat
    requires |keys| >= 2
  {
    if Owner(|keys| - 1) == r || p.pending then |keys| - 1 else |keys| - 2
  }

  function PeerEpoch(keys: seq<key32>, r: Role, p: State): int
    requires |keys| >= 2
  {
    if Owner(|keys| - 1) == r then |keys| - 2 else if p.pending then |keys| - 1 else |keys| - 3
  }

  ghost predicate FiledAt(keys: seq<key32>, j: int, e: Entry) {
    && 1 <= j < |keys|
    && e.id.lab == RatchetLabel(keys[j])
    && e.mk == MK(keys, j, e.id.n)
  }

  /** Every filed key belongs to a peer epoch up to `pe`. */
  ghost predicate StoreInv(keys: seq<key32>, pe: int, q: seq<Entry>) {
    && Distinct(q)
    && forall e :: e in q ==> exists j :: j <= pe && (pe - j) % 2 == 0 && FiledAt(keys, j, e)
  }

  /** The epoch of the `i`-th of `n` retained chains, the last one being epoch `pe`. */
  function EpochAt(pe: int, n: nat, i: int): int {
    pe - 2 * (n - 1 - i)
  }

  ghost predicate ChainAt(keys: seq<key32>, j: int, c: Chain) {
    && 1 <= j < |keys|
    && c.pk == keys[j]
    && c.ck == Adv(C(keys, j), c.nr)
  }

  /** The retained chains are those of the latest peer epochs, at most five of them. */
  ghost predicate ChainsInv(keys: seq<key32>, pe: int, chains: seq<Chain>) {
    && |chains| == (if (pe + 1) / 2 < MAX_CHAINS then (pe + 1) / 2 else MAX_CHAINS)
    && forall i :: 0 <= i < |chains| ==> ChainAt(keys, EpochAt(pe, |chains|, i), chains[i])
  }

  ghost predicate PartyInv(keys: seq<key32>, cnt: seq<nat>, r: Role, p: State)
    requires |keys| == |cnt| >= 2
  {
    var me, pe := OwnEpoch(keys, r), PeerEpoch(keys, r, p);
    && (Owner(|keys| - 1) == r ==> !p.pending)
    && p.rk == R(keys, Level(keys, r, p))
    && p.dhs == keys[me]
    && p.dhRSet == (pe >= 0)
    && (pe >= 0 ==> p.dhr == keys[pe])
    && p.cks == (if me == 0 then None else Some(Adv(C(keys, me), p.ns)))
    && p.ns == cnt[me]
    && p.pn == (if me >= 2 then cnt[me - 2] else 0)
    && ChainsInv(keys, pe, p.chains)
    && StoreInv(keys, pe, p.skipped)
  }

  ghost predicate LogAt(w: World, keys: seq<key32>, cnt: seq<nat>, e: Sent)
    requires |keys| == |cnt|
  {
    var h := e.msg.header;
    && 1 <= e.epoch < |keys|
    && h.pk == keys[e.epoch]
    && h.pn == (if e.epoch >= 2 then cnt[e.epoch - 2] else 0)
    && h.n < cnt[e.epoch] && h.n < U32_MAX
    && e.msg.ct == Sealed(MK(keys, e.epoch, h.n), BuildAD(Cfg(w, Owner(e.epoch)), EncodeHeader(h), e.ad, true), e.text)
  }

  ghost predicate Inv(w: World, s: System) {
    && |s.keys| == |s.cnt| >= 2
    && s.cnt[0] == 0
    && KeysOk(s.keys, w.init.lowOrder)
    && PartyInv(s.keys, s.cnt, Initiator, s.init)
    && PartyInv(s.keys, s.cnt, Responder, s.resp)
    && (forall i :: 0 <= i < |s.log| ==> LogAt(w, s.keys, s.cnt, s.log[i]))
    && (forall i, k :: 0 <= i < k < |s.log| && s.log[i].epoch == s.log[k].epoch ==>
          s.log[i].msg.header.n < s.log[k].msg.header.n)
  }

  lemma InvStart(w: World, bob: key32, alice: key32)
    requires Proper(w) && KeysOk([bob, alice], w.init.lowOrder)
    ensures Inv(w, Start(bob, alice))
  {
    var keys := [bob, alice];
    assert Adv(C(keys, 1), 0) == C(keys, 1);
    assert R(keys, 1) == RootKey(SK, Dh(bob, alice));
    DhCommutes(bob, alice);
  }

  // ---- What a successful delivery proves --------------------------------------------------

  /** A filed key is the history's key of a peer epoch. */
  lemma StoredKey(keys: seq<key32>, pe: int, q: seq<Entry>, pk: key32, n: u32) returns (j: nat)
    requires StoreInv(keys, pe, q) && Has(q, Id(RatchetLabel(pk), n))
    ensures 1 <= j <= pe && j < |keys| && (pe - j) % 2 == 0 && pk == keys[j]
    ensures Lookup(q, Id(RatchetLabel(pk), n)) == MK(keys, j, n)
  {
    var e := q[Find(q, Id(RatchetLabel(pk), n))];
    assert e in q;
    j :| j <= pe && (pe - j) % 2 == 0 && FiledAt(keys, j, e);
  }

  /** So is a key read from a retained chain. */
  lemma RetainedKey(keys: seq<key32>, pe: int, chains: seq<Chain>, i: nat, n: u32) returns (j: nat)
    requires ChainsInv(keys, pe, chains) && i < |chains| && chains[i].nr <= n
    ensures 1 <= j <= pe && j < |keys| && (pe - j) % 2 == 0 && chains[i].pk == keys[j] && j == EpochAt(pe, |chains|, i)
    ensures Adv(chains[i].ck, n - chains[i].nr) == Adv(C(keys, j), n)
  {
    j := EpochAt(pe, |chains|, i);
    assert ChainAt(keys, j, chains[i]);
    AdvAdv(C(keys, j), chains[i].nr, n - chains[i].nr);
  }

  lemma PeerParity(keys: seq<key32>, r: Role, p: State, j: nat)
    requires |keys| >= 2 && j <= PeerEpoch(keys, r, p) && (PeerEpoch(keys, r, p) - j) % 2 == 0
    requires Owner(|keys| - 1) == r ==> !p.pending
    ensures Owner(j) == Peer(r)
  {}

  /** A header that starts a new epoch yields a key of the history only if it carries the
      peer's next ratchet key and no sending step is owed. */
  lemma NextEpochOnly(keys: seq<key32>, r: Role, p: State, remote: key32, n: nat, j: nat)
    requires |keys| >= 2 && p.rk == R(keys, Level(keys, r, p)) && p.dhs == keys[OwnEpoch(keys, r)]
    requires Owner(|keys| - 1) == r ==> !p.pending
    requires 1 <= j < |keys|
    requires MessageKey(Adv(ChainKey(p.rk, Dh(p.dhs, remote)), n)) == MK(keys, j, n)
    ensures j == |keys| - 1 && remote == keys[j] && Owner(j) == Peer(r) && !p.pending
  {
    if Level(keys, r, p) == |keys| - 1 {
      DerivedBeyond(keys, p.dhs, remote, n, j, n);
    } else {
      DerivedChain(keys, |keys| - 2, remote, n, j, n);
    }
  }

  /** Whatever key a session derives, the network cannot compute it. */
  lemma KeySecret(cfg: Config, keys: seq<key32>, cnt: seq<nat>, r: Role, p: State, h: Header)
    requires |keys| == |cnt| >= 2 && PartyInv(keys, cnt, r, p)
    requires ReceiveKey(cfg, p, h).Ok?
    ensures SecretBased(ReceiveKey(cfg, p, h).value.0)
  {
    hide StoreInv, ChainsInv, ReceiveOnChain, RatchetRecv;
    var pe := PeerEpoch(keys, r, p);
    if Has(p.skipped, Id(RatchetLabel(h.pk), h.n)) {
      var i := StoredKey(keys, pe, p.skipped, h.pk, h.n);
      MKSecret(keys, i, h.n);
    } else if Known(p, h.pk) {
      OnChainFacts(cfg, p, h);
      var i := RetainedKey(keys, pe, p.chains, FindChain(p.chains, h.pk), h.n);
      MKSecret(keys, i, h.n);
    } else {
      NewEpochOutcome(cfg, p, h);
      RSecret(keys, Level(keys, r, p));
      AdvSecretBased(ChainKey(p.rk, Dh(p.dhs, h.pk)), h.n);
    }
  }

  /** Where it is the history's key for the header's own ratchet key and position, the epoch is
      one in which the peer sends. */
  lemma KeyIsPeers(cfg: Config, keys: seq<key32>, cnt: seq<nat>, r: Role, p: State, h: Header, j: nat)
    requires |keys| == |cnt| >= 2 && PartyInv(keys, cnt, r, p) && KeysOk(keys, cfg.lowOrder)
    requires ReceiveKey(cfg, p, h).Ok?
    requires 1 <= j < |keys| && h.pk == keys[j] && ReceiveKey(cfg, p, h).value.0 == MK(keys, j, h.n)
    ensures Owner(j) == Peer(r)
  {
    hide StoreInv, ChainsInv, ReceiveOnChain, RatchetRecv;
    var pe := PeerEpoch(keys, r, p);
    if Has(p.skipped, Id(RatchetLabel(h.pk), h.n)) {
      var i := StoredKey(keys, pe, p.skipped, h.pk, h.n);
      PeerParity(keys, r, p, i);
    } else if Known(p, h.pk) {
      OnChainFacts(cfg, p, h);
      var i := RetainedKey(keys, pe, p.chains, FindChain(p.chains, h.pk), h.n);
      PeerParity(keys, r, p, i);
    } else {
      NewEpochOutcome(cfg, p, h);
      NextEpochOnly(keys, r, p, h.pk, h.n, j);
    }
  }

  /** Delivery soundness: what a session accepts is what the peer sent, under the same header
      and with the same associated data. */
  lemma DeliverySound(w: World, s: System, r: Role, m: Message, ad: bytes) returns (i: nat)
    requires Proper(w) && Inv(w, s) && Obtainable(s, m.ct)
    requires Decrypt(Cfg(w, r), Party(s, r), m, ad).0.Ok?
    ensures i < |s.log| && s.log[i].msg == m && s.log[i].ad == ad && Owner(s.log[i].epoch) == Peer(r)
    ensures Decrypt(Cfg(w, r), Party(s, r), m, ad).0 == Ok(s.log[i].text)
  {
    KeySecret(Cfg(w, r), s.keys, s.cnt, r, Party(s, r), m.header);
    i :| 0 <= i < |s.log| && s.log[i].msg.ct == m.ct;
    var e := s.log[i];
    assert LogAt(w, s.keys, s.cnt, e);
    BuildADInjective(Cfg(w, r), Cfg(w, Owner(e.epoch)), m.header, e.msg.header, ad, e.ad, false, true);
    KeyIsPeers(Cfg(w, r), s.keys, s.cnt, r, Party(s, r), m.header, e.epoch);
  }

  // ---- Every step keeps the invariant ------------------------------------------------------

  lemma StoreRangeInv(keys: seq<key32>, pe: int, cap: nat, q: seq<Entry>, j: nat, ck: Key, from: u32, until: u32)
    requires StoreInv(keys, pe, q)
    requires 1 <= j <= pe && j < |keys| && (pe - j) % 2 == 0 && ck == Adv(C(keys, j), from)
    ensures StoreInv(keys, pe, StoreRange(cap, q, RatchetLabel(keys[j]), ck, from, until))
  {
    hide FiledAt, C, StoreRange, IsRangeEntry;
    var q1 := StoreRange(cap, q, RatchetLabel(keys[j]), ck, from, until);
    StoreRangeFacts(cap, q, RatchetLabel(keys[j]), ck, from, until);
    forall e | e in q1 && e !in q
      ensures FiledAt(keys, j, e)
    {
      RangeEntryFiled(keys, j, ck, from, until, e);
    }
  }

  lemma RangeEntryFiled(keys: seq<key32>, j: nat, ck: Key, from: u32, until: u32, e: Entry)
    requires 1 <= j < |keys| && ck == Adv(C(keys, j), from) && IsRangeEntry(e, RatchetLabel(keys[j]), ck, from, until)
    ensures FiledAt(keys, j, e)
  {
    AdvAdv(C(keys, j), from, e.id.n - from);
  }

  lemma TakeKeepsParty(keys: seq<key32>, cnt: seq<nat>, r: Role, p: State, id: Id)
    requires |keys| == |cnt| >= 2 && PartyInv(keys, cnt, r, p)
    ensures PartyInv(keys, cnt, r, p.(skipped := Remove(p.skipped, id)))
  {
    RemoveFacts(p.skipped, id);
  }

  /** Advancing one retained chain. */
  lemma AdvanceKeepsChains(keys: seq<key32>, pe: int, chains: seq<Chain>, i: nat, n: u32)
    requires ChainsInv(keys, pe, chains) && i < |chains| && n < U32_MAX && 1 <= EpochAt(pe, |chains|, i) < |keys|
    ensures var j := EpochAt(pe, |chains|, i);
            ChainsInv(keys, pe, chains[i := Chain(keys[j], NextChain(Adv(C(keys, j), n)), n + 1)])
  {
    hide C;
    var j := EpochAt(pe, |chains|, i);
    var chains1 := chains[i := Chain(keys[j], NextChain(Adv(C(keys, j), n)), n + 1)];
    AdvNext(C(keys, j), n);
    forall k | 0 <= k < |chains1|
      ensures ChainAt(keys, EpochAt(pe, |chains1|, k), chains1[k])
    {
      assert ChainAt(keys, EpochAt(pe, |chains|, k), chains[k]);
    }
  }

  lemma OnChainKeepsParty(cfg: Config, keys: seq<key32>, cnt: seq<nat>, r: Role, p: State, h: Header)
    requires |keys| == |cnt| >= 2 && PartyInv(keys, cnt, r, p)
    requires ReceiveOnChain(cfg, p, h).Ok?
    ensures PartyInv(keys, cnt, r, ReceiveOnChain(cfg, p, h).value.1)
  {
    hide ChainsInv, StoreInv, StoreRange, Adv, C, R;
    var pe, i := PeerEpoch(keys, r, p), FindChain(p.chains, h.pk);
    var c := p.chains[i];
    var j := RetainedKey(keys, pe, p.chains, i, h.n);
    ChainCk(keys, pe, p.chains, i, j);
    StoreRangeInv(keys, pe, MaxSkip(cfg), p.skipped, j, c.ck, c.nr, h.n);
    AdvanceKeepsChains(keys, pe, p.chains, i, h.n);
  }

  lemma ChainCk(keys: seq<key32>, pe: int, chains: seq<Chain>, i: nat, j: nat)
    requires ChainsInv(keys, pe, chains) && i < |chains| && j == EpochAt(pe, |chains|, i) && 1 <= j < |keys|
    ensures chains[i].ck == Adv(C(keys, j), chains[i].nr)
  {
    assert ChainAt(keys, j, chains[i]);
  }

  lemma PushKeepsChains(keys: seq<key32>, pe: int, chains: seq<Chain>)
    requires ChainsInv(keys, pe, chains) && -1 <= pe && pe + 2 < |keys|
    ensures ChainsInv(keys, pe + 2, PushChain(chains, Chain(keys[pe + 2], C(keys, pe + 2), 0)))
  {
    var chains1 := PushChain(chains, Chain(keys[pe + 2], C(keys, pe + 2), 0));
    forall k | 0 <= k < |chains1|
      ensures ChainAt(keys, EpochAt(pe + 2, |chains1|, k), chains1[k])
    {
      if k < |chains1| - 1 {
        var i := if |chains| >= MAX_CHAINS then k + 1 else k;
        assert ChainAt(keys, EpochAt(pe, |chains|, i), chains[i]);
      }
    }
  }

  /** The store after following the peer into its next epoch. */
  lemma RatchetRecvKeepsStore(cfg: Config, keys: seq<key32>, pe: int, p: State, h: Header)
    requires StoreInv(keys, pe, p.skipped) && ChainsInv(keys, pe, p.chains)
    requires pe >= 0 ==> pe < |keys| && p.dhr == keys[pe]
    requires RatchetRecv(cfg, p, h).Ok?
    ensures StoreInv(keys, pe + 2, RatchetRecv(cfg, p, h).value.skipped)
  {
    var i := PreviousChain(p);
    if i >= 0 {
      var c := p.chains[i];
      var j := RetainedKey(keys, pe, p.chains, i, c.nr);
      assert Adv(c.ck, 0) == c.ck;
      StoreRangeInv(keys, pe, MaxSkip(cfg), p.skipped, j, c.ck, c.nr, h.pn);
    }
  }

  /** Following the peer into its next epoch. */
  lemma RatchetRecvKeepsParty(cfg: Config, keys: seq<key32>, cnt: seq<nat>, r: Role, p: State, h: Header)
    requires |keys| == |cnt| >= 2 && PartyInv(keys, cnt, r, p)
    requires RatchetRecv(cfg, p, h).Ok?
    requires Owner(|keys| - 1) == Peer(r) && !p.pending && h.pk == keys[|keys| - 1]
    ensures PartyInv(keys, cnt, r, RatchetRecv(cfg, p, h).value)
  {
    hide StoreInv, ChainsInv;
    var pe := PeerEpoch(keys, r, p);
    PushKeepsChains(keys, pe, p.chains);
    RatchetRecvKeepsStore(cfg, keys, pe, p, h);
  }

  lemma DeliverKeepsParty(cfg: Config, keys: seq<key32>, cnt: seq<nat>, r: Role, p: State, h: Header, j: nat)
    requires |keys| == |cnt| >= 2 && PartyInv(keys, cnt, r, p)
    requires ReceiveKey(cfg, p, h).Ok?
    requires 1 <= j < |keys| && ReceiveKey(cfg, p, h).value.0 == MK(keys, j, h.n)
    ensures PartyInv(keys, cnt, r, ReceiveKey(cfg, p, h).value.1)
  {
    hide StoreInv, ChainsInv, ReceiveOnChain, RatchetRecv;
    if Has(p.skipped, Id(RatchetLabel(h.pk), h.n)) {
      TakeKeepsParty(keys, cnt, r, p, Id(RatchetLabel(h.pk), h.n));
    } else if Known(p, h.pk) {
      OnChainFacts(cfg, p, h);
      OnChainKeepsParty(cfg, keys, cnt, r, p, h);
    } else {
      NewEpochOutcome(cfg, p, h);
      NextEpochOnly(keys, r, p, h.pk, h.n, j);
      RatchetRecvKeepsParty(cfg, keys, cnt, r, p, h);
      OnChainKeepsParty(cfg, keys, cnt, r, RatchetRecv(cfg, p, h).value, h);
    }
  }

  lemma StoreInvExtends(keys: seq<key32>, k: key32, pe: int, q: seq<Entry>)
    requires StoreInv(keys, pe, q)
    ensures StoreInv(keys + [k], pe, q)
  {
    CExtends(keys, k);
    forall e | e in q
      ensures exists j :: j <= pe && (pe - j) % 2 == 0 && FiledAt(keys + [k], j, e)
    {
      var j :| j <= pe && (pe - j) % 2 == 0 && FiledAt(keys, j, e);
      assert FiledAt(keys + [k], j, e);
    }
  }

  lemma ChainsInvExtends(keys: seq<key32>, k: key32, pe: int, chains: seq<Chain>)
    requires ChainsInv(keys, pe, chains)
    ensures ChainsInv(keys + [k], pe, chains)
  {
    CExtends(keys, k);
    forall i | 0 <= i < |chains|
      ensures ChainAt(keys + [k], EpochAt(pe, |chains|, i), chains[i])
    {
      assert ChainAt(keys, EpochAt(pe, |chains|, i), chains[i]);
    }
  }

  /** The party that did not ratchet is unaffected by the peer's new key. */
  lemma PeerRatchetKeepsParty(keys: seq<key32>, cnt: seq<nat>, r: Role, p: State, k: key32)
    requires |keys| == |cnt| >= 2 && PartyInv(keys, cnt, r, p) && Owner(|keys| - 1) == r
    ensures PartyInv(keys + [k], cnt + [0], r, p)
  {
    hide StoreInv, ChainsInv;
    CExtends(keys, k);
    RExtends(keys, k, |keys| - 1);
    StoreInvExtends(keys, k, PeerEpoch(keys, r, p), p.skipped);
    ChainsInvExtends(keys, k, PeerEpoch(keys, r, p), p.chains);
  }

  /** Taking the owed sending step adds one key to the history. */
  lemma RatchetSendKeepsParty(cfg: Config, keys: seq<key32>, cnt: seq<nat>, r: Role, p: State, k: key32)
    requires |keys| == |cnt| >= 2 && PartyInv(keys, cnt, r, p) && p.pending
    requires KeysOk(keys, cfg.lowOrder)
    ensures RatchetSend(cfg, p, Some(k)).0.None?
    ensures PartyInv(keys + [k], cnt + [0], r, RatchetSend(cfg, p, Some(k)).1)
  {
    hide StoreInv, ChainsInv;
    RExtends(keys, k, |keys| - 1);
    StoreInvExtends(keys, k, PeerEpoch(keys, r, p), p.skipped);
    ChainsInvExtends(keys, k, PeerEpoch(keys, r, p), p.chains);
    DhCommutes(p.dhr, k);
  }

  /** The system after `r` has taken the sending step it owes, before it sends. */
  function Ratcheted(w: World, s: System, r: Role, k: key32): System {
    SetParty(s, r, RatchetSend(Cfg(w, r), Party(s, r), Some(k)).1).(keys := s.keys + [k], cnt := s.cnt + [0])
  }

  lemma LogExtends(w: World, keys: seq<key32>, cnt: seq<nat>, k: key32, e: Sent)
    requires |keys| == |cnt| && LogAt(w, keys, cnt, e)
    ensures LogAt(w, keys + [k], cnt + [0], e)
  {
    CExtends(keys, k);
  }

  lemma RatchetedInv(w: World, s: System, r: Role, k: key32)
    requires Proper(w) && Inv(w, s) && Party(s, r).pending && Fresh(s.keys, w.init.lowOrder, k)
    ensures Inv(w, Ratcheted(w, s, r, k))
  {
    hide PartyInv, LogAt;
    PartyOwner(w, s, r);
    RatchetSendKeepsParty(Cfg(w, r), s.keys, s.cnt, r, Party(s, r), k);
    PeerRatchetKeepsParty(s.keys, s.cnt, Peer(r), Party(s, Peer(r)), k);
    forall i | 0 <= i < |s.log|
      ensures LogAt(w, s.keys + [k], s.cnt + [0], s.log[i])
    {
      LogExtends(w, s.keys, s.cnt, k, s.log[i]);
    }
  }

  lemma PartyOwner(w: World, s: System, r: Role)
    requires Inv(w, s) && Party(s, r).pending
    ensures Owner(|s.keys| - 1) == Peer(r) && !Party(s, Peer(r)).pending
  {
    hide StoreInv, ChainsInv;
  }

  lemma SendKeepsParty(cfg: Config, keys: seq<key32>, cnt: seq<nat>, r: Role, p: State, text: bytes, ad: bytes, gen: Option<key32>)
    requires |keys| == |cnt| >= 2 && PartyInv(keys, cnt, r, p) && !p.pending && p.ns < U32_MAX
    ensures OwnEpoch(keys, r) == 0 ==> Encrypt(cfg, p, text, ad, gen) == (Err(SessionNotInitialized), p)
    ensures OwnEpoch(keys, r) != 0 ==>
              var j := OwnEpoch(keys, r);
              PartyInv(keys, cnt[j := cnt[j] + 1], r, Encrypt(cfg, p, text, ad, gen).1)
  {
    hide StoreInv, ChainsInv, BuildAD;
  }

  lemma SendKeepsPeer(keys: seq<key32>, cnt: seq<nat>, r: Role, p: State, c: nat)
    requires |keys| == |cnt| >= 2 && PartyInv(keys, cnt, Peer(r), p)
    ensures PartyInv(keys, cnt[OwnEpoch(keys, r) := c], Peer(r), p)
  {
    hide StoreInv, ChainsInv;
  }

  lemma SendKeepsLog(w: World, keys: seq<key32>, cnt: seq<nat>, r: Role, e: Sent)
    requires |keys| == |cnt| >= 2 && LogAt(w, keys, cnt, e)
    ensures var j := OwnEpoch(keys, r);
            LogAt(w, keys, cnt[j := cnt[j] + 1], e) && (e.epoch == j ==> e.msg.header.n < cnt[j])
  {
    hide BuildAD;
  }

  /** Sending on the current chain: a send step that owes nothing. */
  lemma SendOnChainInv(w: World, s: System, r: Role, text: bytes, ad: bytes, gen: Option<key32>)
    requires Proper(w) && Inv(w, s) && !Party(s, r).pending && Party(s, r).ns < U32_MAX
    ensures Inv(w, Step(w, s, Send(r, text, ad, gen)))
  {
    hide PartyInv, LogAt, KeysOk, Encrypt;
    var j, s1 := OwnEpoch(s.keys, r), Step(w, s, Send(r, text, ad, gen));
    SendKeepsParty(Cfg(w, r), s.keys, s.cnt, r, Party(s, r), text, ad, gen);
    SendKeepsPeer(s.keys, s.cnt, r, Party(s, Peer(r)), s.cnt[j] + 1);
    if j != 0 {
      SentEntry(w, s, r, text, ad, gen);
      forall i | 0 <= i < |s.log|
        ensures LogAt(w, s1.keys, s1.cnt, s.log[i])
        ensures s.log[i].epoch == j ==> s.log[i].msg.header.n < s.cnt[j]
      {
        SendKeepsLog(w, s.keys, s.cnt, r, s.log[i]);
      }
    }
  }

  /** What `Encrypt` outputs on the current chain is the next message of its epoch. */
  lemma SentEntry(w: World, s: System, r: Role, text: bytes, ad: bytes, gen: Option<key32>)
    requires Inv(w, s) && !Party(s, r).pending && Party(s, r).ns < U32_MAX && OwnEpoch(s.keys, r) != 0
    ensures var s1, j := Step(w, s, Send(r, text, ad, gen)), OwnEpoch(s.keys, r);
            |s1.log| == |s.log| + 1 && s1.log[..|s.log|] == s.log && s1.cnt == s.cnt[j := s.cnt[j] + 1]
            && s1.log[|s.log|].epoch == j && s1.log[|s.log|].ad == ad && s1.log[|s.log|].msg.header.n == s.cnt[j]
            && LogAt(w, s1.keys, s1.cnt, s1.log[|s.log|]) && s1.keys == s.keys
            && Encrypt(Cfg(w, r), Party(s, r), text, ad, gen).0.Ok?
  {
    hide StoreInv, ChainsInv, KeysOk, BuildAD, R, Dh, LogAt;
    var j, s1 := OwnEpoch(s.keys, r), Step(w, s, Send(r, text, ad, gen));
    assert s1.log == s.log + [Sent(j, ad, text, Encrypt(Cfg(w, r), Party(s, r), text, ad, gen).0.value)];
    SentIsNext(w, s.keys, s.cnt, r, Party(s, r), text, ad, gen);
  }

  lemma SentIsNext(w: World, keys: seq<key32>, cnt: seq<nat>, r: Role, p: State, text: bytes, ad: bytes, gen: Option<key32>)
    requires |keys| == |cnt| >= 2 && PartyInv(keys, cnt, r, p) && !p.pending && p.ns < U32_MAX && OwnEpoch(keys, r) != 0
    ensures var j := OwnEpoch(keys, r);
            Encrypt(Cfg(w, r), p, text, ad, gen).0.Ok? && Encrypt(Cfg(w, r), p, text, ad, gen).0.value.header.n == cnt[j]
            && LogAt(w, keys, cnt[j := cnt[j] + 1], Sent(j, ad, text, Encrypt(Cfg(w, r), p, text, ad, gen).0.value))
  {
    hide StoreInv, ChainsInv, BuildAD, R, Dh;
  }

  lemma DeliverInv(w: World, s: System, r: Role, m: Message, ad: bytes)
    requires Proper(w) && Inv(w, s) && Obtainable(s, m.ct)
    ensures Inv(w, Step(w, s, Deliver(r, m, ad)))
  {
    hide PartyInv;
    if Decrypt(Cfg(w, r), Party(s, r), m, ad).0.Ok? {
      var i := DeliverySound(w, s, r, m, ad);
      assert LogAt(w, s.keys, s.cnt, s.log[i]);
      DeliverKeepsParty(Cfg(w, r), s.keys, s.cnt, r, Party(s, r), m.header, s.log[i].epoch);
    }
  }

  lemma StepInv(w: World, s: System, a: Action)
    requires Proper(w) && Inv(w, s) && Enabled(w, s, a)
    ensures Inv(w, Step(w, s, a))
  {
    match a
    case Send(r, text, ad, gen) =>
      if Party(s, r).pending {
        RatchetedInv(w, s, r, gen.value);
        RatchetSendKeepsParty(Cfg(w, r), s.keys, s.cnt, r, Party(s, r), gen.value);
        SendOnChainInv(w, Ratcheted(w, s, r, gen.value), r, text, ad, gen);
        StepRatcheted(w, s, r, text, ad, gen);
      } else {
        SendOnChainInv(w, s, r, text, ad, gen);
      }
    case Deliver(r, m, ad) => DeliverInv(w, s, r, m, ad);
  }

  /** A send that owes a DH step is that step followed by a send that owes none. */
  lemma StepRatcheted(w: World, s: System, r: Role, text: bytes, ad: bytes, gen: Option<key32>)
    requires |s.keys| == |s.cnt| >= 2 && Party(s, r).pending && gen.Some?
    requires RatchetSend(Cfg(w, r), Party(s, r), gen).0.None?
    ensures Step(w, s, Send(r, text, ad, gen)) == Step(w, Ratcheted(w, s, r, gen.value), Send(r, text, ad, gen))
    ensures !Party(Ratcheted(w, s, r, gen.value), r).pending && Party(Ratcheted(w, s, r, gen.value), r).ns == 0
  {
    hide BuildAD;
    var s1 := Ratcheted(w, s, r, gen.value);
    assert Encrypt(Cfg(w, r), Party(s, r), text, ad, gen) == Encrypt(Cfg(w, r), Party(s1, r), text, ad, gen);
  }

  /** What a send outputs, whether or not it owes a DH step: the next message of the sender's
      epoch, which is the peer's next epoch if a step was owed. Only a responder that has heard
      nothing yet has no epoch to send in. */
  lemma EverySend(w: World, s: System, r: Role, text: bytes, ad: bytes, gen: Option<key32>)
    requires Proper(w) && Inv(w, s) && Enabled(w, s, Send(r, text, ad, gen))
    ensures |s.keys| == |s.cnt| >= 2
    ensures var s1, res := Step(w, s, Send(r, text, ad, gen)), Encrypt(Cfg(w, r), Party(s, r), text, ad, gen).0;
            var (keys, cnt) := if Party(s, r).pending then (s.keys + [gen.value], s.cnt + [0]) else (s.keys, s.cnt);
            var j := OwnEpoch(keys, r);
            && (res.Ok? <==> j != 0)
            && (j == 0 ==> s1 == s && res == Err(SessionNotInitialized))
            && (j != 0 ==>
                 && s1.keys == keys && s1.cnt == cnt[j := cnt[j] + 1] && Owner(j) == r
                 && |s1.log| == |s.log| + 1 && s1.log[..|s.log|] == s.log
                 && s1.log[|s.log|].msg == res.value && res.value.header.n == cnt[j]
                 && s1.log[|s.log|].epoch == j && s1.log[|s.log|].ad == ad && s1.log[|s.log|].text == text
                 && LogAt(w, s1.keys, s1.cnt, s1.log[|s.log|]))
  {
    hide PartyInv, LogAt, KeysOk, Encrypt, RatchetSend;
    if Party(s, r).pending {
      PartyOwner(w, s, r);
      RatchetedInv(w, s, r, gen.value);
      RatchetSendKeepsParty(Cfg(w, r), s.keys, s.cnt, r, Party(s, r), gen.value);
      StepRatcheted(w, s, r, text, ad, gen);
      SentEntry(w, Ratcheted(w, s, r, gen.value), r, text, ad, gen);
      SameSent(Cfg(w, r), Party(s, r), text, ad, gen);
    } else if OwnEpoch(s.keys, r) != 0 {
      SentEntry(w, s, r, text, ad, gen);
    } else {
      SendKeepsParty(Cfg(w, r), s.keys, s.cnt, r, Party(s, r), text, ad, gen);
    }
  }

  lemma SameSent(cfg: Config, p: State, text: bytes, ad: bytes, gen: Option<key32>)
    requires p.pending && RatchetSend(cfg, p, gen).0.None?
    ensures Encrypt(cfg, p, text, ad, gen) == Encrypt(cfg, RatchetSend(cfg, p, gen).1, text, ad, gen)
  {}
}
