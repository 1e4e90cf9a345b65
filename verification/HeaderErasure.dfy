/** Key erasure in the header-encryption session. It reads only the newest of the chains it retains,
    but the older ones are there all the same. */
module HeaderErasure {
  import opened Bytes
  import opened Terms
  import opened Wire
  import opened SkippedQueue
  import opened History
  import opened HeaderSpec
  import opened HeaderRuns
  import opened ChainErasure
  import Ec = RatchetSpec
  import Base = BaseRuns
  import Window = BaseTheorems
  import BaseErasure

  /** The header keys a session holds. */
  function HeaderKeys(p: HeaderSpec.State): set<Key> {
    {p.hks.key, p.hkr.key, p.nhks.key, p.nhkr.key}
  }

  /** What follows from the session alone, header keys included. */
  ghost predicate Recoverable(p: HeaderSpec.State, k: Key) {
    Derivable(p.dr, HeaderKeys(p), {p.dr.dhs}, k)
  }

  // ---- The session alone -------------------------------------------------------------------

  lemma PartyAt(keys: seq<key32>, cnt: seq<nat>, r: Role, p: HeaderSpec.State, lowOrder: set<key32>)
    requires |keys| == |cnt| >= 2 && PartyInv(keys, cnt, r, p) && KeysOk(keys, lowOrder)
    ensures At(keys, Base.Level(keys, r, p.dr), Base.OwnEpoch(keys, r), Base.PeerEpoch(keys, r, p.dr), p.dr) && Distinct32(keys)
    ensures p.dr.dhs == keys[Base.OwnEpoch(keys, r)]
  {
    hide Base.ChainsInv, R, C, Adv, HeaderKeysInv, HK;
    forall e | e in p.dr.skipped
      ensures exists j :: 1 <= j < |keys| && e.mk == MK(keys, j, e.id.n)
    {
      var j :| FiledAt(keys, j, e);
    }
  }

  lemma HeaderKeysHarmless(keys: seq<key32>, cnt: seq<nat>, r: Role, p: HeaderSpec.State)
    requires |keys| == |cnt| >= 2 && PartyInv(keys, cnt, r, p)
    ensures Harmless(HeaderKeys(p))
  {
    hide RatchetInv, StoreInv, HK;
    forall j: nat | 1 <= j < |keys| + 2
      ensures HK(keys, j).NextHeaderKey? || (HK(keys, j).Shared? && HK(keys, j) != SK)
    {
      HeaderKeyShape(keys, j);
    }
  }

  lemma HeaderKeyShape(keys: seq<key32>, j: nat)
    requires 1 <= j < |keys| + 2
    ensures HK(keys, j).NextHeaderKey? || (HK(keys, j).Shared? && HK(keys, j) != SK)
  {}

  lemma FiledExactly(keys: seq<key32>, pe: int, nr: nat, q: seq<Entry>, j: nat, n: u32)
    requires StoreInv(keys, pe, nr, q) && 1 <= j < |keys|
    ensures Stored(q, MK(keys, j, n)) <==> Has(q, Id(HeaderLabel(HK(keys, j)), n))
    ensures Stored(q, MK(keys, j, n)) ==> j <= pe && (pe - j) % 2 == 0 && (j == pe ==> n < nr)
  {
    hide MK, HK;
    if Stored(q, MK(keys, j, n)) {
      var e :| e in q && e.mk == MK(keys, j, n);
      var i :| i <= pe && (pe - i) % 2 == 0 && FiledAt(keys, i, e) && (i == pe ==> e.id.n < nr);
      MKInjective(keys, i, e.id.n, j, n);
      HasMember(q, e);
    }
    if Has(q, Id(HeaderLabel(HK(keys, j)), n)) {
      var e := q[Find(q, Id(HeaderLabel(HK(keys, j)), n))];
      assert e in q;
      var i :| i <= pe && (pe - i) % 2 == 0 && FiledAt(keys, i, e) && (i == pe ==> e.id.n < nr);
      HKInjective(keys, i, j);
    }
  }

  lemma CoversBelow(keys: seq<key32>, pe: int, lowOrder: set<key32>, p: HeaderSpec.State, j: nat, n: u32)
    requires Base.ChainsInv(keys, pe, p.dr.chains) && KeysOk(keys, lowOrder) && 1 <= j < |keys| && -1 <= pe < |keys|
    requires pe >= 0 ==> p.dr.dhr == keys[pe]
    ensures Covers(keys, p.dr, j, n) ==> j <= pe && (pe - j) % 2 == 0
    ensures j == pe ==> (Covers(keys, p.dr, j, n) <==> n >= NextN(p))
  {
    hide Base.ChainsInv, C, R, Adv;
    Window.CurrentChain(keys, lowOrder, pe, p.dr);
    Window.ChainsDistinct(keys, lowOrder, pe, p.dr.chains);
    if Covers(keys, p.dr, j, n) {
      var i :| 0 <= i < |p.dr.chains| && p.dr.chains[i].pk == keys[j] && p.dr.chains[i].nr <= n;
      var l := Base.RetainedKey(keys, pe, p.dr.chains, i, n);
    }
    if j == pe && n >= NextN(p) {
      assert p.dr.chains[|p.dr.chains| - 1].pk == keys[j] && p.dr.chains[|p.dr.chains| - 1].nr <= n;
    }
  }

  /** Forward secrecy, exactly: the key of a message of the peer can be derived from the session if
      and only if the message can still be accepted, or a chain that was left behind, and is never
      read again, still covers its position. */
  lemma ReceivableExactly(w: Base.World, s: System, r: Role, j: nat, n: u32)
    requires Inv(w, s) && 1 <= j < |s.keys| && Owner(j) == Peer(r) && |s.keys| >= 2
    ensures Recoverable(Party(s, r), MK(s.keys, j, n)) <==>
              || Avail(s.keys, Base.PeerEpoch(s.keys, r, Party(s, r).dr), Party(s, r), j, n)
              || Covers(s.keys, Party(s, r).dr, j, n)
  {
    hide PartyInv, KeysOk, LogAt, Derivable, Avail, Covers;
    PartyReceivable(s.keys, s.cnt, r, Party(s, r), w.init.lowOrder, j, n);
  }

  lemma PartyReceivable(keys: seq<key32>, cnt: seq<nat>, r: Role, p: HeaderSpec.State, lowOrder: set<key32>, j: nat, n: u32)
    requires |keys| == |cnt| >= 2 && PartyInv(keys, cnt, r, p) && KeysOk(keys, lowOrder)
    requires 1 <= j < |keys| && Owner(j) == Peer(r)
    ensures Recoverable(p, MK(keys, j, n)) <==> Avail(keys, Base.PeerEpoch(keys, r, p.dr), p, j, n) || Covers(keys, p.dr, j, n)
  {
    hide Derivable, MK, At, Stored, Covers, Avail, Harmless, PartyInv, Steps;
    var l, me := Base.Level(keys, r, p.dr), Base.OwnEpoch(keys, r);
    PartyAt(keys, cnt, r, p, lowOrder);
    HeaderKeysHarmless(keys, cnt, r, p);
    KeyDerivable(keys, l, me, Base.PeerEpoch(keys, r, p.dr), p.dr, HeaderKeys(p), {p.dr.dhs}, j, n);
    AvailExactly(keys, cnt, r, p, lowOrder, j, n);
    OwnSteps(keys, r, p.dr, j);
  }

  lemma OwnSteps(keys: seq<key32>, r: Role, p: Ec.State, j: nat)
    requires |keys| >= 2 && p.dhs == keys[Base.OwnEpoch(keys, r)] && 1 <= j < |keys|
    ensures j > Base.Level(keys, r, p) ==> Steps(keys, {p.dhs}, Base.Level(keys, r, p), j) && Owner(j) == Peer(r)
  {}

  lemma AvailExactly(keys: seq<key32>, cnt: seq<nat>, r: Role, p: HeaderSpec.State, lowOrder: set<key32>, j: nat, n: u32)
    requires |keys| == |cnt| >= 2 && PartyInv(keys, cnt, r, p) && KeysOk(keys, lowOrder)
    requires 1 <= j < |keys| && Owner(j) == Peer(r)
    ensures Avail(keys, Base.PeerEpoch(keys, r, p.dr), p, j, n) || Covers(keys, p.dr, j, n) <==>
              Stored(p.dr.skipped, MK(keys, j, n)) || Covers(keys, p.dr, j, n) || j > Base.Level(keys, r, p.dr)
  {
    hide StoreInv, HeaderKeysInv, Base.ChainsInv, MK, HK, Stored, Covers, Has, R, C, Adv;
    var pe := Base.PeerEpoch(keys, r, p.dr);
    FiledExactly(keys, pe, NextN(p), p.dr.skipped, j, n);
    CoversBelow(keys, pe, lowOrder, p, j, n);
  }

  /** And the key of a message of its own if and only if the sending chain is there and the message
      has not been sent yet: while a step is owed there is none. */
  lemma SendableExactly(w: Base.World, s: System, r: Role, j: nat, n: u32)
    requires Inv(w, s) && 1 <= j < |s.keys| && Owner(j) == r && |s.keys| >= 2
    ensures Recoverable(Party(s, r), MK(s.keys, j, n)) <==>
              !Party(s, r).dr.pending && j == Base.OwnEpoch(s.keys, r) && Party(s, r).dr.ns <= n
  {
    hide PartyInv, KeysOk, LogAt, Derivable;
    PartySendable(s.keys, s.cnt, r, Party(s, r), w.init.lowOrder, j, n);
  }

  lemma PartySendable(keys: seq<key32>, cnt: seq<nat>, r: Role, p: HeaderSpec.State, lowOrder: set<key32>, j: nat, n: u32)
    requires |keys| == |cnt| >= 2 && PartyInv(keys, cnt, r, p) && KeysOk(keys, lowOrder)
    requires 1 <= j < |keys| && Owner(j) == r
    ensures Recoverable(p, MK(keys, j, n)) <==> !p.dr.pending && j == Base.OwnEpoch(keys, r) && p.dr.ns <= n
  {
    hide StoreInv, HeaderKeysInv, Base.ChainsInv, Derivable, R, C, Adv, MK, At, Has, Stored, Covers, Harmless, Steps;
    var l, me, pe := Base.Level(keys, r, p.dr), Base.OwnEpoch(keys, r), Base.PeerEpoch(keys, r, p.dr);
    PartyAt(keys, cnt, r, p, lowOrder);
    HeaderKeysHarmless(keys, cnt, r, p);
    KeyDerivable(keys, l, me, pe, p.dr, HeaderKeys(p), {p.dr.dhs}, j, n);
    FiledExactly(keys, pe, NextN(p), p.dr.skipped, j, n);
    CoversBelow(keys, pe, lowOrder, p, j, n);
    OwnSteps(keys, r, p.dr, j);
  }

  // ---- The key just used -------------------------------------------------------------------

  /** A header whose key is not filed moves the session to, or keeps it in, the header's epoch. */
  lemma EpochRead(cfg: Config, keys: seq<key32>, cnt: seq<nat>, r: Role, p: HeaderSpec.State, header: SealedHeader, j: nat, h: Header)
    requires |keys| == |cnt| >= 2 && PartyInv(keys, cnt, r, p) && KeysOk(keys, cfg.lowOrder)
    requires HonestHeader(keys, header, j, h) && h.n < U32_MAX && !HeaderSpec.Filed(p.dr.skipped, header)
    requires ReceiveKey(cfg, p, header).Ok?
    ensures Base.PeerEpoch(keys, r, ReceiveKey(cfg, p, header).value.1.dr) == j
  {
    hide StoreInv, HK, MK, HeaderSpec.Filed, ReceiveKey, ReceiveOnChain, RatchetRecv, Base.ChainsInv, KeysOk, C, R, Opens, Distinct, Adv, Has, StoreRange, EncodeHeader, DecodeHeader;
    var pe := Base.PeerEpoch(keys, r, p.dr);
    HonestOpens(keys, header, j, h);
    OpenedBy(keys, Base.OwnEpoch(keys, r), pe, p, header, j, h);
    if j == pe {
      CurrentOutcome(cfg, p, header, h);
      OnChainOutcome(cfg, keys, j, p, h.n);
    } else if j == pe + 2 {
      NextOutcome(cfg, p, header, h);
      RatchetRecvKeepsParty(cfg, keys, cnt, r, p, h);
      OnChainOutcome(cfg, keys, j, RatchetRecv(cfg, p, h, true).value, h.n);
    } else {
      NoOutcome(cfg, p, header);
    }
  }

  lemma FiledKeepsChains(cfg: Config, p: HeaderSpec.State, header: SealedHeader)
    requires HeaderSpec.Filed(p.dr.skipped, header)
    ensures ReceiveKey(cfg, p, header).Ok? && ReceiveKey(cfg, p, header).value.1.dr.chains == p.dr.chains
  {}

  /** After a successful `DecryptHE` the accepted message's key is gone from the session, unless it
      was filed while a chain that is still there covers it. The message itself is not accepted
      again in either case. */
  lemma UsedKeyGone(w: Base.World, s: System, r: Role, m: HeMessage, ad: bytes) returns (k: nat)
    requires Base.Proper(w) && Inv(w, s) && Obtainable(s, m) && |s.keys| >= 2
    requires Decrypt(Base.Cfg(w, r), Party(s, r), m, ad).0.Ok?
    ensures k < |s.log| && s.log[k].msg == m && 1 <= s.log[k].epoch < |s.keys|
    ensures var p1, e := Decrypt(Base.Cfg(w, r), Party(s, r), m, ad).1, s.log[k];
            && !Avail(s.keys, Base.PeerEpoch(s.keys, r, p1.dr), p1, e.epoch, e.header.n)
            && (Recoverable(p1, MK(s.keys, e.epoch, e.header.n)) <==>
                  HeaderSpec.Filed(Party(s, r).dr.skipped, m.header) && Covers(s.keys, Party(s, r).dr, e.epoch, e.header.n))
  {
    hide PartyInv, KeysOk, LogAt, Outcome, Derivable, ReceiveKey, Avail, Covers, HeaderSpec.Filed, MK, HonestHeader;
    var cfg, p := Base.Cfg(w, r), Party(s, r);
    k := DeliverySound(w, s, r, m, ad);
    var e := s.log[k];
    LogHonest(w, s, k);
    OutcomePeer(cfg, s.keys, s.cnt, r, p, m.header, e.epoch, e.header);
    var p1 := ReceiveKey(cfg, p, m.header).value.1;
    PartyReceivable(s.keys, s.cnt, r, p1, w.init.lowOrder, e.epoch, e.header.n);
    if HeaderSpec.Filed(p.dr.skipped, m.header) {
      FiledKeepsChains(cfg, p, m.header);
      SameCovers(s.keys, p.dr, p1.dr, e.epoch, e.header.n);
    } else {
      EpochRead(cfg, s.keys, s.cnt, r, p, m.header, e.epoch, e.header);
      PastCovers(s.keys, s.cnt, r, p1, w.init.lowOrder, e.epoch, e.header.n);
    }
  }

  lemma SameCovers(keys: seq<key32>, p: Ec.State, q: Ec.State, j: nat, n: u32)
    requires j < |keys| && p.chains == q.chains
    ensures Covers(keys, p, j, n) == Covers(keys, q, j, n)
  {}

  lemma PastCovers(keys: seq<key32>, cnt: seq<nat>, r: Role, p: HeaderSpec.State, lowOrder: set<key32>, j: nat, n: u32)
    requires |keys| == |cnt| >= 2 && PartyInv(keys, cnt, r, p) && KeysOk(keys, lowOrder) && 1 <= j < |keys|
    requires j == Base.PeerEpoch(keys, r, p.dr) && !Avail(keys, j, p, j, n)
    ensures !Covers(keys, p.dr, j, n)
  {
    hide StoreInv, HeaderKeysInv, Base.ChainsInv, Covers, HK, R, C, Adv;
    CoversBelow(keys, j, lowOrder, p, j, n);
  }

  // ---- With the snapshot -------------------------------------------------------------------

  lemma ReadYields(cfg: Config, p: HeaderSpec.State, more: set<Key>, own: set<key32>, n: u32)
    requires Distinct(p.dr.skipped) && ReceiveOnChain(cfg, p, n).Ok?
    ensures Yields(p.dr, ReceiveOnChain(cfg, p, n).value.1.dr, more, own)
  {
    hide Derivable, StoreRange, Adv, Stored;
    var p1, i := ReceiveOnChain(cfg, p, n).value.1, Ec.FindChain(p.dr.chains, p.dr.dhr);
    var c := p.dr.chains[i];
    HeldFollows(p.dr, more, own, c.ck);
    forall k | Held(p1.dr, more, k)
      ensures Derivable(p.dr, more, own, k)
    {
      if Stored(p1.dr.skipped, k) {
        StoreFollows(p.dr, more, own, MaxSkip(cfg), HeaderLabel(p.hkr.key), c.ck, c.nr, n, k);
      } else if k == NextChain(Adv(c.ck, n - c.nr)) {
        MessageFollows(p.dr, more, own, c.ck, n - c.nr + 1);
        AdvNext(c.ck, n - c.nr);
      } else {
        HeldFollows(p.dr, more, own, k);
      }
    }
  }

  lemma LeaveYields(cfg: Config, p: HeaderSpec.State, more: set<Key>, own: set<key32>, h: Header, promote: bool)
    requires Distinct(p.dr.skipped) && RatchetRecv(cfg, p, h, promote).Ok? && p.dr.dhs in own
    ensures Yields(p.dr, RatchetRecv(cfg, p, h, promote).value.dr, more, own)
    ensures Distinct(RatchetRecv(cfg, p, h, promote).value.dr.skipped)
  {
    hide Derivable, StoreRange, Adv, Stored, Distinct, Held;
    var p1, i := RatchetRecv(cfg, p, h, promote).value, Ec.PreviousChain(p.dr);
    var dh := Dh(p.dr.dhs, h.pk);
    assert p.dr.dhs in dh * own;
    StepFollows(p.dr, more, own, dh);
    if i >= 0 {
      StoreRangeFacts(MaxSkip(cfg), p.dr.skipped, HeaderLabel(p.hkr.key), p.dr.chains[i].ck, p.dr.chains[i].nr, h.pn);
    }
    forall k | Held(p1.dr, more, k)
      ensures Derivable(p.dr, more, own, k)
    {
      if Stored(p1.dr.skipped, k) && i >= 0 {
        PreviousHeld(p.dr, more, i);
        HeldFollows(p.dr, more, own, p.dr.chains[i].ck);
        StoreFollows(p.dr, more, own, MaxSkip(cfg), HeaderLabel(p.hkr.key), p.dr.chains[i].ck, p.dr.chains[i].nr, h.pn, k);
      } else if k != p1.dr.rk && k != ChainKey(p.dr.rk, dh) {
        LeftHeld(p.dr, p1.dr, more, k, Ec.Chain(h.pk, ChainKey(p.dr.rk, dh), 0));
        HeldFollows(p.dr, more, own, k);
      }
    }
  }

  lemma PreviousHeld(p: Ec.State, more: set<Key>, i: nat)
    requires i < |p.chains|
    ensures Held(p, more, p.chains[i].ck)
  {}

  lemma LeftHeld(p: Ec.State, p1: Ec.State, more: set<Key>, k: Key, c: Ec.Chain)
    requires p1.chains == Ec.PushChain(p.chains, c) && p1.cks.None? && Held(p1, more, k) && k != p1.rk && k != c.ck
    requires Stored(p1.skipped, k) ==> p1.skipped == p.skipped
    ensures Held(p, more, k)
  {
    if x :| 0 <= x < |p1.chains| && p1.chains[x].ck == k {
      assert p1.chains[x] in p.chains;
    }
  }

  lemma KeyYields(cfg: Config, p: HeaderSpec.State, more: set<Key>, own: set<key32>, header: SealedHeader)
    requires Distinct(p.dr.skipped) && ReceiveKey(cfg, p, header).Ok? && p.dr.dhs in own
    ensures Yields(p.dr, ReceiveKey(cfg, p, header).value.1.dr, more, own)
    ensures ReceiveKey(cfg, p, header).value.1.dr.dhs == p.dr.dhs
  {
    hide Derivable, Held, ReceiveOnChain, RatchetRecv, Yields, Remove;
    KeepsDhs(cfg, p, header);
    if HeaderSpec.Filed(p.dr.skipped, header) {
      TakeYields(p.dr, more, own, ServingId(header).value);
    } else {
      var o := OpenHeader(p, header).value;
      if (!p.dr.dhRSet || p.dr.dhr != o.header.pk) || o.viaNext {
        var p1 := RatchetRecv(cfg, p, o.header, o.viaNext).value;
        LeaveYields(cfg, p, more, own, o.header, o.viaNext);
        ReadYields(cfg, p1, more, own, o.header.n);
        YieldsThrough(p.dr, p1.dr, ReceiveOnChain(cfg, p1, o.header.n).value.1.dr, more, own);
      } else {
        ReadYields(cfg, p, more, own, o.header.n);
      }
    }
  }

  lemma KeepsDhs(cfg: Config, p: HeaderSpec.State, header: SealedHeader)
    requires ReceiveKey(cfg, p, header).Ok?
    ensures ReceiveKey(cfg, p, header).value.1.dr.dhs == p.dr.dhs
  {
    hide StoreRange, Adv, HeaderSpec.Filed, Opens;
  }

  /** No sending step is owed or missing. */
  predicate Settled(p: HeaderSpec.State) {
    !p.dr.pending && p.dr.cks.Some?
  }

  lemma SendYields(cfg: Config, p: HeaderSpec.State, more: set<Key>, own: set<key32>, text: bytes, ad: bytes, gen: Option<key32>)
    requires Encrypt(cfg, p, text, ad, gen).1.dr.dhs in own
    ensures var q := Encrypt(cfg, p, text, ad, gen).1;
            && Yields(p.dr, q.dr, more, own)
            && (Settled(p) ==> Settled(q) && q.dr.dhs == p.dr.dhs) && (!Settled(q) ==> q.dr.dhs == p.dr.dhs)
  {
    hide Derivable, HeaderAD, Stored, EncodeHeader;
    var q := Encrypt(cfg, p, text, ad, gen).1;
    if (p.dr.pending || p.dr.cks.None?) && RatchetSend(cfg, p, gen).0.None? {
      var dh := Dh(gen.value, p.dr.dhr);
      assert q.dr.dhs == gen.value && gen.value in dh * own;
      StepFollows(p.dr, more, own, dh);
      NextFollows(p.dr, more, own, ChainKey(p.dr.rk, dh));
    } else if p.dr.cks.Some? {
      HeldFollows(p.dr, more, own, p.dr.cks.value);
      NextFollows(p.dr, more, own, p.dr.cks.value);
    }
    forall k | Held(q.dr, more, k)
      ensures Derivable(p.dr, more, own, k)
    {
      if Held(p.dr, more, k) {
        HeldFollows(p.dr, more, own, k);
      }
    }
  }

  /** The sends, one after the other, lead from `p` to `q`. */
  ghost predicate SendsTo(cfg: Config, p: HeaderSpec.State, sends: seq<BaseErasure.Outgoing>, q: HeaderSpec.State)
    decreases |sends|
  {
    if sends == [] then p == q
    else SendsTo(cfg, Encrypt(cfg, p, sends[0].text, sends[0].ad, sends[0].gen).1, sends[1..], q)
  }

  lemma {:induction false} SameDhs(cfg: Config, p: HeaderSpec.State, sends: seq<BaseErasure.Outgoing>, q: HeaderSpec.State)
    requires SendsTo(cfg, p, sends, q) && Settled(p)
    ensures q.dr.dhs == p.dr.dhs
    decreases |sends|
  {
    hide Encrypt;
    if sends != [] {
      var p1 := Encrypt(cfg, p, sends[0].text, sends[0].ad, sends[0].gen).1;
      SendYields(cfg, p, {}, {p1.dr.dhs}, sends[0].text, sends[0].ad, sends[0].gen);
      SameDhs(cfg, p1, sends[1..], q);
    }
  }

  lemma {:induction false} SendsYield(cfg: Config, p: HeaderSpec.State, more: set<Key>, own: set<key32>,
                                      sends: seq<BaseErasure.Outgoing>, q: HeaderSpec.State)
    requires SendsTo(cfg, p, sends, q) && p.dr.dhs in own && q.dr.dhs in own
    ensures Yields(p.dr, q.dr, more, own)
    ensures Settled(p) ==> q.dr.dhs == p.dr.dhs
    decreases |sends|
  {
    hide Encrypt, Yields, Settled;
    if sends == [] {
      YieldsItself(p.dr, more, own);
    } else {
      var o := sends[0];
      var p1 := Encrypt(cfg, p, o.text, o.ad, o.gen).1;
      SendYields(cfg, p, more, {p1.dr.dhs}, o.text, o.ad, o.gen);
      if Settled(p1) {
        SameDhs(cfg, p1, sends[1..], q);
      }
      SendYields(cfg, p, more, own, o.text, o.ad, o.gen);
      SendsYield(cfg, p1, more, own, sends[1..], q);
      YieldsThrough(p.dr, p1.dr, q.dr, more, own);
    }
  }

  /** What follows from a state with its own private key and the next one of its party. */
  lemma PartySnapshot(keys: seq<key32>, cnt: seq<nat>, r: Role, p: HeaderSpec.State, lowOrder: set<key32>,
                      more: set<Key>, k: key32, j: nat, n: u32)
    requires |keys| == |cnt| >= 2 && PartyInv(keys, cnt, r, p) && KeysOk(keys, lowOrder) && Harmless(more)
    requires k != p.dr.dhs ==> k !in keys && Owner(|keys| - 1) == Peer(r)
    requires 1 <= j < |BaseErasure.With(keys, k)|
    ensures Derivable(p.dr, more, {p.dr.dhs, k}, MK(BaseErasure.With(keys, k), j, n)) <==>
              if Owner(j) == Peer(r) then Avail(keys, Base.PeerEpoch(keys, r, p.dr), p, j, n) || Covers(keys, p.dr, j, n)
              else j == |keys| || (p.dr.cks.Some? && j == Base.OwnEpoch(keys, r) && p.dr.ns <= n)
  {
    hide StoreInv, HeaderKeysInv, Base.ChainsInv, Derivable, R, C, Adv, MK, At, Has, Stored, Covers, Avail, Steps, Harmless, HK;
    var l, me, pe, keys' := Base.Level(keys, r, p.dr), Base.OwnEpoch(keys, r), Base.PeerEpoch(keys, r, p.dr), BaseErasure.With(keys, k);
    PartyAt(keys, cnt, r, p, lowOrder);
    BaseErasure.AtWith(keys, l, me, pe, p.dr, k);
    KeyDerivable(keys', l, me, pe, p.dr, more, {p.dr.dhs, k}, j, n);
    BaseErasure.StepsReach(keys, r, p.dr, k, j);
    if j < |keys| {
      BaseErasure.SameMK(keys, k, j, n);
      FiledExactly(keys, pe, NextN(p), p.dr.skipped, j, n);
      CoversBelow(keys, pe, lowOrder, p, j, n);
      BaseErasure.SameCovers(keys, k, p.dr, j, n);
      if Owner(j) == Peer(r) {
        AvailExactly(keys, cnt, r, p, lowOrder, j, n);
      }
    }
  }

  /** With the snapshot of the last successful `DecryptHE`, which stays while the session sends: a
      key of the peer can be derived if and only if its message could still be accepted before that
      call, or an old chain covered it then; a key of the session's own if and only if its message
      had not been sent before that call. */
  lemma SnapshotExactly(w: Base.World, s: System, r: Role, m: HeMessage, ad: bytes, sends: seq<BaseErasure.Outgoing>, q: HeaderSpec.State,
                        j: nat, n: u32)
    requires Base.Proper(w) && Inv(w, s) && Obtainable(s, m) && |s.keys| >= 2
    requires Decrypt(Base.Cfg(w, r), Party(s, r), m, ad).0.Ok?
    requires SendsTo(Base.Cfg(w, r), Decrypt(Base.Cfg(w, r), Party(s, r), m, ad).1, sends, q)
    requires q.dr.dhs != Party(s, r).dr.dhs ==> Fresh(s.keys, w.init.lowOrder, q.dr.dhs)
    requires 1 <= j < |BaseErasure.With(s.keys, q.dr.dhs)|
    ensures var p, keys := Party(s, r), BaseErasure.With(s.keys, q.dr.dhs);
            FromBoth(p.dr, q.dr, HeaderKeys(p) + HeaderKeys(q), {p.dr.dhs, q.dr.dhs}, MK(keys, j, n)) <==>
              if Owner(j) == Peer(r) then Avail(s.keys, Base.PeerEpoch(s.keys, r, p.dr), p, j, n) || Covers(s.keys, p.dr, j, n)
              else j == |s.keys| || (p.dr.cks.Some? && j == Base.OwnEpoch(s.keys, r) && p.dr.ns <= n)
  {
    hide PartyInv, KeysOk, LogAt, Decrypt, FromBoth, Derivable, Yields, MK, SendsTo, Avail, Covers, Harmless, HeaderKeys, Obtainable, Outcome;
    var cfg, p := Base.Cfg(w, r), Party(s, r);
    var p1, own, more := Decrypt(cfg, p, m, ad).1, {p.dr.dhs, q.dr.dhs}, HeaderKeys(p) + HeaderKeys(q);
    DecryptYields(w, s, r, m, ad, more, own);
    SendsYield(cfg, p1, more, own, sends, q);
    YieldsThrough(p.dr, p1.dr, q.dr, more, own);
    Absorbed(p.dr, q.dr, more, own, MK(BaseErasure.With(s.keys, q.dr.dhs), j, n));
    HeaderKeysHarmless(s.keys, s.cnt, r, p);
    DeliverInv(w, s, r, m, ad);
    StepHarmless(w, s, r, m, ad);
    SendsHarmless(cfg, p1, sends, q);
    BothHarmless(HeaderKeys(p), HeaderKeys(q));
    if q.dr.dhs != p.dr.dhs {
      UnsettledOwner(w, s, r, m, ad);
    }
    PartySnapshot(s.keys, s.cnt, r, p, w.init.lowOrder, more, q.dr.dhs, j, n);
  }

  lemma StepHarmless(w: Base.World, s: System, r: Role, m: HeMessage, ad: bytes)
    requires |s.keys| == |s.cnt| >= 2 && Inv(w, Step(w, s, Deliver(r, m, ad)))
    ensures Harmless(HeaderKeys(Decrypt(Base.Cfg(w, r), Party(s, r), m, ad).1))
  {
    hide PartyInv, LogAt, KeysOk, Decrypt, Harmless, HeaderKeys;
    HeaderKeysHarmless(s.keys, s.cnt, r, Party(Step(w, s, Deliver(r, m, ad)), r));
  }

  lemma {:induction false} SendsHarmless(cfg: Config, p: HeaderSpec.State, sends: seq<BaseErasure.Outgoing>, q: HeaderSpec.State)
    requires SendsTo(cfg, p, sends, q) && Harmless(HeaderKeys(p))
    ensures Harmless(HeaderKeys(q))
    decreases |sends|
  {
    hide Encrypt, Harmless, HeaderKeys;
    if sends != [] {
      SendHarmless(cfg, p, sends[0].text, sends[0].ad, sends[0].gen);
      SendsHarmless(cfg, Encrypt(cfg, p, sends[0].text, sends[0].ad, sends[0].gen).1, sends[1..], q);
    }
  }

  lemma SendHarmless(cfg: Config, p: HeaderSpec.State, text: bytes, ad: bytes, gen: Option<key32>)
    requires Harmless(HeaderKeys(p))
    ensures Harmless(HeaderKeys(Encrypt(cfg, p, text, ad, gen).1))
  {
    hide HeaderAD, EncodeHeader;
  }

  lemma BothHarmless(a: set<Key>, b: set<Key>)
    requires Harmless(a) && Harmless(b)
    ensures Harmless(a + b)
  {}

  lemma DecryptYields(w: Base.World, s: System, r: Role, m: HeMessage, ad: bytes, more: set<Key>, own: set<key32>)
    requires Inv(w, s) && Decrypt(Base.Cfg(w, r), Party(s, r), m, ad).0.Ok? && Party(s, r).dr.dhs in own
    ensures var p1 := Decrypt(Base.Cfg(w, r), Party(s, r), m, ad).1;
            Yields(Party(s, r).dr, p1.dr, more, own) && p1.dr.dhs == Party(s, r).dr.dhs
  {
    hide PartyInv, KeysOk, LogAt, ReceiveKey, Yields, HeaderAD;
    PartyStore(s.keys, s.cnt, r, Party(s, r));
    KeyYields(Base.Cfg(w, r), Party(s, r), more, own, m.header);
  }

  /** A receiver that has still to take a sending step is in an epoch of the peer. */
  lemma UnsettledOwner(w: Base.World, s: System, r: Role, m: HeMessage, ad: bytes)
    requires |s.keys| == |s.cnt| >= 2 && Inv(w, Step(w, s, Deliver(r, m, ad))) && !Settled(Decrypt(Base.Cfg(w, r), Party(s, r), m, ad).1)
    ensures Owner(|s.keys| - 1) == Peer(r)
  {
    hide StoreInv, HeaderKeysInv, Base.ChainsInv, LogAt, KeysOk, Decrypt;
    assert Party(Step(w, s, Deliver(r, m, ad)), r) == Decrypt(Base.Cfg(w, r), Party(s, r), m, ad).1;
  }
}
