/** Key erasure in the base session: what message keys can be derived from the session, and what
    the snapshot of its last successful `Decrypt` adds to them. */
module BaseErasure {
  import opened Bytes
  import opened Terms
  import opened Wire
  import opened SkippedQueue
  import opened RatchetSpec
  import opened History
  import opened BaseRuns
  import opened BaseTheorems
  import opened BaseReplay
  import opened ChainErasure

  /** What follows from the session alone. */
  ghost predicate Recoverable(p: State, k: Key) {
    Derivable(p, {}, {p.dhs}, k)
  }

  // ---- The session alone -------------------------------------------------------------------

  lemma PartyAt(keys: seq<key32>, cnt: seq<nat>, r: Role, p: State, lowOrder: set<key32>)
    requires |keys| == |cnt| >= 2 && PartyInv(keys, cnt, r, p) && KeysOk(keys, lowOrder)
    ensures At(keys, Level(keys, r, p), OwnEpoch(keys, r), PeerEpoch(keys, r, p), p) && Distinct32(keys)
    ensures p.dhs == keys[OwnEpoch(keys, r)]
  {
    hide ChainsInv, R, C, Adv;
    forall e | e in p.skipped
      ensures exists j :: 1 <= j < |keys| && e.mk == MK(keys, j, e.id.n)
    {
      var j :| FiledAt(keys, j, e);
    }
  }

  /** A message key is filed exactly under its own identifier. */
  lemma FiledExactly(keys: seq<key32>, pe: int, lowOrder: set<key32>, q: seq<Entry>, j: nat, n: u32)
    requires StoreInv(keys, pe, q) && KeysOk(keys, lowOrder) && 1 <= j < |keys|
    ensures Stored(q, MK(keys, j, n)) <==> Has(q, Id(RatchetLabel(keys[j]), n))
    ensures Stored(q, MK(keys, j, n)) ==> j <= pe && (pe - j) % 2 == 0
  {
    hide MK;
    if Stored(q, MK(keys, j, n)) {
      var e :| e in q && e.mk == MK(keys, j, n);
      var i :| i <= pe && (pe - i) % 2 == 0 && FiledAt(keys, i, e);
      MKInjective(keys, i, e.id.n, j, n);
      HasMember(q, e);
    }
    if Has(q, Id(RatchetLabel(keys[j]), n)) {
      var i := StoredKey(keys, pe, q, keys[j], n);
      var e := q[Find(q, Id(RatchetLabel(keys[j]), n))];
      assert e in q;
    }
  }

  lemma CoversOnChain(keys: seq<key32>, pe: int, lowOrder: set<key32>, p: State, j: nat, n: u32)
    requires ChainsInv(keys, pe, p.chains) && KeysOk(keys, lowOrder) && 1 <= j < |keys|
    ensures Covers(keys, p, j, n) <==> OnChain(p, keys[j], n)
    ensures Covers(keys, p, j, n) ==> j <= pe && (pe - j) % 2 == 0
  {
    hide ChainsInv, C, R, Adv;
    if Covers(keys, p, j, n) {
      var i :| 0 <= i < |p.chains| && p.chains[i].pk == keys[j] && p.chains[i].nr <= n;
      var l := RetainedKey(keys, pe, p.chains, i, n);
    }
  }

  /** Forward secrecy, exactly: the key of a message of the peer can be derived from the session if
      and only if the message can still be accepted. */
  lemma ReceivableExactly(w: World, s: System, r: Role, j: nat, n: u32)
    requires Inv(w, s) && 1 <= j < |s.keys| && Owner(j) == Peer(r) && |s.keys| >= 2
    ensures Recoverable(Party(s, r), MK(s.keys, j, n)) <==> Usable(s.keys, r, Party(s, r), s.keys[j], n)
  {
    hide PartyInv, KeysOk, LogAt, Derivable, Left;
    PartyReceivable(s.keys, s.cnt, r, Party(s, r), w.init.lowOrder, j, n);
  }

  lemma PartyReceivable(keys: seq<key32>, cnt: seq<nat>, r: Role, p: State, lowOrder: set<key32>, j: nat, n: u32)
    requires |keys| == |cnt| >= 2 && PartyInv(keys, cnt, r, p) && KeysOk(keys, lowOrder)
    requires 1 <= j < |keys| && Owner(j) == Peer(r)
    ensures Recoverable(p, MK(keys, j, n)) <==> Usable(keys, r, p, keys[j], n)
  {
    hide StoreInv, ChainsInv, Derivable, R, C, Adv, MK, At, Stored, Covers, Usable;
    var l, me, pe := Level(keys, r, p), OwnEpoch(keys, r), PeerEpoch(keys, r, p);
    PartyAt(keys, cnt, r, p, lowOrder);
    KeyDerivable(keys, l, me, pe, p, {}, {p.dhs}, j, n);
    UsableExactly(keys, cnt, r, p, lowOrder, j, n);
  }

  /** A message of the peer can still be accepted if its key is filed, or a retained chain covers
      it, or its epoch lies beyond the root key. */
  lemma UsableExactly(keys: seq<key32>, cnt: seq<nat>, r: Role, p: State, lowOrder: set<key32>, j: nat, n: u32)
    requires |keys| == |cnt| >= 2 && PartyInv(keys, cnt, r, p) && KeysOk(keys, lowOrder)
    requires 1 <= j < |keys| && Owner(j) == Peer(r)
    ensures Usable(keys, r, p, keys[j], n) <==> Stored(p.skipped, MK(keys, j, n)) || Covers(keys, p, j, n) || j > Level(keys, r, p)
  {
    hide StoreInv, ChainsInv, R, C, Adv, MK, Has, Stored, Covers, OnChain, Received;
    var pe := PeerEpoch(keys, r, p);
    FiledExactly(keys, pe, lowOrder, p.skipped, j, n);
    CoversOnChain(keys, pe, lowOrder, p, j, n);
    ReceivedBelow(keys, pe, lowOrder, j);
  }

  lemma ReceivedBelow(keys: seq<key32>, pe: int, lowOrder: set<key32>, j: nat)
    requires KeysOk(keys, lowOrder) && 1 <= j < |keys|
    ensures Received(keys, pe, keys[j]) <==> j <= pe && (pe - j) % 2 == 0
  {}

  /** And the key of a message of its own if and only if it has not sent it yet. */
  lemma SendableExactly(w: World, s: System, r: Role, j: nat, n: u32)
    requires Inv(w, s) && 1 <= j < |s.keys| && Owner(j) == r && |s.keys| >= 2
    ensures Recoverable(Party(s, r), MK(s.keys, j, n)) <==> j == OwnEpoch(s.keys, r) && Party(s, r).ns <= n
  {
    hide PartyInv, KeysOk, LogAt, Derivable;
    PartySendable(s.keys, s.cnt, r, Party(s, r), w.init.lowOrder, j, n);
  }

  lemma PartySendable(keys: seq<key32>, cnt: seq<nat>, r: Role, p: State, lowOrder: set<key32>, j: nat, n: u32)
    requires |keys| == |cnt| >= 2 && PartyInv(keys, cnt, r, p) && KeysOk(keys, lowOrder)
    requires 1 <= j < |keys| && Owner(j) == r
    ensures Recoverable(p, MK(keys, j, n)) <==> j == OwnEpoch(keys, r) && p.ns <= n
  {
    hide StoreInv, ChainsInv, Derivable, R, C, Adv, MK, At, Has, Stored, Covers;
    var l, me, pe := Level(keys, r, p), OwnEpoch(keys, r), PeerEpoch(keys, r, p);
    PartyAt(keys, cnt, r, p, lowOrder);
    KeyDerivable(keys, l, me, pe, p, {}, {p.dhs}, j, n);
    FiledExactly(keys, pe, lowOrder, p.skipped, j, n);
    CoversOnChain(keys, pe, lowOrder, p, j, n);
  }

  /** After a successful `Decrypt` the accepted message's key is gone from the session, unless its
      chain still covers a position that was filed. */
  lemma UsedKeyGone(w: World, s: System, r: Role, m: Message, ad: bytes) returns (i: nat)
    requires Proper(w) && Inv(w, s) && Enabled(w, s, Deliver(r, m, ad)) && Decrypt(Cfg(w, r), Party(s, r), m, ad).0.Ok?
    ensures i < |s.log| && s.log[i].msg == m && 1 <= s.log[i].epoch < |s.keys|
    ensures Recoverable(Decrypt(Cfg(w, r), Party(s, r), m, ad).1, MK(s.keys, s.log[i].epoch, m.header.n)) <==>
              InStore(Party(s, r), m.header) && OnChain(Party(s, r), m.header.pk, m.header.n)
  {
    hide PartyInv, KeysOk, LogAt, Derivable, ReceiveKey, Usable, OnChain, InStore, Returns;
    var cfg, p := Cfg(w, r), Party(s, r);
    i := DeliverySound(w, s, r, m, ad);
    var j := s.log[i].epoch;
    LogEpoch(w, s, i);
    DeliveredKey(w, s, r, m, ad, i);
    KeyUses(cfg, s.keys, s.cnt, r, p, m.header, j);
    DeliverKeepsParty(cfg, s.keys, s.cnt, r, p, m.header, j);
    PartyReceivable(s.keys, s.cnt, r, ReceiveKey(cfg, p, m.header).value.1, w.init.lowOrder, j, m.header.n);
  }

  // ---- What follows from a state yields the states after it --------------------------------

  lemma ReadYields(cfg: Config, p: State, own: set<key32>, h: Header)
    requires Distinct(p.skipped) && ReceiveOnChain(cfg, p, h).Ok?
    ensures Yields(p, ReceiveOnChain(cfg, p, h).value.1, {}, own)
  {
    hide Derivable, StoreRange, Adv, Stored;
    var p1, i := ReceiveOnChain(cfg, p, h).value.1, FindChain(p.chains, h.pk);
    var c := p.chains[i];
    HeldFollows(p, {}, own, c.ck);
    forall k | Held(p1, {}, k)
      ensures Derivable(p, {}, own, k)
    {
      if Stored(p1.skipped, k) {
        StoreFollows(p, {}, own, MaxSkip(cfg), RatchetLabel(h.pk), c.ck, c.nr, h.n, k);
      } else if k == NextChain(Adv(c.ck, h.n - c.nr)) {
        MessageFollows(p, {}, own, c.ck, h.n - c.nr + 1);
        AdvNext(c.ck, h.n - c.nr);
      } else {
        HeldFollows(p, {}, own, k);
      }
    }
  }

  lemma LeaveYields(cfg: Config, p: State, own: set<key32>, h: Header)
    requires Distinct(p.skipped) && RatchetRecv(cfg, p, h).Ok? && p.dhs in own
    ensures Yields(p, RatchetRecv(cfg, p, h).value, {}, own)
  {
    hide Derivable, StoreRange, Adv, Stored;
    var p1, i := RatchetRecv(cfg, p, h).value, PreviousChain(p);
    assert p.dhs in Dh(p.dhs, h.pk) * own;
    StepFollows(p, {}, own, Dh(p.dhs, h.pk));
    forall k | Held(p1, {}, k)
      ensures Derivable(p, {}, own, k)
    {
      if Stored(p1.skipped, k) && i >= 0 {
        HeldFollows(p, {}, own, p.chains[i].ck);
        StoreFollows(p, {}, own, MaxSkip(cfg), RatchetLabel(p.dhr), p.chains[i].ck, p.chains[i].nr, h.pn, k);
      } else if k != p1.rk && k != ChainKey(p.rk, Dh(p.dhs, h.pk)) {
        PushedHeld(p, p1, {}, k, Chain(h.pk, ChainKey(p.rk, Dh(p.dhs, h.pk)), 0));
        HeldFollows(p, {}, own, k);
      }
    }
  }

  /** Everything a session holds after deriving a key follows from what it held before. */
  lemma KeyYields(cfg: Config, p: State, own: set<key32>, h: Header)
    requires Distinct(p.skipped) && ReceiveKey(cfg, p, h).Ok? && p.dhs in own
    ensures Yields(p, ReceiveKey(cfg, p, h).value.1, {}, own)
  {
    hide Derivable, Held, ReceiveOnChain, RatchetRecv, Yields;
    if InStore(p, h) {
      TakeYields(p, {}, own, Id(RatchetLabel(h.pk), h.n));
    } else if Known(p, h.pk) {
      ReadYields(cfg, p, own, h);
    } else {
      var p1 := RatchetRecv(cfg, p, h).value;
      LeaveYields(cfg, p, own, h);
      RatchetRecvStore(cfg, p, h, Id(RatchetLabel(h.pk), h.n));
      ReadYields(cfg, p1, own, h);
      YieldsThrough(p, p1, ReceiveOnChain(cfg, p1, h).value.1, {}, own);
    }
  }

  lemma SendYields(cfg: Config, p: State, own: set<key32>, text: bytes, ad: bytes, gen: Option<key32>)
    requires Encrypt(cfg, p, text, ad, gen).1.dhs in own
    ensures Yields(p, Encrypt(cfg, p, text, ad, gen).1, {}, own)
    ensures var q := Encrypt(cfg, p, text, ad, gen).1;
            (!p.pending ==> !q.pending && q.dhs == p.dhs) && (q.pending ==> q.dhs == p.dhs)
  {
    hide Derivable, BuildAD, Stored;
    var q := Encrypt(cfg, p, text, ad, gen).1;
    if p.pending && RatchetSend(cfg, p, gen).0.None? {
      assert q.dhs in Dh(q.dhs, p.dhr) * own;
      StepFollows(p, {}, own, Dh(q.dhs, p.dhr));
      NextFollows(p, {}, own, ChainKey(p.rk, Dh(q.dhs, p.dhr)));
    } else if p.cks.Some? {
      HeldFollows(p, {}, own, p.cks.value);
      NextFollows(p, {}, own, p.cks.value);
    }
    forall k | Held(q, {}, k)
      ensures Derivable(p, {}, own, k)
    {
      if Held(p, {}, k) {
        HeldFollows(p, {}, own, k);
      }
    }
  }

  /** A message to send: its text, the caller's data, and a fresh key pair if there is entropy. */
  datatype Outgoing = Outgoing(text: bytes, ad: bytes, gen: Option<key32>)

  /** The sends, one after the other, lead from `p` to `q`. */
  ghost predicate SendsTo(cfg: Config, p: State, sends: seq<Outgoing>, q: State)
    decreases |sends|
  {
    if sends == [] then p == q
    else SendsTo(cfg, Encrypt(cfg, p, sends[0].text, sends[0].ad, sends[0].gen).1, sends[1..], q)
  }

  lemma {:induction false} SendsYield(cfg: Config, p: State, own: set<key32>, sends: seq<Outgoing>, q: State)
    requires SendsTo(cfg, p, sends, q) && p.dhs in own && q.dhs in own
    ensures Yields(p, q, {}, own)
    ensures !p.pending ==> q.dhs == p.dhs
    decreases |sends|
  {
    hide Encrypt, Yields;
    if sends == [] {
      YieldsItself(p, {}, own);
    } else {
      var o := sends[0];
      var p1 := Encrypt(cfg, p, o.text, o.ad, o.gen).1;
      SendDhs(cfg, p, o, sends[1..], q);
      SendYields(cfg, p, own, o.text, o.ad, o.gen);
      SendsYield(cfg, p1, own, sends[1..], q);
      YieldsThrough(p, p1, q, {}, own);
    }
  }

  /** The private key changes at most once on the way. */
  lemma SendDhs(cfg: Config, p: State, o: Outgoing, rest: seq<Outgoing>, q: State)
    requires SendsTo(cfg, Encrypt(cfg, p, o.text, o.ad, o.gen).1, rest, q)
    ensures var p1 := Encrypt(cfg, p, o.text, o.ad, o.gen).1; p1.dhs == p.dhs || p1.dhs == q.dhs
  {
    hide Encrypt;
    var p1 := Encrypt(cfg, p, o.text, o.ad, o.gen).1;
    SendYields(cfg, p, {p1.dhs}, o.text, o.ad, o.gen);
    if !p1.pending {
      SameDhs(cfg, p1, rest, q);
    }
  }

  lemma {:induction false} SameDhs(cfg: Config, p: State, sends: seq<Outgoing>, q: State)
    requires SendsTo(cfg, p, sends, q) && !p.pending
    ensures q.dhs == p.dhs
    decreases |sends|
  {
    hide Encrypt;
    if sends != [] {
      var p1 := Encrypt(cfg, p, sends[0].text, sends[0].ad, sends[0].gen).1;
      SendYields(cfg, p, {p1.dhs}, sends[0].text, sends[0].ad, sends[0].gen);
      SameDhs(cfg, p1, sends[1..], q);
    }
  }

  // ---- With the snapshot -------------------------------------------------------------------

  /** The history once the key pair `k` is in use. */
  function With(keys: seq<key32>, k: key32): seq<key32> {
    if k in keys then keys else keys + [k]
  }

  lemma AtWith(keys: seq<key32>, l: nat, me: nat, pe: int, p: State, k: key32)
    requires At(keys, l, me, pe, p) && Distinct32(keys)
    ensures At(With(keys, k), l, me, pe, p) && Distinct32(With(keys, k))
  {
    hide ChainsInv, C, R, Adv;
    CExtends(keys, k);
    RExtends(keys, k, l);
    ChainsInvExtends(keys, k, pe, p.chains);
    forall e | e in p.skipped && k !in keys
      ensures exists j :: 1 <= j < |keys| + 1 && e.mk == MK(keys + [k], j, e.id.n)
    {
      var j :| 1 <= j < |keys| && e.mk == MK(keys, j, e.id.n);
      assert e.mk == MK(keys + [k], j, e.id.n);
    }
  }

  /** What follows from a state with its own private key and the next one of its party. */
  lemma PartySnapshot(keys: seq<key32>, cnt: seq<nat>, r: Role, p: State, lowOrder: set<key32>, k: key32, j: nat, n: u32)
    requires |keys| == |cnt| >= 2 && PartyInv(keys, cnt, r, p) && KeysOk(keys, lowOrder)
    requires k != p.dhs ==> k !in keys && Owner(|keys| - 1) == Peer(r)
    requires 1 <= j < |With(keys, k)|
    ensures Derivable(p, {}, {p.dhs, k}, MK(With(keys, k), j, n)) <==>
              if Owner(j) == Peer(r) then Usable(keys, r, p, With(keys, k)[j], n)
              else j == |keys| || (j == OwnEpoch(keys, r) && p.ns <= n)
  {
    hide StoreInv, ChainsInv, Derivable, R, C, Adv, MK, At, Has, Stored, Covers, OnChain, Left, Usable, Steps;
    var l, me, pe, keys' := Level(keys, r, p), OwnEpoch(keys, r), PeerEpoch(keys, r, p), With(keys, k);
    PartyAt(keys, cnt, r, p, lowOrder);
    AtWith(keys, l, me, pe, p, k);
    KeyDerivable(keys', l, me, pe, p, {}, {p.dhs, k}, j, n);
    StepsReach(keys, r, p, k, j);
    if j < |keys| {
      SameMK(keys, k, j, n);
      FiledExactly(keys, pe, lowOrder, p.skipped, j, n);
      CoversOnChain(keys, pe, lowOrder, p, j, n);
      SameCovers(keys, k, p, j, n);
      if Owner(j) == Peer(r) {
        UsableExactly(keys, cnt, r, p, lowOrder, j, n);
      }
    }
  }

  lemma SameMK(keys: seq<key32>, k: key32, j: nat, n: nat)
    requires 1 <= j < |keys|
    ensures With(keys, k)[j] == keys[j] && MK(With(keys, k), j, n) == MK(keys, j, n)
  {
    CExtends(keys, k);
  }

  lemma SameCovers(keys: seq<key32>, k: key32, p: State, j: nat, n: nat)
    requires 1 <= j < |keys|
    ensures Covers(With(keys, k), p, j, n) == Covers(keys, p, j, n)
  {}

  /** How far the two private keys lead beyond the root key. */
  lemma StepsReach(keys: seq<key32>, r: Role, p: State, k: key32, j: nat)
    requires |keys| >= 2 && p.dhs == keys[OwnEpoch(keys, r)] && (Owner(|keys| - 1) == r ==> !p.pending)
    requires k != p.dhs ==> k !in keys && Owner(|keys| - 1) == Peer(r)
    requires 1 <= j < |With(keys, k)|
    ensures var l := Level(keys, r, p);
            j > l && Steps(With(keys, k), {p.dhs, k}, l, j) <==> j > l
    ensures j > Level(keys, r, p) ==> j == |keys| || (j == |keys| - 1 && Owner(j) == Peer(r))
  {}

  lemma KeepsDhs(cfg: Config, p: State, m: Message, ad: bytes)
    ensures Decrypt(cfg, p, m, ad).1.dhs == p.dhs
  {
    hide StoreRange, BuildAD, Adv;
  }

  /** The snapshot that a successful `Decrypt` leaves behind stays until the next call of `Decrypt`,
      however many messages the session sends meanwhile. With it, a message key of the peer can be
      derived if and only if the message could still be accepted before that call, the one just
      accepted included; and a key of the session's own if and only if the message had not been
      sent before that call. */
  lemma SnapshotExactly(w: World, s: System, r: Role, m: Message, ad: bytes, sends: seq<Outgoing>, q: State, j: nat, n: u32)
    requires Proper(w) && Inv(w, s) && Enabled(w, s, Deliver(r, m, ad)) && |s.keys| >= 2
    requires Decrypt(Cfg(w, r), Party(s, r), m, ad).0.Ok?
    requires SendsTo(Cfg(w, r), Decrypt(Cfg(w, r), Party(s, r), m, ad).1, sends, q)
    requires q.dhs != Party(s, r).dhs ==> Fresh(s.keys, w.init.lowOrder, q.dhs)
    requires 1 <= j < |With(s.keys, q.dhs)|
    ensures var p, keys := Party(s, r), With(s.keys, q.dhs);
            FromBoth(p, q, {}, {p.dhs, q.dhs}, MK(keys, j, n)) <==>
              if Owner(j) == Peer(r) then Usable(s.keys, r, p, keys[j], n)
              else j == |s.keys| || (j == OwnEpoch(s.keys, r) && p.ns <= n)
  {
    hide PartyInv, KeysOk, LogAt, Decrypt, FromBoth, Derivable, Yields, Usable, MK, Returns, SendsTo;
    var cfg, p := Cfg(w, r), Party(s, r);
    var p1, own := Decrypt(cfg, p, m, ad).1, {p.dhs, q.dhs};
    KeepsDhs(cfg, p, m, ad);
    DecryptYields(w, s, r, m, ad, own);
    SendsYield(cfg, p1, own, sends, q);
    YieldsThrough(p, p1, q, {}, own);
    Absorbed(p, q, {}, own, MK(With(s.keys, q.dhs), j, n));
    if q.dhs != p.dhs {
      DeliverInv(w, s, r, m, ad);
      OwesToPeer(w, s, r, m, ad);
    }
    PartySnapshot(s.keys, s.cnt, r, p, w.init.lowOrder, q.dhs, j, n);
  }

  lemma OwesToPeer(w: World, s: System, r: Role, m: Message, ad: bytes)
    requires |s.keys| == |s.cnt| >= 2 && Inv(w, Step(w, s, Deliver(r, m, ad))) && Decrypt(Cfg(w, r), Party(s, r), m, ad).1.pending
    ensures Owner(|s.keys| - 1) == Peer(r)
  {
    hide Inv, Decrypt;
    PartyOwner(w, Step(w, s, Deliver(r, m, ad)), r);
  }

  lemma DecryptYields(w: World, s: System, r: Role, m: Message, ad: bytes, own: set<key32>)
    requires Inv(w, s) && Decrypt(Cfg(w, r), Party(s, r), m, ad).0.Ok? && Party(s, r).dhs in own
    ensures Yields(Party(s, r), Decrypt(Cfg(w, r), Party(s, r), m, ad).1, {}, own)
  {
    hide ChainsInv, KeysOk, LogAt, ReceiveKey, Yields, BuildAD;
    var p := Party(s, r);
    StoreDistinct(s.keys, PeerEpoch(s.keys, r, p), p.skipped);
    KeyYields(Cfg(w, r), p, own, m.header);
  }

  /** So the key of the message just accepted can be derived until the next call. */
  lemma UsedKeyKept(w: World, s: System, r: Role, m: Message, ad: bytes, sends: seq<Outgoing>, q: State) returns (i: nat)
    requires Proper(w) && Inv(w, s) && Enabled(w, s, Deliver(r, m, ad)) && |s.keys| >= 2
    requires Decrypt(Cfg(w, r), Party(s, r), m, ad).0.Ok?
    requires SendsTo(Cfg(w, r), Decrypt(Cfg(w, r), Party(s, r), m, ad).1, sends, q)
    requires q.dhs != Party(s, r).dhs ==> Fresh(s.keys, w.init.lowOrder, q.dhs)
    ensures i < |s.log| && s.log[i].msg == m && 1 <= s.log[i].epoch < |s.keys|
    ensures FromBoth(Party(s, r), q, {}, {Party(s, r).dhs, q.dhs}, MK(s.keys, s.log[i].epoch, m.header.n))
  {
    hide PartyInv, KeysOk, LogAt, ReceiveKey, FromBoth, Usable, MK, Returns, SendsTo, Left;
    i := DeliverySound(w, s, r, m, ad);
    var j := s.log[i].epoch;
    LogEpoch(w, s, i);
    DeliveredKey(w, s, r, m, ad, i);
    KeyUses(Cfg(w, r), s.keys, s.cnt, r, Party(s, r), m.header, j);
    SnapshotExactly(w, s, r, m, ad, sends, q, j, m.header.n);
    SameMK(s.keys, q.dhs, j, m.header.n);
  }
}
