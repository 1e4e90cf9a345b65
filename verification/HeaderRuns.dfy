/** Two header-encryption sessions and the network between them. */
module HeaderRuns {
  import opened Bytes
  import opened Terms
  import opened Wire
  import opened SkippedQueue
  import opened History
  import opened HeaderSpec
  import Ec = RatchetSpec
  import Base = BaseRuns
  import Window = BaseTheorems

  const HKA := Shared(1)
  const NHKB := Shared(2)

  /** The header key of epoch `j`: shared from the start for the first two, and from then on the
      third output of the derivation two DH steps earlier. */
  function HK(keys: seq<key32>, j: nat): Key
    requires 1 <= j < |keys| + 2
  {
    if j == 1 then HKA else if j == 2 then NHKB
    else NextHeaderKey(R(keys, j - 3), Dh(keys[j - 3], keys[j - 2]))
  }

  lemma HKInjective(keys: seq<key32>, i: nat, j: nat)
    requires 1 <= i < |keys| + 2 && 1 <= j < |keys| + 2 && HK(keys, i) == HK(keys, j)
    ensures i == j
  {
    if i > 2 && j > 2 {
      RInjective(keys, i - 3, j - 3);
    }
  }

  lemma HKSecret(keys: seq<key32>, j: nat)
    requires 1 <= j < |keys| + 2
    ensures SecretBased(HK(keys, j)) && HK(keys, j) != Zeroed
  {
    if j > 2 {
      RSecret(keys, j - 3);
    }
  }

  lemma HKExtends(keys: seq<key32>, k: key32, j: nat)
    requires 1 <= j < |keys| + 2
    ensures HK(keys + [k], j) == HK(keys, j)
  {
    if j > 2 {
      RExtends(keys, k, j - 3);
    }
  }

  datatype Sent = Sent(epoch: nat, ad: bytes, text: bytes, header: Header, msg: HeMessage)

  datatype System = System(init: HeaderSpec.State, resp: HeaderSpec.State, keys: seq<key32>, cnt: seq<nat>, log: seq<Sent>)

  function Party(s: System, r: Role): HeaderSpec.State {
    if r.Initiator? then s.init else s.resp
  }

  function SetParty(s: System, r: Role, p: HeaderSpec.State): System {
    if r.Initiator? then s.(init := p) else s.(resp := p)
  }

  function Start(bob: key32, alice: key32): System {
    System(InitInitiator(SK, HKA, NHKB, bob, alice), InitResponder(SK, HKA, NHKB, bob), [bob, alice], [0, 0], [])
  }

  datatype Action =
    | Send(sender: Role, text: bytes, sendAd: bytes, gen: Option<key32>)
    | Deliver(receiver: Role, msg: HeMessage, ad: bytes)

  /** A header or a ciphertext under a secret key was copied from the log, not necessarily both
      from the same message. */
  ghost predicate Obtainable(s: System, m: HeMessage) {
    && (m.header.SealedHeader? && SecretBased(m.header.hk) ==> exists i :: 0 <= i < |s.log| && s.log[i].msg.header == m.header)
    && (m.ct.Sealed? && SecretBased(m.ct.key) ==> exists i :: 0 <= i < |s.log| && s.log[i].msg.ct == m.ct)
  }

  ghost predicate Enabled(w: Base.World, s: System, a: Action) {
    match a
    case Send(r, _, _, gen) =>
      && Party(s, r).dr.ns < U32_MAX
      && (Party(s, r).dr.pending ==> gen.Some? && Fresh(s.keys, w.init.lowOrder, gen.value))
    case Deliver(_, m, _) => Obtainable(s, m)
  }

  function Step(w: Base.World, s: System, a: Action): System
    requires |s.keys| >= 2 && |s.cnt| == |s.keys|
  {
    match a
    case Send(r, text, ad, gen) =>
      var (res, p) := Encrypt(Base.Cfg(w, r), Party(s, r), text, ad, gen);
      if res.Err? || !res.value.header.SealedHeader? || DecodeHeader(res.value.header.header).Err? then SetParty(s, r, p)
      else
        var (keys, cnt) := if Party(s, r).dr.pending && gen.Some? then (s.keys + [gen.value], s.cnt + [0]) else (s.keys, s.cnt);
        var j := Base.OwnEpoch(keys, r);
        SetParty(s, r, p).(keys := keys, cnt := cnt[j := cnt[j] + 1],
                           log := s.log + [Sent(j, ad, text, DecodeHeader(res.value.header.header).value, res.value)])
    case Deliver(r, m, ad) =>
      SetParty(s, r, Decrypt(Base.Cfg(w, r), Party(s, r), m, ad).1)
  }

  // ---- The invariant -----------------------------------------------------------------------

  ghost predicate FiledAt(keys: seq<key32>, j: int, e: Entry) {
    && 1 <= j < |keys|
    && e.id.lab == HeaderLabel(HK(keys, j))
    && e.mk == MK(keys, j, e.id.n)
  }

  /** Every filed key belongs to a peer epoch up to `pe`; those of epoch `pe` lie below `nr`. */
  ghost predicate StoreInv(keys: seq<key32>, pe: int, nr: nat, q: seq<Entry>) {
    && Distinct(q)
    && forall e :: e in q ==> exists j :: j <= pe && (pe - j) % 2 == 0 && FiledAt(keys, j, e) && (j == pe ==> e.id.n < nr)
  }

  /** Position the current receive chain stands at. */
  function NextN(p: HeaderSpec.State): nat {
    if p.dr.chains == [] then 0 else p.dr.chains[|p.dr.chains| - 1].nr
  }

  ghost predicate HeaderKeysInv(keys: seq<key32>, me: nat, pe: int, p: HeaderSpec.State)
    requires me < |keys| && -1 <= pe < |keys|
  {
    && p.hks == (if me == 0 then NO_KEY else HeaderKey(HK(keys, me), p.dr.ns))
    && p.nhks == HeaderKey(HK(keys, me + 2), 0)
    && p.hkr == (if pe <= 0 then NO_KEY else HeaderKey(HK(keys, pe), 0))
    && p.nhkr == HeaderKey(HK(keys, pe + 2), 0)
  }

  ghost predicate RatchetInv(keys: seq<key32>, cnt: seq<nat>, r: Role, p: Ec.State)
    requires |keys| == |cnt| >= 2
  {
    var me, pe := Base.OwnEpoch(keys, r), Base.PeerEpoch(keys, r, p);
    && (Owner(|keys| - 1) == r ==> !p.pending)
    && p.rk == R(keys, Base.Level(keys, r, p))
    && p.dhs == keys[me]
    && p.dhRSet == (pe >= 0)
    && (pe >= 0 ==> p.dhr == keys[pe])
    && p.cks == (if me == 0 || p.pending then None else Some(Adv(C(keys, me), p.ns)))
    && p.ns == cnt[me]
    && p.pn == (if me >= 2 then cnt[me - 2] else 0)
    && Base.ChainsInv(keys, pe, p.chains)
  }

  ghost predicate PartyInv(keys: seq<key32>, cnt: seq<nat>, r: Role, p: HeaderSpec.State)
    requires |keys| == |cnt| >= 2
  {
    var me, pe := Base.OwnEpoch(keys, r), Base.PeerEpoch(keys, r, p.dr);
    && RatchetInv(keys, cnt, r, p.dr)
    && StoreInv(keys, pe, NextN(p), p.dr.skipped)
    && HeaderKeysInv(keys, me, pe, p)
  }

  ghost predicate LogAt(w: Base.World, keys: seq<key32>, cnt: seq<nat>, e: Sent)
    requires |keys| == |cnt|
  {
    var h := e.header;
    && 1 <= e.epoch < |keys|
    && h.pk == keys[e.epoch]
    && h.pn == (if e.epoch >= 2 then cnt[e.epoch - 2] else 0)
    && h.n < cnt[e.epoch] && h.n < U32_MAX
    && e.msg.header == SealedHeader(HK(keys, e.epoch), h.n, EncodeHeader(h))
    && e.msg.ct == Sealed(MK(keys, e.epoch, h.n), HeaderAD(Base.Cfg(w, Owner(e.epoch)), e.msg.header, e.ad, true), e.text)
  }

  ghost predicate Inv(w: Base.World, s: System) {
    && |s.keys| == |s.cnt| >= 2
    && s.cnt[0] == 0
    && KeysOk(s.keys, w.init.lowOrder)
    && PartyInv(s.keys, s.cnt, Initiator, s.init)
    && PartyInv(s.keys, s.cnt, Responder, s.resp)
    && (forall i :: 0 <= i < |s.log| ==> LogAt(w, s.keys, s.cnt, s.log[i]))
    && (forall i, k :: 0 <= i < k < |s.log| && s.log[i].epoch == s.log[k].epoch ==>
          s.log[i].header.n < s.log[k].header.n)
  }

  lemma InvStart(w: Base.World, bob: key32, alice: key32)
    requires Base.Proper(w) && KeysOk([bob, alice], w.init.lowOrder)
    ensures Inv(w, Start(bob, alice))
  {
    var keys := [bob, alice];
    assert Adv(C(keys, 1), 0) == C(keys, 1);
    assert R(keys, 0) == SK && R(keys, 1) == RootKey(SK, Dh(bob, alice));
    DhCommutes(bob, alice);
  }

  // ---- Which key opens a header -------------------------------------------------------------

  /** The header sealed as number `nonce` of epoch `j`. */
  ghost predicate HonestHeader(keys: seq<key32>, header: SealedHeader, j: nat, h: Header) {
    && 1 <= j < |keys|
    && header.SealedHeader? && header.hk == HK(keys, j) && header.header == EncodeHeader(h)
    && h.pk == keys[j]
  }

  lemma HonestOpens(keys: seq<key32>, header: SealedHeader, j: nat, h: Header)
    requires HonestHeader(keys, header, j, h)
    ensures DecodeHeader(header.header) == Ok(h)
    ensures ServingId(header) == Some(Id(HeaderLabel(HK(keys, j)), h.n))
    ensures forall i: nat :: 1 <= i < |keys| + 2 ==> (Opens(HK(keys, i), header) <==> i == j)
    ensures !Opens(Zeroed, header)
  {
    DecodeEncodeHeader(h);
    forall i: nat | 1 <= i < |keys| + 2
      ensures Opens(HK(keys, i), header) <==> i == j
    {
      HKSecret(keys, i);
      if HK(keys, i) == HK(keys, j) {
        HKInjective(keys, i, j);
      }
    }
    HKSecret(keys, j);
  }

  /** The current receiving header key opens the headers of the epoch being received, the next
      one those of the peer's next epoch, and neither opens any other. */
  lemma OpenedBy(keys: seq<key32>, me: nat, pe: int, p: HeaderSpec.State, header: SealedHeader, j: nat, h: Header)
    requires me < |keys| && -1 <= pe < |keys| && HeaderKeysInv(keys, me, pe, p) && HonestHeader(keys, header, j, h)
    ensures Opens(p.hkr.key, header) <==> j == pe
    ensures Opens(p.nhkr.key, header) <==> j == pe + 2
  {
    hide HK, Opens;
    HonestOpens(keys, header, j, h);
  }

  lemma FiledKey(keys: seq<key32>, pe: int, nr: nat, q: seq<Entry>, header: SealedHeader, j: nat, h: Header)
    requires StoreInv(keys, pe, nr, q) && HonestHeader(keys, header, j, h) && Filed(q, header)
    ensures j <= pe && (pe - j) % 2 == 0 && (j == pe ==> h.n < nr)
    ensures ServingId(header) == Some(Id(HeaderLabel(HK(keys, j)), h.n))
    ensures Lookup(q, ServingId(header).value) == MK(keys, j, h.n)
  {
    hide HK, MK;
    HonestOpens(keys, header, j, h);
    var e := q[Find(q, ServingId(header).value)];
    assert e in q;
    var l :| l <= pe && (pe - l) % 2 == 0 && FiledAt(keys, l, e) && (l == pe ==> e.id.n < nr);
    HKInjective(keys, l, j);
  }

  // ---- What an honest header leads to ------------------------------------------------------

  lemma OnChainOutcome(cfg: Config, keys: seq<key32>, pe: nat, p: HeaderSpec.State, n: u32)
    requires KeysOk(keys, cfg.lowOrder) && 1 <= pe < |keys| && Base.ChainsInv(keys, pe, p.dr.chains) && p.dr.dhr == keys[pe]
    requires n < U32_MAX
    ensures ReceiveOnChain(cfg, p, n).Ok? <==> NextN(p) <= n <= NextN(p) + MaxSkip(cfg)
    ensures ReceiveOnChain(cfg, p, n).Ok? ==>
              var (mk, p1) := ReceiveOnChain(cfg, p, n).value;
              var i := |p.dr.chains| - 1;
              && i >= 0 && mk == MK(keys, pe, n)
              && p1 == p.(dr := p.dr.(chains := p.dr.chains[i := Ec.Chain(keys[pe], Adv(C(keys, pe), n + 1), n + 1)],
                          skipped := StoreRange(MaxSkip(cfg), p.dr.skipped, HeaderLabel(p.hkr.key), Adv(C(keys, pe), NextN(p)), NextN(p), n)))
  {
    hide Base.ChainsInv, KeysOk, C, ReceiveOnChain, Adv, Ec.FindChain;
    Window.CurrentChain(keys, cfg.lowOrder, pe, p.dr);
    OnChainShape(cfg, p, n);
    if NextN(p) <= n {
      AdvAdv(C(keys, pe), NextN(p), n - NextN(p));
      AdvNext(C(keys, pe), n);
    }
  }

  lemma OnChainShape(cfg: Config, p: HeaderSpec.State, n: u32)
    requires p.dr.chains != [] && Ec.FindChain(p.dr.chains, p.dr.dhr) == |p.dr.chains| - 1 && n < U32_MAX
    ensures ReceiveOnChain(cfg, p, n).Ok? <==> NextN(p) <= n <= NextN(p) + MaxSkip(cfg)
    ensures ReceiveOnChain(cfg, p, n).Ok? ==>
              var i := |p.dr.chains| - 1;
              var c := p.dr.chains[i];
              ReceiveOnChain(cfg, p, n).value ==
                (MessageKey(Adv(c.ck, n - c.nr)),
                 p.(dr := p.dr.(chains := p.dr.chains[i := Ec.Chain(c.pk, NextChain(Adv(c.ck, n - c.nr)), n + 1)],
                                skipped := StoreRange(MaxSkip(cfg), p.dr.skipped, HeaderLabel(p.hkr.key), c.ck, c.nr, n))))
  {
    hide Adv, StoreRange;
  }

  lemma AdvanceCurrent(keys: seq<key32>, pe: nat, chains: seq<Ec.Chain>, n: u32)
    requires 1 <= pe < |keys| && Base.ChainsInv(keys, pe, chains) && n < U32_MAX && chains != []
    ensures Base.ChainsInv(keys, pe, chains[|chains| - 1 := Ec.Chain(keys[pe], Adv(C(keys, pe), n + 1), n + 1)])
  {
    var c1 := chains[|chains| - 1 := Ec.Chain(keys[pe], Adv(C(keys, pe), n + 1), n + 1)];
    forall k | 0 <= k < |c1|
      ensures Base.ChainAt(keys, Base.EpochAt(pe, |c1|, k), c1[k])
    {
      assert Base.ChainAt(keys, Base.EpochAt(pe, |chains|, k), chains[k]);
    }
  }

  lemma StoreRangeInv(keys: seq<key32>, pe: nat, cap: nat, q: seq<Entry>, nr: u32, until: u32)
    requires 1 <= pe < |keys| && StoreInv(keys, pe, nr, q)
    ensures StoreInv(keys, pe, if until < nr then nr else until,
                     StoreRange(cap, q, HeaderLabel(HK(keys, pe)), Adv(C(keys, pe), nr), nr, until))
  {
    hide HK, MK;
    var lab, top := HeaderLabel(HK(keys, pe)), if until < nr then nr else until;
    var q1 := StoreRange(cap, q, lab, Adv(C(keys, pe), nr), nr, until);
    StoreRangeFacts(cap, q, lab, Adv(C(keys, pe), nr), nr, until);
    forall e | e in q1
      ensures exists j :: j <= pe && (pe - j) % 2 == 0 && FiledAt(keys, j, e) && (j == pe ==> e.id.n < top)
    {
      if e in q {
        var j :| j <= pe && (pe - j) % 2 == 0 && FiledAt(keys, j, e) && (j == pe ==> e.id.n < nr);
      } else {
        RangeEntryFiled(keys, pe, nr, until, e);
      }
    }
  }

  lemma RangeEntryFiled(keys: seq<key32>, pe: nat, nr: u32, until: u32, e: Entry)
    requires 1 <= pe < |keys| && IsRangeEntry(e, HeaderLabel(HK(keys, pe)), Adv(C(keys, pe), nr), nr, until)
    ensures FiledAt(keys, pe, e) && e.id.n < until
  {
    AdvAdv(C(keys, pe), nr, e.id.n - nr);
  }

  lemma StoreInvWeaken(keys: seq<key32>, pe: int, nr: nat, pe1: int, nr1: nat, q: seq<Entry>)
    requires StoreInv(keys, pe, nr, q)
    requires (pe1 == pe && nr1 >= nr) || pe1 == pe + 2
    ensures StoreInv(keys, pe1, nr1, q)
  {
    hide FiledAt;
    forall e | e in q
      ensures exists j :: j <= pe1 && (pe1 - j) % 2 == 0 && FiledAt(keys, j, e) && (j == pe1 ==> e.id.n < nr1)
    {
      var j :| j <= pe && (pe - j) % 2 == 0 && FiledAt(keys, j, e) && (j == pe ==> e.id.n < nr);
    }
  }

  /** Reading the current chain keeps the invariant. */
  lemma OnChainKeepsParty(cfg: Config, keys: seq<key32>, cnt: seq<nat>, r: Role, p: HeaderSpec.State, n: u32)
    requires |keys| == |cnt| >= 2 && PartyInv(keys, cnt, r, p) && KeysOk(keys, cfg.lowOrder)
    requires Base.PeerEpoch(keys, r, p.dr) >= 1 && n < U32_MAX && ReceiveOnChain(cfg, p, n).Ok?
    ensures PartyInv(keys, cnt, r, ReceiveOnChain(cfg, p, n).value.1)
    ensures ReceiveOnChain(cfg, p, n).value.0 == MK(keys, Base.PeerEpoch(keys, r, p.dr), n)
  {
    hide StoreInv, Base.ChainsInv, KeysOk, ReceiveOnChain, HK, MK, R, C, Adv, StoreRange;
    var pe := Base.PeerEpoch(keys, r, p.dr);
    OnChainOutcome(cfg, keys, pe, p, n);
    AdvanceCurrent(keys, pe, p.dr.chains, n);
    StoreRangeInv(keys, pe, MaxSkip(cfg), p.dr.skipped, NextN(p), n);
    var p1 := ReceiveOnChain(cfg, p, n).value.1;
    StoreInvWeaken(keys, pe, n, pe, n + 1, p1.dr.skipped);
  }

  /** Following the peer into its next epoch brings the next header key into use. */
  lemma RatchetRecvKeepsParty(cfg: Config, keys: seq<key32>, cnt: seq<nat>, r: Role, p: HeaderSpec.State, h: Header)
    requires |keys| == |cnt| >= 2 && PartyInv(keys, cnt, r, p) && KeysOk(keys, cfg.lowOrder)
    requires Base.PeerEpoch(keys, r, p.dr) + 2 < |keys| && h.pk == keys[Base.PeerEpoch(keys, r, p.dr) + 2]
    requires RatchetRecv(cfg, p, h, true).Ok?
    ensures var p1 := RatchetRecv(cfg, p, h, true).value;
            && PartyInv(keys, cnt, r, p1) && Base.PeerEpoch(keys, r, p1.dr) == Base.PeerEpoch(keys, r, p.dr) + 2
            && NextN(p1) == 0
  {
    hide StoreInv, Base.ChainsInv, KeysOk;
    var pe := Base.PeerEpoch(keys, r, p.dr);
    Base.PushKeepsChains(keys, pe, p.dr.chains);
    RatchetRecvKeepsStore(cfg, keys, pe, p, h);
  }

  lemma RatchetRecvKeepsStore(cfg: Config, keys: seq<key32>, pe: int, p: HeaderSpec.State, h: Header)
    requires -1 <= pe < |keys| && KeysOk(keys, cfg.lowOrder) && Base.ChainsInv(keys, pe, p.dr.chains)
    requires StoreInv(keys, pe, NextN(p), p.dr.skipped)
    requires p.dr.dhRSet == (pe >= 0) && (pe >= 0 ==> p.dr.dhr == keys[pe]) && (pe >= 1 ==> p.hkr.key == HK(keys, pe))
    requires RatchetRecv(cfg, p, h, true).Ok?
    ensures StoreInv(keys, pe + 2, 0, RatchetRecv(cfg, p, h, true).value.dr.skipped)
  {
    hide StoreInv, Base.ChainsInv, KeysOk, HK, C;
    Window.CurrentChain(keys, cfg.lowOrder, pe, p.dr);
    if pe >= 1 {
      var nr := NextN(p);
      StoreRangeInv(keys, pe, MaxSkip(cfg), p.dr.skipped, nr, h.pn);
      StoreInvWeaken(keys, pe, if h.pn < nr then nr else h.pn, pe + 2, 0, RatchetRecv(cfg, p, h, true).value.dr.skipped);
    } else {
      StoreInvWeaken(keys, pe, NextN(p), pe + 2, 0, p.dr.skipped);
    }
  }

  lemma TakeKeepsParty(keys: seq<key32>, cnt: seq<nat>, r: Role, p: HeaderSpec.State, id: Id)
    requires |keys| == |cnt| >= 2 && PartyInv(keys, cnt, r, p)
    ensures PartyInv(keys, cnt, r, p.(dr := p.dr.(skipped := Remove(p.dr.skipped, id))))
  {
    hide Base.ChainsInv, HK, StoreInv;
    TakeKeepsStore(keys, Base.PeerEpoch(keys, r, p.dr), NextN(p), p.dr.skipped, id);
  }

  lemma TakeKeepsStore(keys: seq<key32>, pe: int, nr: nat, q: seq<Entry>, id: Id)
    requires StoreInv(keys, pe, nr, q)
    ensures StoreInv(keys, pe, nr, Remove(q, id))
  {
    hide HK, Remove, FiledAt;
    RemoveFacts(q, id);
  }

  /** Where an honest header can be read: its key is filed, or it belongs to the current chain
      and lies ahead within reach, or it opens the peer's next epoch within reach. */
  predicate InWindow(cfg: Config, pe: int, p: HeaderSpec.State, header: SealedHeader, j: nat, h: Header) {
    || Filed(p.dr.skipped, header)
    || (j == pe && NextN(p) <= h.n <= NextN(p) + MaxSkip(cfg))
    || (j == pe + 2 && h.n <= MaxSkip(cfg) && (p.dr.chains != [] ==> h.pn <= NextN(p) + MaxSkip(cfg)))
  }

  /** Positions a session can still come to accept: those of later epochs, those ahead on the
      current chain, and those whose keys are filed. */
  ghost predicate Avail(keys: seq<key32>, pe: int, p: HeaderSpec.State, j: nat, n: u32) {
    || j > pe
    || (j == pe && n >= NextN(p))
    || (1 <= j < |keys| && Has(p.dr.skipped, Id(HeaderLabel(HK(keys, j)), n)))
  }

  /** The call uses up the position it accepts and makes none available. */
  ghost predicate Consumes(keys: seq<key32>, pe: int, p: HeaderSpec.State, pe1: int, p1: HeaderSpec.State, j: nat, n: u32) {
    && !Avail(keys, pe1, p1, j, n)
    && (forall i: nat, m: u32 :: Avail(keys, pe1, p1, i, m) ==> Avail(keys, pe, p, i, m))
  }

  lemma TakeConsumes(keys: seq<key32>, pe: int, p: HeaderSpec.State, header: SealedHeader, j: nat, h: Header)
    requires StoreInv(keys, pe, NextN(p), p.dr.skipped) && HonestHeader(keys, header, j, h) && Filed(p.dr.skipped, header)
    ensures Consumes(keys, pe, p, pe, p.(dr := p.dr.(skipped := Remove(p.dr.skipped, ServingId(header).value))), j, h.n)
  {
    hide HK, Remove, FiledAt, Filed, MK;
    FiledKey(keys, pe, NextN(p), p.dr.skipped, header, j, h);
    RemoveFacts(p.dr.skipped, ServingId(header).value);
  }

  lemma OnChainConsumes(cfg: Config, keys: seq<key32>, pe: nat, p: HeaderSpec.State, n: u32)
    requires KeysOk(keys, cfg.lowOrder) && 1 <= pe < |keys| && Base.ChainsInv(keys, pe, p.dr.chains) && p.dr.dhr == keys[pe]
    requires Distinct(p.dr.skipped) && p.hkr.key == HK(keys, pe)
    requires n < U32_MAX && ReceiveOnChain(cfg, p, n).Ok? && !Has(p.dr.skipped, Id(HeaderLabel(HK(keys, pe)), n))
    ensures Consumes(keys, pe, p, pe, ReceiveOnChain(cfg, p, n).value.1, pe, n)
  {
    hide HK, Base.ChainsInv, KeysOk, ReceiveOnChain, Distinct, StoreRange, C, MK, Adv, Has;
    var p1, lab := ReceiveOnChain(cfg, p, n).value.1, HeaderLabel(HK(keys, pe));
    OnChainOutcome(cfg, keys, pe, p, n);
    StoreRangeFacts(MaxSkip(cfg), p.dr.skipped, lab, Adv(C(keys, pe), NextN(p)), NextN(p), n);
    forall i: nat, m: u32 | Avail(keys, pe, p1, i, m)
      ensures Avail(keys, pe, p, i, m)
    {
      if 1 <= i < |keys| && HK(keys, i) == HK(keys, pe) {
        HKInjective(keys, i, pe);
      }
    }
  }

  lemma RatchetRecvAvail(cfg: Config, keys: seq<key32>, pe: int, p: HeaderSpec.State, h: Header, n: u32)
    requires KeysOk(keys, cfg.lowOrder) && -1 <= pe < |keys| && Base.ChainsInv(keys, pe, p.dr.chains)
    requires p.dr.dhRSet == (pe >= 0) && (pe >= 0 ==> p.dr.dhr == keys[pe]) && (pe >= 1 ==> p.hkr.key == HK(keys, pe))
    requires Distinct(p.dr.skipped) && RatchetRecv(cfg, p, h, true).Ok?
    ensures forall i: nat, m: u32 :: Avail(keys, pe + 2, RatchetRecv(cfg, p, h, true).value, i, m) ==> Avail(keys, pe, p, i, m)
    ensures Distinct(RatchetRecv(cfg, p, h, true).value.dr.skipped)
    ensures pe + 2 < |keys| && Has(RatchetRecv(cfg, p, h, true).value.dr.skipped, Id(HeaderLabel(HK(keys, pe + 2)), n)) ==>
              Has(p.dr.skipped, Id(HeaderLabel(HK(keys, pe + 2)), n))
  {
    hide HK, Base.ChainsInv, KeysOk, Distinct, StoreRange, Has;
    Window.CurrentChain(keys, cfg.lowOrder, pe, p.dr);
    var p1 := RatchetRecv(cfg, p, h, true).value;
    if pe >= 1 {
      StoreRangeFacts(MaxSkip(cfg), p.dr.skipped, HeaderLabel(HK(keys, pe)), p.dr.chains[|p.dr.chains| - 1].ck, NextN(p), h.pn);
    }
    forall i: nat, m: u32 | 1 <= i < |keys| && Has(p1.dr.skipped, Id(HeaderLabel(HK(keys, i)), m))
      ensures Has(p.dr.skipped, Id(HeaderLabel(HK(keys, i)), m)) || (i == pe && m >= NextN(p))
    {
      if pe >= 1 && HK(keys, i) == HK(keys, pe) {
        HKInjective(keys, i, pe);
      }
    }
  }

  // ---- The outcome of an honest header ------------------------------------------------------

  lemma CurrentOutcome(cfg: Config, p: HeaderSpec.State, header: SealedHeader, h: Header)
    requires !Filed(p.dr.skipped, header) && Opens(p.hkr.key, header) && DecodeHeader(header.header) == Ok(h) && h.n < U32_MAX
    requires p.dr.dhRSet && p.dr.dhr == h.pk
    ensures ReceiveKey(cfg, p, header) == ReceiveOnChain(cfg, p, h.n)
  {
    hide Filed, ReceiveOnChain, RatchetRecv;
  }

  lemma NextOutcome(cfg: Config, p: HeaderSpec.State, header: SealedHeader, h: Header)
    requires !Filed(p.dr.skipped, header) && !Opens(p.hkr.key, header) && Opens(p.nhkr.key, header)
    requires DecodeHeader(header.header) == Ok(h) && h.n < U32_MAX
    ensures ReceiveKey(cfg, p, header).Ok? <==> RatchetRecv(cfg, p, h, true).Ok? && ReceiveOnChain(cfg, RatchetRecv(cfg, p, h, true).value, h.n).Ok?
    ensures ReceiveKey(cfg, p, header).Ok? ==> ReceiveKey(cfg, p, header) == ReceiveOnChain(cfg, RatchetRecv(cfg, p, h, true).value, h.n)
  {
    hide Filed, ReceiveOnChain, RatchetRecv;
  }

  lemma NoOutcome(cfg: Config, p: HeaderSpec.State, header: SealedHeader)
    requires !Filed(p.dr.skipped, header) && !Opens(p.hkr.key, header) && !Opens(p.nhkr.key, header)
    ensures ReceiveKey(cfg, p, header) == Err(AuthFailure)
  {}

  /** What a call does with an honest header, whatever ciphertext comes with it. */
  ghost predicate Outcome(cfg: Config, keys: seq<key32>, cnt: seq<nat>, r: Role, p: HeaderSpec.State, header: SealedHeader, j: nat, h: Header)
    requires |keys| == |cnt| >= 2 && 1 <= j < |keys|
  {
    var pe, res := Base.PeerEpoch(keys, r, p.dr), ReceiveKey(cfg, p, header);
    && (res.Ok? <==> InWindow(cfg, pe, p, header, j, h))
    && (res.Ok? ==>
          var p1 := res.value.1;
          && res.value.0 == MK(keys, j, h.n)
          && j <= pe + 2 && (pe - j) % 2 == 0
          && PartyInv(keys, cnt, r, p1)
          && Avail(keys, pe, p, j, h.n)
          && Consumes(keys, pe, p, Base.PeerEpoch(keys, r, p1.dr), p1, j, h.n))
  }

  lemma FiledOutcome(cfg: Config, keys: seq<key32>, cnt: seq<nat>, r: Role, p: HeaderSpec.State, header: SealedHeader, j: nat, h: Header)
    requires |keys| == |cnt| >= 2 && PartyInv(keys, cnt, r, p)
    requires HonestHeader(keys, header, j, h) && h.n < U32_MAX && Filed(p.dr.skipped, header)
    ensures Outcome(cfg, keys, cnt, r, p, header, j, h)
  {
    hide RatchetInv, StoreInv, HeaderKeysInv, PartyInv, Consumes, HK, MK, Filed, Remove;
    var pe := Base.PeerEpoch(keys, r, p.dr);
    PartyStore(keys, cnt, r, p);
    FiledKey(keys, pe, NextN(p), p.dr.skipped, header, j, h);
    TakeKeepsParty(keys, cnt, r, p, ServingId(header).value);
    TakeConsumes(keys, pe, p, header, j, h);
    FiledAvail(keys, pe, p, header, j, h);
  }

  lemma PartyStore(keys: seq<key32>, cnt: seq<nat>, r: Role, p: HeaderSpec.State)
    requires |keys| == |cnt| >= 2 && PartyInv(keys, cnt, r, p)
    ensures StoreInv(keys, Base.PeerEpoch(keys, r, p.dr), NextN(p), p.dr.skipped) && Distinct(p.dr.skipped)
  {
    hide RatchetInv, HeaderKeysInv;
  }

  lemma FiledAvail(keys: seq<key32>, pe: int, p: HeaderSpec.State, header: SealedHeader, j: nat, h: Header)
    requires HonestHeader(keys, header, j, h)
    ensures Filed(p.dr.skipped, header) <==> Has(p.dr.skipped, Id(HeaderLabel(HK(keys, j)), h.n))
    ensures Filed(p.dr.skipped, header) ==> Avail(keys, pe, p, j, h.n)
  {
    hide HK, Has;
    HonestOpens(keys, header, j, h);
  }

  lemma CurrentEpochOutcome(cfg: Config, keys: seq<key32>, cnt: seq<nat>, r: Role, p: HeaderSpec.State, header: SealedHeader, j: nat, h: Header)
    requires |keys| == |cnt| >= 2 && PartyInv(keys, cnt, r, p) && KeysOk(keys, cfg.lowOrder)
    requires HonestHeader(keys, header, j, h) && h.n < U32_MAX && !Filed(p.dr.skipped, header)
    requires j == Base.PeerEpoch(keys, r, p.dr)
    ensures Outcome(cfg, keys, cnt, r, p, header, j, h)
  {
    hide StoreInv, HK, MK, Filed, Consumes, ReceiveKey, ReceiveOnChain, Base.ChainsInv, KeysOk, C, R, Opens, Distinct;
    HonestOpens(keys, header, j, h);
    OpenedBy(keys, Base.OwnEpoch(keys, r), j, p, header, j, h);
    CurrentOutcome(cfg, p, header, h);
    PartyStore(keys, cnt, r, p);
    OnChainOutcome(cfg, keys, j, p, h.n);
    FiledAvail(keys, j, p, header, j, h);
    if ReceiveKey(cfg, p, header).Ok? {
      OnChainKeepsParty(cfg, keys, cnt, r, p, h.n);
      OnChainConsumes(cfg, keys, j, p, h.n);
    }
  }

  lemma RatchetRecvExactly(cfg: Config, keys: seq<key32>, pe: int, p: HeaderSpec.State, h: Header)
    requires KeysOk(keys, cfg.lowOrder) && -1 <= pe && pe + 2 < |keys| && h.pk == keys[pe + 2] && Base.ChainsInv(keys, pe, p.dr.chains)
    requires p.dr.dhRSet == (pe >= 0) && (pe >= 0 ==> p.dr.dhr == keys[pe])
    ensures RatchetRecv(cfg, p, h, true).Ok? <==> (p.dr.chains != [] ==> h.pn <= NextN(p) + MaxSkip(cfg))
  {
    hide Base.ChainsInv, StoreRange;
    Window.CurrentChain(keys, cfg.lowOrder, pe, p.dr);
  }

  lemma NextEpochOutcome(cfg: Config, keys: seq<key32>, cnt: seq<nat>, r: Role, p: HeaderSpec.State, header: SealedHeader, j: nat, h: Header)
    requires |keys| == |cnt| >= 2 && PartyInv(keys, cnt, r, p) && KeysOk(keys, cfg.lowOrder)
    requires HonestHeader(keys, header, j, h) && h.n < U32_MAX && !Filed(p.dr.skipped, header)
    requires j == Base.PeerEpoch(keys, r, p.dr) + 2
    ensures Outcome(cfg, keys, cnt, r, p, header, j, h)
  {
    hide StoreInv, HK, MK, Filed, Consumes, ReceiveKey, ReceiveOnChain, RatchetRecv, Base.ChainsInv, KeysOk, C, R, Opens, Distinct, Adv, Has, StoreRange, EncodeHeader, DecodeHeader;
    var pe := Base.PeerEpoch(keys, r, p.dr);
    HonestOpens(keys, header, j, h);
    OpenedBy(keys, Base.OwnEpoch(keys, r), pe, p, header, j, h);
    NextOutcome(cfg, p, header, h);
    RatchetRecvExactly(cfg, keys, pe, p, h);
    if RatchetRecv(cfg, p, h, true).Ok? {
      var p1 := RatchetRecv(cfg, p, h, true).value;
      RatchetRecvKeepsParty(cfg, keys, cnt, r, p, h);
      OnChainOutcome(cfg, keys, j, p1, h.n);
      if ReceiveOnChain(cfg, p1, h.n).Ok? {
        NextEpochConsumes(cfg, keys, cnt, r, p, header, j, h);
      }
    }
  }

  lemma NextEpochConsumes(cfg: Config, keys: seq<key32>, cnt: seq<nat>, r: Role, p: HeaderSpec.State, header: SealedHeader, j: nat, h: Header)
    requires |keys| == |cnt| >= 2 && PartyInv(keys, cnt, r, p) && KeysOk(keys, cfg.lowOrder)
    requires HonestHeader(keys, header, j, h) && h.n < U32_MAX && !Filed(p.dr.skipped, header)
    requires j == Base.PeerEpoch(keys, r, p.dr) + 2
    requires RatchetRecv(cfg, p, h, true).Ok? && ReceiveOnChain(cfg, RatchetRecv(cfg, p, h, true).value, h.n).Ok?
    ensures var p2 := ReceiveOnChain(cfg, RatchetRecv(cfg, p, h, true).value, h.n).value.1;
            PartyInv(keys, cnt, r, p2) && Consumes(keys, j - 2, p, Base.PeerEpoch(keys, r, p2.dr), p2, j, h.n)
  {
    hide StoreInv, HK, MK, Filed, Avail, ReceiveOnChain, RatchetRecv, Base.ChainsInv, KeysOk, C, R, Distinct, Has;
    var p1 := RatchetRecv(cfg, p, h, true).value;
    PartyStore(keys, cnt, r, p);
    RatchetRecvKeepsParty(cfg, keys, cnt, r, p, h);
    RatchetRecvAvail(cfg, keys, j - 2, p, h, h.n);
    FiledAvail(keys, j - 2, p, header, j, h);
    OnChainOutcome(cfg, keys, j, p1, h.n);
    OnChainKeepsParty(cfg, keys, cnt, r, p1, h.n);
    OnChainConsumes(cfg, keys, j, p1, h.n);
  }

  lemma NoOpenerOutcome(cfg: Config, keys: seq<key32>, cnt: seq<nat>, r: Role, p: HeaderSpec.State, header: SealedHeader, j: nat, h: Header)
    requires |keys| == |cnt| >= 2 && PartyInv(keys, cnt, r, p)
    requires HonestHeader(keys, header, j, h) && h.n < U32_MAX && !Filed(p.dr.skipped, header)
    requires j != Base.PeerEpoch(keys, r, p.dr) && j != Base.PeerEpoch(keys, r, p.dr) + 2
    ensures Outcome(cfg, keys, cnt, r, p, header, j, h)
  {
    hide StoreInv, RatchetInv, HK, Filed, ReceiveKey, Opens;
    OpenedBy(keys, Base.OwnEpoch(keys, r), Base.PeerEpoch(keys, r, p.dr), p, header, j, h);
    NoOutcome(cfg, p, header);
  }

  lemma HonestOutcome(cfg: Config, keys: seq<key32>, cnt: seq<nat>, r: Role, p: HeaderSpec.State, header: SealedHeader, j: nat, h: Header)
    requires |keys| == |cnt| >= 2 && PartyInv(keys, cnt, r, p) && KeysOk(keys, cfg.lowOrder)
    requires HonestHeader(keys, header, j, h) && h.n < U32_MAX
    ensures Outcome(cfg, keys, cnt, r, p, header, j, h)
  {
    hide PartyInv, KeysOk, Filed, Outcome, HonestHeader;
    var pe := Base.PeerEpoch(keys, r, p.dr);
    assert 1 <= j < |keys| by {
      HonestIndex(keys, header, j, h);
    }
    if Filed(p.dr.skipped, header) {
      FiledOutcome(cfg, keys, cnt, r, p, header, j, h);
    } else if j == pe {
      CurrentEpochOutcome(cfg, keys, cnt, r, p, header, j, h);
    } else if j == pe + 2 {
      NextEpochOutcome(cfg, keys, cnt, r, p, header, j, h);
    } else {
      NoOpenerOutcome(cfg, keys, cnt, r, p, header, j, h);
    }
  }

  lemma HonestIndex(keys: seq<key32>, header: SealedHeader, j: nat, h: Header)
    requires HonestHeader(keys, header, j, h)
    ensures 1 <= j < |keys|
  {}

  // ---- What a successful delivery proves ---------------------------------------------------

  /** Whatever key opens a header, the network cannot compute it. */
  lemma OpenerSecret(cfg: Config, keys: seq<key32>, cnt: seq<nat>, r: Role, p: HeaderSpec.State, header: SealedHeader)
    requires |keys| == |cnt| >= 2 && PartyInv(keys, cnt, r, p) && ReceiveKey(cfg, p, header).Ok?
    ensures header.SealedHeader? && SecretBased(header.hk)
  {
    hide RatchetInv, HK, MK, ReceiveOpened, Remove;
    var me, pe := Base.OwnEpoch(keys, r), Base.PeerEpoch(keys, r, p.dr);
    if Filed(p.dr.skipped, header) {
      FiledSecret(keys, pe, NextN(p), p.dr.skipped, header);
    } else {
      if pe >= 1 {
        HKSecret(keys, pe);
      }
      HKSecret(keys, pe + 2);
    }
  }

  lemma FiledSecret(keys: seq<key32>, pe: int, nr: nat, q: seq<Entry>, header: SealedHeader)
    requires StoreInv(keys, pe, nr, q) && Filed(q, header)
    ensures header.SealedHeader? && SecretBased(header.hk)
  {
    hide HK, MK;
    var e := q[Find(q, ServingId(header).value)];
    assert e in q;
    var l :| l <= pe && (pe - l) % 2 == 0 && FiledAt(keys, l, e) && (l == pe ==> e.id.n < nr);
    HKSecret(keys, l);
  }

  lemma LogHonest(w: Base.World, s: System, i: nat)
    requires Inv(w, s) && i < |s.log|
    ensures 1 <= s.log[i].epoch < |s.keys|
    ensures HonestHeader(s.keys, s.log[i].msg.header, s.log[i].epoch, s.log[i].header) && s.log[i].header.n < U32_MAX
    ensures s.log[i].msg.ct == Sealed(MK(s.keys, s.log[i].epoch, s.log[i].header.n),
                                      HeaderAD(Base.Cfg(w, Owner(s.log[i].epoch)), s.log[i].msg.header, s.log[i].ad, true), s.log[i].text)
  {
    hide PartyInv, KeysOk, HK, MK, EncodeHeader;
    assert LogAt(w, s.keys, s.cnt, s.log[i]);
  }

  /** The log entry whose header was delivered, and what the call makes of it. */
  lemma HeaderIdentified(w: Base.World, s: System, r: Role, m: HeMessage) returns (i: nat)
    requires Base.Proper(w) && Inv(w, s) && Obtainable(s, m)
    requires ReceiveKey(Base.Cfg(w, r), Party(s, r), m.header).Ok?
    ensures i < |s.log| && s.log[i].msg.header == m.header && 1 <= s.log[i].epoch < |s.keys|
    ensures Outcome(Base.Cfg(w, r), s.keys, s.cnt, r, Party(s, r), m.header, s.log[i].epoch, s.log[i].header)
  {
    hide PartyInv, KeysOk, Outcome, LogAt, ReceiveKey, HonestHeader;
    var cfg, p := Base.Cfg(w, r), Party(s, r);
    OpenerSecret(cfg, s.keys, s.cnt, r, p, m.header);
    i :| 0 <= i < |s.log| && s.log[i].msg.header == m.header;
    LogHonest(w, s, i);
    HonestOutcome(cfg, s.keys, s.cnt, r, p, m.header, s.log[i].epoch, s.log[i].header);
  }

  lemma PeerParity(keys: seq<key32>, r: Role, p: Ec.State, j: nat)
    requires |keys| >= 2 && (Base.PeerEpoch(keys, r, p) - j) % 2 == 0
    requires Owner(|keys| - 1) == r ==> !p.pending
    ensures Owner(j) == Peer(r)
  {}

  lemma OutcomePeer(cfg: Config, keys: seq<key32>, cnt: seq<nat>, r: Role, p: HeaderSpec.State, header: SealedHeader, j: nat, h: Header)
    requires |keys| == |cnt| >= 2 && 1 <= j < |keys|
    requires PartyInv(keys, cnt, r, p) && Outcome(cfg, keys, cnt, r, p, header, j, h) && ReceiveKey(cfg, p, header).Ok?
    ensures Owner(j) == Peer(r) && ReceiveKey(cfg, p, header).value.0 == MK(keys, j, h.n)
    ensures PartyInv(keys, cnt, r, ReceiveKey(cfg, p, header).value.1)
    ensures var pe, p1 := Base.PeerEpoch(keys, r, p.dr), ReceiveKey(cfg, p, header).value.1;
            Avail(keys, pe, p, j, h.n) && Consumes(keys, pe, p, Base.PeerEpoch(keys, r, p1.dr), p1, j, h.n)
  {
    hide StoreInv, HeaderKeysInv, ReceiveKey, Avail, MK, Consumes, InWindow, Base.ChainsInv;
    PeerParity(keys, r, p.dr, j);
  }

  /** Delivery soundness: what a session accepts is what the peer sent, header, ciphertext and
      associated data together. */
  lemma DeliverySound(w: Base.World, s: System, r: Role, m: HeMessage, ad: bytes) returns (k: nat)
    requires Base.Proper(w) && Inv(w, s) && Obtainable(s, m)
    requires Decrypt(Base.Cfg(w, r), Party(s, r), m, ad).0.Ok?
    ensures k < |s.log| && s.log[k].msg == m && s.log[k].ad == ad && Owner(s.log[k].epoch) == Peer(r)
    ensures Decrypt(Base.Cfg(w, r), Party(s, r), m, ad).0 == Ok(s.log[k].text)
    ensures ReceiveKey(Base.Cfg(w, r), Party(s, r), m.header).Ok? && 1 <= s.log[k].epoch < |s.keys|
    ensures Outcome(Base.Cfg(w, r), s.keys, s.cnt, r, Party(s, r), m.header, s.log[k].epoch, s.log[k].header)
  {
    hide PartyInv, KeysOk, Outcome, LogAt, ReceiveKey, HonestHeader, MK, IdentityPrefix;
    var cfg, p := Base.Cfg(w, r), Party(s, r);
    var i := HeaderIdentified(w, s, r, m);
    OutcomePeer(cfg, s.keys, s.cnt, r, p, m.header, s.log[i].epoch, s.log[i].header);
    MKSecret(s.keys, s.log[i].epoch, s.log[i].header.n);
    k :| 0 <= k < |s.log| && s.log[k].msg.ct == m.ct;
    LogHonest(w, s, k);
    MKInjective(s.keys, s.log[i].epoch, s.log[i].header.n, s.log[k].epoch, s.log[k].header.n);
    PairedPrefix(Base.Cfg(w, Peer(r)), cfg);
    SplitEqual(IdentityPrefix(cfg, false), ad, IdentityPrefix(Base.Cfg(w, Peer(r)), true), s.log[k].ad);
    SameHeader(w, s, i, k);
  }

  /** One header is sealed once: entries with equal sealed headers have equal headers. */
  lemma SameHeader(w: Base.World, s: System, i: nat, k: nat)
    requires Inv(w, s) && i < |s.log| && k < |s.log| && s.log[i].msg.header == s.log[k].msg.header
    ensures s.log[i].header == s.log[k].header
  {
    hide PartyInv, KeysOk, HK, MK, EncodeHeader;
    assert LogAt(w, s.keys, s.cnt, s.log[i]) && LogAt(w, s.keys, s.cnt, s.log[k]);
    EncodeHeaderInjective(s.log[i].header, s.log[k].header);
  }

  lemma DeliverInv(w: Base.World, s: System, r: Role, m: HeMessage, ad: bytes)
    requires Base.Proper(w) && Inv(w, s) && Obtainable(s, m)
    ensures Inv(w, Step(w, s, Deliver(r, m, ad)))
  {
    hide PartyInv, KeysOk, Outcome, LogAt, ReceiveKey;
    if Decrypt(Base.Cfg(w, r), Party(s, r), m, ad).0.Ok? {
      var k := DeliverySound(w, s, r, m, ad);
      OutcomePeer(Base.Cfg(w, r), s.keys, s.cnt, r, Party(s, r), m.header, s.log[k].epoch, s.log[k].header);
    }
  }

  // ---- Sending -----------------------------------------------------------------------------

  lemma StoreInvExtends(keys: seq<key32>, k: key32, pe: int, nr: nat, q: seq<Entry>)
    requires StoreInv(keys, pe, nr, q)
    ensures StoreInv(keys + [k], pe, nr, q)
  {
    hide HK;
    CExtends(keys, k);
    forall e | e in q
      ensures exists j :: j <= pe && (pe - j) % 2 == 0 && FiledAt(keys + [k], j, e) && (j == pe ==> e.id.n < nr)
    {
      var j :| j <= pe && (pe - j) % 2 == 0 && FiledAt(keys, j, e) && (j == pe ==> e.id.n < nr);
      HKExtends(keys, k, j);
      assert FiledAt(keys + [k], j, e);
    }
  }

  /** The party that did not ratchet is unaffected by the peer's new key. */
  lemma PeerRatchetKeepsParty(keys: seq<key32>, cnt: seq<nat>, r: Role, p: HeaderSpec.State, k: key32)
    requires |keys| == |cnt| >= 2 && PartyInv(keys, cnt, r, p) && Owner(|keys| - 1) == r
    ensures PartyInv(keys + [k], cnt + [0], r, p)
  {
    hide StoreInv, Base.ChainsInv, HK;
    var me, pe := Base.OwnEpoch(keys, r), Base.PeerEpoch(keys, r, p.dr);
    CExtends(keys, k);
    RExtends(keys, k, |keys| - 1);
    StoreInvExtends(keys, k, pe, NextN(p), p.dr.skipped);
    Base.ChainsInvExtends(keys, k, pe, p.dr.chains);
    HeaderKeysExtend(keys, k, me, pe, p);
  }

  lemma HeaderKeysExtend(keys: seq<key32>, k: key32, me: nat, pe: int, p: HeaderSpec.State)
    requires me < |keys| && -1 <= pe < |keys| && HeaderKeysInv(keys, me, pe, p)
    ensures HeaderKeysInv(keys + [k], me, pe, p)
  {
    hide HK;
    if me > 0 {
      HKExtends(keys, k, me);
    }
    HKExtends(keys, k, me + 2);
    if pe > 0 {
      HKExtends(keys, k, pe);
    }
    HKExtends(keys, k, pe + 2);
  }

  /** Taking the owed sending step adds one key to the history and brings the next sending
      header key into use. */
  lemma RatchetSendKeepsParty(cfg: Config, keys: seq<key32>, cnt: seq<nat>, r: Role, p: HeaderSpec.State, k: key32)
    requires |keys| == |cnt| >= 2 && PartyInv(keys, cnt, r, p) && p.dr.pending && KeysOk(keys, cfg.lowOrder)
    ensures RatchetSend(cfg, p, Some(k)).0.None?
    ensures PartyInv(keys + [k], cnt + [0], r, RatchetSend(cfg, p, Some(k)).1)
  {
    hide StoreInv, Base.ChainsInv, HK, HeaderKeysInv;
    var me, pe, p1 := Base.OwnEpoch(keys, r), Base.PeerEpoch(keys, r, p.dr), RatchetSend(cfg, p, Some(k)).1;
    RExtends(keys, k, |keys| - 1);
    StoreInvExtends(keys, k, pe, NextN(p), p.dr.skipped);
    Base.ChainsInvExtends(keys, k, pe, p.dr.chains);
    DhCommutes(p.dr.dhr, k);
    RatchetSendKeys(cfg, keys, p, k);
  }

  lemma RatchetSendKeys(cfg: Config, keys: seq<key32>, p: HeaderSpec.State, k: key32)
    requires |keys| >= 2 && HeaderKeysInv(keys, |keys| - 2, |keys| - 1, p)
    requires p.dr.rk == R(keys, |keys| - 1) && p.dr.dhr == keys[|keys| - 1] && p.dr.dhRSet && p.dr.dhr !in cfg.lowOrder
    ensures HeaderKeysInv(keys + [k], |keys|, |keys| - 1, RatchetSend(cfg, p, Some(k)).1)
  {
    hide HK, R;
    var last := |keys| - 1;
    HKExtends(keys, k, last + 1);
    HKExtends(keys, k, last);
    HKExtends(keys, k, last + 2);
    NewHeaderKey(keys, k);
    DhCommutes(keys[last], k);
  }

  lemma NewHeaderKey(keys: seq<key32>, k: key32)
    requires |keys| >= 1
    ensures HK(keys + [k], |keys| + 2) == NextHeaderKey(R(keys, |keys| - 1), Dh(keys[|keys| - 1], k))
  {
    RExtends(keys, k, |keys| - 1);
  }

  /** The system after `r` has taken the sending step it owes, before it sends. */
  function Ratcheted(w: Base.World, s: System, r: Role, k: key32): System {
    SetParty(s, r, RatchetSend(Base.Cfg(w, r), Party(s, r), Some(k)).1).(keys := s.keys + [k], cnt := s.cnt + [0])
  }

  lemma LogExtends(w: Base.World, keys: seq<key32>, cnt: seq<nat>, k: key32, e: Sent)
    requires |keys| == |cnt| && LogAt(w, keys, cnt, e)
    ensures LogAt(w, keys + [k], cnt + [0], e)
  {
    hide HK, EncodeHeader, HeaderAD;
    CExtends(keys, k);
    HKExtends(keys, k, e.epoch);
  }

  lemma PartyOwner(w: Base.World, s: System, r: Role)
    requires Inv(w, s) && Party(s, r).dr.pending
    ensures Owner(|s.keys| - 1) == Peer(r) && !Party(s, Peer(r)).dr.pending
  {
    hide StoreInv, Base.ChainsInv, HeaderKeysInv, LogAt;
  }

  lemma NextKeySet(keys: seq<key32>, cnt: seq<nat>, r: Role, p: HeaderSpec.State)
    requires |keys| == |cnt| >= 2 && PartyInv(keys, cnt, r, p)
    ensures p.nhks.key != Zeroed && p.nhks.nonce == 0
  {
    hide RatchetInv, StoreInv, HK;
    HKSecret(keys, Base.OwnEpoch(keys, r) + 2);
  }

  lemma RatchetedInv(w: Base.World, s: System, r: Role, k: key32)
    requires Base.Proper(w) && Inv(w, s) && Party(s, r).dr.pending && Fresh(s.keys, w.init.lowOrder, k)
    ensures Inv(w, Ratcheted(w, s, r, k)) && RatchetSend(Base.Cfg(w, r), Party(s, r), Some(k)).0.None?
    ensures Party(s, r).nhks.key != Zeroed && Party(s, r).nhks.nonce == 0
  {
    hide PartyInv, LogAt;
    PartyOwner(w, s, r);
    NextKeySet(s.keys, s.cnt, r, Party(s, r));
    RatchetSendKeepsParty(Base.Cfg(w, r), s.keys, s.cnt, r, Party(s, r), k);
    PeerRatchetKeepsParty(s.keys, s.cnt, Peer(r), Party(s, Peer(r)), k);
    forall i | 0 <= i < |s.log|
      ensures LogAt(w, s.keys + [k], s.cnt + [0], s.log[i])
    {
      LogExtends(w, s.keys, s.cnt, k, s.log[i]);
    }
  }

  lemma SendKeepsParty(cfg: Config, keys: seq<key32>, cnt: seq<nat>, r: Role, p: HeaderSpec.State, text: bytes, ad: bytes, gen: Option<key32>)
    requires |keys| == |cnt| >= 2 && PartyInv(keys, cnt, r, p) && !p.dr.pending && p.dr.ns < U32_MAX
    ensures Base.OwnEpoch(keys, r) == 0 ==> Encrypt(cfg, p, text, ad, gen) == (Err(SessionNotInitialized), p)
    ensures Base.OwnEpoch(keys, r) != 0 ==>
              var j := Base.OwnEpoch(keys, r);
              PartyInv(keys, cnt[j := cnt[j] + 1], r, Encrypt(cfg, p, text, ad, gen).1)
  {
    hide StoreInv, Base.ChainsInv, HeaderAD, HK, EncodeHeader, R;
    var j := Base.OwnEpoch(keys, r);
    if j != 0 {
      HKSecret(keys, j);
    }
  }

  lemma SendKeepsPeer(keys: seq<key32>, cnt: seq<nat>, r: Role, p: HeaderSpec.State, c: nat)
    requires |keys| == |cnt| >= 2 && PartyInv(keys, cnt, Peer(r), p)
    ensures PartyInv(keys, cnt[Base.OwnEpoch(keys, r) := c], Peer(r), p)
  {
    hide StoreInv, Base.ChainsInv, HeaderKeysInv;
  }

  lemma SendKeepsLog(w: Base.World, keys: seq<key32>, cnt: seq<nat>, r: Role, e: Sent)
    requires |keys| == |cnt| >= 2 && LogAt(w, keys, cnt, e)
    ensures var j := Base.OwnEpoch(keys, r);
            LogAt(w, keys, cnt[j := cnt[j] + 1], e) && (e.epoch == j ==> e.header.n < cnt[j])
  {
    hide HeaderAD, HK, MK, EncodeHeader;
  }

  lemma SentIsNext(w: Base.World, keys: seq<key32>, cnt: seq<nat>, r: Role, p: HeaderSpec.State, text: bytes, ad: bytes, gen: Option<key32>)
    requires |keys| == |cnt| >= 2 && PartyInv(keys, cnt, r, p) && !p.dr.pending && p.dr.ns < U32_MAX && Base.OwnEpoch(keys, r) != 0
    ensures var j, res := Base.OwnEpoch(keys, r), Encrypt(Base.Cfg(w, r), p, text, ad, gen).0;
            var h := Header(p.dr.dhs, p.dr.pn, p.dr.ns);
            && res.Ok? && res.value.header.SealedHeader? && res.value.header.header == EncodeHeader(h) && h.n == cnt[j]
            && LogAt(w, keys, cnt[j := cnt[j] + 1], Sent(j, ad, text, h, res.value))
  {
    hide StoreInv, Base.ChainsInv, HeaderAD, HK, EncodeHeader, R;
    HKSecret(keys, Base.OwnEpoch(keys, r));
  }

  /** What `Encrypt` outputs on the current chain is the next message of its epoch. */
  lemma SentEntry(w: Base.World, s: System, r: Role, text: bytes, ad: bytes, gen: Option<key32>)
    requires Inv(w, s) && !Party(s, r).dr.pending && Party(s, r).dr.ns < U32_MAX && Base.OwnEpoch(s.keys, r) != 0
    ensures var s1, j := Step(w, s, Send(r, text, ad, gen)), Base.OwnEpoch(s.keys, r);
            && |s1.log| == |s.log| + 1 && s1.log[..|s.log|] == s.log && s1.keys == s.keys && s1.cnt == s.cnt[j := s.cnt[j] + 1]
            && s1.log[|s.log|].epoch == j && s1.log[|s.log|].header.n == s.cnt[j] && LogAt(w, s1.keys, s1.cnt, s1.log[|s.log|])
            && Party(s1, r) == Encrypt(Base.Cfg(w, r), Party(s, r), text, ad, gen).1 && Party(s1, Peer(r)) == Party(s, Peer(r))
  {
    hide PartyInv, KeysOk, LogAt, Encrypt, EncodeHeader, DecodeHeader;
    SentIsNext(w, s.keys, s.cnt, r, Party(s, r), text, ad, gen);
    DecodeEncodeHeader(Header(Party(s, r).dr.dhs, Party(s, r).dr.pn, Party(s, r).dr.ns));
  }

  lemma SendOnChainInv(w: Base.World, s: System, r: Role, text: bytes, ad: bytes, gen: Option<key32>)
    requires Base.Proper(w) && Inv(w, s) && !Party(s, r).dr.pending && Party(s, r).dr.ns < U32_MAX
    ensures Inv(w, Step(w, s, Send(r, text, ad, gen)))
  {
    hide PartyInv, LogAt, KeysOk, Encrypt, Step;
    var j, s1 := Base.OwnEpoch(s.keys, r), Step(w, s, Send(r, text, ad, gen));
    SendKeepsParty(Base.Cfg(w, r), s.keys, s.cnt, r, Party(s, r), text, ad, gen);
    SendKeepsPeer(s.keys, s.cnt, r, Party(s, Peer(r)), s.cnt[j] + 1);
    if j != 0 {
      SentEntry(w, s, r, text, ad, gen);
      forall i | 0 <= i < |s.log|
        ensures LogAt(w, s1.keys, s1.cnt, s.log[i])
        ensures s.log[i].epoch == j ==> s.log[i].header.n < s.cnt[j]
      {
        SendKeepsLog(w, s.keys, s.cnt, r, s.log[i]);
      }
    } else {
      NothingSent(w, s, r, text, ad, gen);
    }
  }

  lemma NothingSent(w: Base.World, s: System, r: Role, text: bytes, ad: bytes, gen: Option<key32>)
    requires |s.keys| == |s.cnt| >= 2
    requires Encrypt(Base.Cfg(w, r), Party(s, r), text, ad, gen) == (Err(SessionNotInitialized), Party(s, r))
    ensures Step(w, s, Send(r, text, ad, gen)) == s
  {
    hide Encrypt;
  }

  /** A send that owes a DH step is that step followed by a send that owes none. */
  lemma StepRatcheted(w: Base.World, s: System, r: Role, text: bytes, ad: bytes, gen: Option<key32>)
    requires |s.keys| == |s.cnt| >= 2 && Party(s, r).dr.pending && gen.Some?
    requires RatchetSend(Base.Cfg(w, r), Party(s, r), gen).0.None?
    requires Party(s, r).nhks.key != Zeroed && Party(s, r).nhks.nonce == 0
    ensures Step(w, s, Send(r, text, ad, gen)) == Step(w, Ratcheted(w, s, r, gen.value), Send(r, text, ad, gen))
    ensures !Party(Ratcheted(w, s, r, gen.value), r).dr.pending && Party(Ratcheted(w, s, r, gen.value), r).dr.ns == 0
  {
    hide HeaderAD, DecodeHeader, EncodeHeader;
    var s1 := Ratcheted(w, s, r, gen.value);
    DecodeEncodeHeader(Header(Party(s1, r).dr.dhs, Party(s1, r).dr.pn, 0));
    assert Encrypt(Base.Cfg(w, r), Party(s, r), text, ad, gen) == Encrypt(Base.Cfg(w, r), Party(s1, r), text, ad, gen);
  }

  lemma StepInv(w: Base.World, s: System, a: Action)
    requires Base.Proper(w) && Inv(w, s) && Enabled(w, s, a)
    ensures Inv(w, Step(w, s, a))
  {
    hide Inv, Step, RatchetSend, Obtainable, Base.Proper;
    match a
    case Send(r, text, ad, gen) =>
      InvSize(w, s);
      if Party(s, r).dr.pending {
        RatchetedInv(w, s, r, gen.value);
        StepRatcheted(w, s, r, text, ad, gen);
        SendOnChainInv(w, Ratcheted(w, s, r, gen.value), r, text, ad, gen);
      } else {
        SendOnChainInv(w, s, r, text, ad, gen);
      }
    case Deliver(r, m, ad) => DeliverInv(w, s, r, m, ad);
  }

  lemma InvSize(w: Base.World, s: System)
    requires Inv(w, s)
    ensures |s.keys| == |s.cnt| >= 2
  {}
}
