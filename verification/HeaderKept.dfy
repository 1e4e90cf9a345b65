/** What accepting a message costs a header-encryption session: while the store has room, nothing. */
module HeaderKept {
  import opened Bytes
  import opened Terms
  import opened Wire
  import opened SkippedQueue
  import opened History
  import opened HeaderSpec
  import opened HeaderRuns
  import opened HeaderTheorems
  import Base = BaseRuns
  import Window = BaseTheorems

  /** How many keys a call may file for a header of epoch `j`: the positions passed over, and the unread
      rest of the epoch left. */
  function Filings(pe: int, p: HeaderSpec.State, header: SealedHeader, j: nat, h: Header): nat {
    if Filed(p.dr.skipped, header) then 0
    else if j == pe then (if h.n > NextN(p) then h.n - NextN(p) else 0)
    else h.n + (if h.pn > NextN(p) then h.pn - NextN(p) else 0)
  }

  ghost predicate OnFile(keys: seq<key32>, p: HeaderSpec.State, j: nat, n: u32)
    requires 1 <= j < |keys| + 2
  {
    Has(p.dr.skipped, Id(HeaderLabel(HK(keys, j)), n))
  }

  /** A position of the current chain that is filed or ahead within reach. */
  ghost predicate Within(cfg: Config, keys: seq<key32>, pe: int, p: HeaderSpec.State, j: nat, n: u32)
    requires 1 <= j < |keys| + 2
  {
    OnFile(keys, p, j, n) || (j == pe && NextN(p) <= n <= NextN(p) + MaxSkip(cfg))
  }

  lemma ReadKeeps(cfg: Config, keys: seq<key32>, pe: nat, p: HeaderSpec.State, n: u32, j: nat, m: u32)
    requires KeysOk(keys, cfg.lowOrder) && 1 <= pe < |keys| && Base.ChainsInv(keys, pe, p.dr.chains) && p.dr.dhr == keys[pe]
    requires p.hkr.key == HK(keys, pe) && n < U32_MAX && ReceiveOnChain(cfg, p, n).Ok?
    requires 1 <= j < |keys| + 2 && (j, m) != (pe, n) && |p.dr.skipped| + (n - NextN(p)) <= MaxSkip(cfg)
    ensures var p1 := ReceiveOnChain(cfg, p, n).value.1;
            && NextN(p1) == n + 1 && NextN(p) <= n && p1.dr.chains != [] && p.dr.chains != []
            && (Within(cfg, keys, pe, p, j, m) ==> Within(cfg, keys, pe, p1, j, m))
  {
    hide HK, Base.ChainsInv, KeysOk, ReceiveOnChain, StoreRange, C, MK, Adv, Has;
    OnChainOutcome(cfg, keys, pe, p, n);
    HasStored(MaxSkip(cfg), p.dr.skipped, HeaderLabel(HK(keys, pe)), Adv(C(keys, pe), NextN(p)), NextN(p), n, Id(HeaderLabel(HK(keys, j)), m));
  }

  /** What is left unread of an epoch goes on file, as far as the peer says it has sent. */
  lemma LeaveKeeps(cfg: Config, keys: seq<key32>, pe: int, p: HeaderSpec.State, h: Header, j: nat, m: u32)
    requires KeysOk(keys, cfg.lowOrder) && -1 <= pe < |keys| && Base.ChainsInv(keys, pe, p.dr.chains)
    requires p.dr.dhRSet == (pe >= 0) && (pe >= 0 ==> p.dr.dhr == keys[pe]) && (pe >= 1 ==> p.hkr.key == HK(keys, pe))
    requires RatchetRecv(cfg, p, h, true).Ok? && 1 <= j < |keys| + 2 && (j == pe ==> m < h.pn)
    requires |p.dr.skipped| + (if h.pn > NextN(p) then h.pn - NextN(p) else 0) <= MaxSkip(cfg)
    ensures Within(cfg, keys, pe, p, j, m) ==> OnFile(keys, RatchetRecv(cfg, p, h, true).value, j, m)
    ensures |RatchetRecv(cfg, p, h, true).value.dr.skipped| <= |p.dr.skipped| + (if h.pn > NextN(p) then h.pn - NextN(p) else 0)
  {
    hide HK, Base.ChainsInv, KeysOk, StoreRange, Has;
    Window.CurrentChain(keys, cfg.lowOrder, pe, p.dr);
    if pe >= 1 {
      var c := p.dr.chains[|p.dr.chains| - 1];
      HasStored(MaxSkip(cfg), p.dr.skipped, HeaderLabel(HK(keys, pe)), c.ck, c.nr, h.pn, Id(HeaderLabel(HK(keys, j)), m));
      StoreRangeGrows(MaxSkip(cfg), p.dr.skipped, HeaderLabel(HK(keys, pe)), c.ck, c.nr, h.pn);
    }
  }

  // ---- The three ways to a key -------------------------------------------------------------

  /** `og` is the `oh.n`-th header of epoch `oj`, another one than `header`. */
  ghost predicate Other(keys: seq<key32>, header: SealedHeader, j: nat, h: Header, og: SealedHeader, oj: nat, oh: Header) {
    HonestHeader(keys, header, j, h) && HonestHeader(keys, og, oj, oh) && (oj, oh.n) != (j, h.n) && h.n < U32_MAX
  }

  lemma OtherId(keys: seq<key32>, header: SealedHeader, j: nat, h: Header, og: SealedHeader, oj: nat, oh: Header, p: HeaderSpec.State)
    requires Other(keys, header, j, h, og, oj, oh)
    ensures 1 <= j < |keys| && 1 <= oj < |keys| && ServingId(header).Some?
    ensures ServingId(header).value == Id(HeaderLabel(HK(keys, j)), h.n) != Id(HeaderLabel(HK(keys, oj)), oh.n)
    ensures Filed(p.dr.skipped, og) <==> OnFile(keys, p, oj, oh.n)
    ensures Filed(p.dr.skipped, header) <==> OnFile(keys, p, j, h.n)
  {
    hide HK, Has;
    HonestOpens(keys, header, j, h);
    HonestOpens(keys, og, oj, oh);
    if HK(keys, j) == HK(keys, oj) {
      HKInjective(keys, j, oj);
    }
  }

  lemma TakeKeeps(cfg: Config, keys: seq<key32>, cnt: seq<nat>, r: Role, p: HeaderSpec.State, header: SealedHeader, j: nat, h: Header,
                  og: SealedHeader, oj: nat, oh: Header)
    requires |keys| == |cnt| >= 2 && PartyInv(keys, cnt, r, p) && Other(keys, header, j, h, og, oj, oh)
    requires Filed(p.dr.skipped, header) && InWindow(cfg, Base.PeerEpoch(keys, r, p.dr), p, og, oj, oh)
    ensures ReceiveKey(cfg, p, header).Ok?
    ensures var p1 := ReceiveKey(cfg, p, header).value.1;
            InWindow(cfg, Base.PeerEpoch(keys, r, p1.dr), p1, og, oj, oh)
  {
    hide RatchetInv, StoreInv, HeaderKeysInv, HK, Remove, Has, Distinct, Filed, Other;
    PartyStore(keys, cnt, r, p);
    OtherId(keys, header, j, h, og, oj, oh, p);
    OtherId(keys, header, j, h, og, oj, oh, ReceiveKey(cfg, p, header).value.1);
    RemoveFacts(p.dr.skipped, ServingId(header).value);
  }

  lemma CurrentKeeps(cfg: Config, keys: seq<key32>, cnt: seq<nat>, r: Role, p: HeaderSpec.State, header: SealedHeader, j: nat, h: Header,
                     og: SealedHeader, oj: nat, oh: Header)
    requires |keys| == |cnt| >= 2 && PartyInv(keys, cnt, r, p) && KeysOk(keys, cfg.lowOrder) && Other(keys, header, j, h, og, oj, oh)
    requires !Filed(p.dr.skipped, header) && j == Base.PeerEpoch(keys, r, p.dr) && ReceiveKey(cfg, p, header).Ok?
    requires |p.dr.skipped| + (h.n - NextN(p)) <= MaxSkip(cfg) && InWindow(cfg, j, p, og, oj, oh)
    ensures var p1 := ReceiveKey(cfg, p, header).value.1;
            InWindow(cfg, Base.PeerEpoch(keys, r, p1.dr), p1, og, oj, oh)
  {
    hide StoreInv, HK, MK, Filed, ReceiveKey, ReceiveOnChain, Base.ChainsInv, KeysOk, C, R, Opens, Has;
    HonestOpens(keys, header, j, h);
    OpenedBy(keys, Base.OwnEpoch(keys, r), j, p, header, j, h);
    CurrentOutcome(cfg, p, header, h);
    ReadKeeps(cfg, keys, j, p, h.n, oj, oh.n);
    OtherId(keys, header, j, h, og, oj, oh, p);
    OtherId(keys, header, j, h, og, oj, oh, ReceiveOnChain(cfg, p, h.n).value.1);
    ReadKeepsPending(cfg, p, h.n);
  }

  lemma ReadKeepsPending(cfg: Config, p: HeaderSpec.State, n: u32)
    requires ReceiveOnChain(cfg, p, n).Ok?
    ensures ReceiveOnChain(cfg, p, n).value.1.dr.pending == p.dr.pending
  {}

  lemma NextKeeps(cfg: Config, keys: seq<key32>, cnt: seq<nat>, r: Role, p: HeaderSpec.State, header: SealedHeader, j: nat, h: Header,
                  og: SealedHeader, oj: nat, oh: Header)
    requires |keys| == |cnt| >= 2 && PartyInv(keys, cnt, r, p) && KeysOk(keys, cfg.lowOrder) && Other(keys, header, j, h, og, oj, oh)
    requires !Filed(p.dr.skipped, header) && j == Base.PeerEpoch(keys, r, p.dr) + 2 && ReceiveKey(cfg, p, header).Ok?
    requires |p.dr.skipped| + Filings(j - 2, p, header, j, h) <= MaxSkip(cfg)
    requires InWindow(cfg, j - 2, p, og, oj, oh) && (oj == j - 2 ==> oh.n < h.pn)
    ensures var p1 := ReceiveKey(cfg, p, header).value.1;
            InWindow(cfg, Base.PeerEpoch(keys, r, p1.dr), p1, og, oj, oh)
  {
    hide StoreInv, HK, MK, Filed, ReceiveKey, ReceiveOnChain, RatchetRecv, Base.ChainsInv, KeysOk, C, R, Opens, Has, EncodeHeader, DecodeHeader;
    HonestOpens(keys, header, j, h);
    OpenedBy(keys, Base.OwnEpoch(keys, r), j - 2, p, header, j, h);
    NextOutcome(cfg, p, header, h);
    var p1 := RatchetRecv(cfg, p, h, true).value;
    RatchetRecvKeepsParty(cfg, keys, cnt, r, p, h);
    LeaveKeeps(cfg, keys, j - 2, p, h, oj, oh.n);
    ReadKeeps(cfg, keys, j, p1, h.n, oj, oh.n);
    OtherId(keys, header, j, h, og, oj, oh, p);
    OtherId(keys, header, j, h, og, oj, oh, ReceiveOnChain(cfg, p1, h.n).value.1);
    ReadKeepsPending(cfg, p1, h.n);
  }

  // ---- Messages ----------------------------------------------------------------------------

  lemma KeyKeeps(cfg: Config, keys: seq<key32>, cnt: seq<nat>, r: Role, p: HeaderSpec.State, header: SealedHeader, j: nat, h: Header,
                 og: SealedHeader, oj: nat, oh: Header)
    requires |keys| == |cnt| >= 2 && PartyInv(keys, cnt, r, p) && KeysOk(keys, cfg.lowOrder) && Other(keys, header, j, h, og, oj, oh)
    requires ReceiveKey(cfg, p, header).Ok?
    requires |p.dr.skipped| + Filings(Base.PeerEpoch(keys, r, p.dr), p, header, j, h) <= MaxSkip(cfg)
    requires InWindow(cfg, Base.PeerEpoch(keys, r, p.dr), p, og, oj, oh) && (oj == j - 2 ==> oh.n < h.pn)
    ensures var p1 := ReceiveKey(cfg, p, header).value.1;
            InWindow(cfg, Base.PeerEpoch(keys, r, p1.dr), p1, og, oj, oh)
  {
    hide PartyInv, KeysOk, Filed, ReceiveKey, InWindow, HonestHeader;
    var pe := Base.PeerEpoch(keys, r, p.dr);
    HonestIndex(keys, header, j, h);
    HonestOutcome(cfg, keys, cnt, r, p, header, j, h);
    WindowEpoch(cfg, pe, p, header, j, h);
    if Filed(p.dr.skipped, header) {
      TakeKeeps(cfg, keys, cnt, r, p, header, j, h, og, oj, oh);
    } else if j == pe {
      CurrentKeeps(cfg, keys, cnt, r, p, header, j, h, og, oj, oh);
    } else {
      NextKeeps(cfg, keys, cnt, r, p, header, j, h, og, oj, oh);
    }
  }

  lemma WindowEpoch(cfg: Config, pe: int, p: HeaderSpec.State, header: SealedHeader, j: nat, h: Header)
    requires InWindow(cfg, pe, p, header, j, h)
    ensures Filed(p.dr.skipped, header) || j == pe || j == pe + 2
  {
    hide Filed;
  }

  /** Accepting message `k` costs no other: while the store has room for what is to be filed, every
      other message of the same author that decrypted before decrypts afterwards, to its text. */
  lemma StillDecrypts(w: Base.World, s: System, r: Role, k: nat, i: nat)
    requires Base.Proper(w) && Inv(w, s) && |s.keys| >= 2 && k < |s.log| && i < |s.log| && k != i
    requires Owner(s.log[k].epoch) == Owner(s.log[i].epoch) == Peer(r)
    requires Decrypt(Base.Cfg(w, r), Party(s, r), s.log[k].msg, s.log[k].ad).0.Ok?
    requires Decrypt(Base.Cfg(w, r), Party(s, r), s.log[i].msg, s.log[i].ad).0.Ok?
    requires var p := Party(s, r);
             |p.dr.skipped| + Filings(Base.PeerEpoch(s.keys, r, p.dr), p, s.log[k].msg.header, s.log[k].epoch, s.log[k].header) <= MaxSkip(Base.Cfg(w, r))
    ensures var cfg, p, m, e := Base.Cfg(w, r), Party(s, r), s.log[k], s.log[i];
            Decrypt(cfg, Decrypt(cfg, p, m.msg, m.ad).1, e.msg, e.ad).0 == Ok(e.text)
  {
    hide PartyInv, KeysOk, LogAt, ReceiveKey, InWindow, HonestHeader, Filings;
    var cfg, p, m, e := Base.Cfg(w, r), Party(s, r), s.log[k], s.log[i];
    var s1 := Step(w, s, Deliver(r, m.msg, m.ad));
    assert Obtainable(s, m.msg);
    DeliverInv(w, s, r, m.msg, m.ad);
    DeliveryWindow(w, s, r, i);
    DeliveryWindow(w, s1, r, i);
    DistinctEntries(w, s, k, i);
    LogHonest(w, s, k);
    LogHonest(w, s, i);
    KeyKeeps(cfg, s.keys, s.cnt, r, p, m.msg.header, m.epoch, m.header, e.msg.header, e.epoch, e.header);
  }

  /** Entries of one author differ in epoch or number; those of the epoch before lie below the length
      announced. */
  lemma DistinctEntries(w: Base.World, s: System, k: nat, i: nat)
    requires Inv(w, s) && k < |s.log| && i < |s.log| && k != i
    ensures (s.log[k].epoch, s.log[k].header.n) != (s.log[i].epoch, s.log[i].header.n)
    ensures s.log[i].epoch == s.log[k].epoch - 2 ==> s.log[i].header.n < s.log[k].header.pn
  {
    hide PartyInv, KeysOk, HK, MK, EncodeHeader;
    assert LogAt(w, s.keys, s.cnt, s.log[i]) && LogAt(w, s.keys, s.cnt, s.log[k]);
  }
}
