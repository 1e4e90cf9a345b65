/** Over a whole run: while the store has room for what each delivery files, no message of the peer is
    lost. What a session has moved past, within an epoch or with it, was accepted or still decrypts. */
module BaseLossless {
  import opened Bytes
  import opened Terms
  import opened Wire
  import opened SkippedQueue
  import opened RatchetSpec
  import opened History
  import opened BaseRuns
  import opened BaseTheorems
  import opened BaseGaps
  import opened BaseKept
  import BaseConversation
  import BaseReplay

  /** The session has moved past position `n` of the peer's epoch `e`. */
  predicate Past(keys: seq<key32>, r: Role, p: State, e: nat, n: nat)
    requires |keys| >= 2
  {
    var pe := PeerEpoch(keys, r, p);
    e < pe || (e == pe && n < BaseConversation.NextN(p))
  }

  ghost predicate FiledFor(keys: seq<key32>, p: State, e: nat, n: u32)
    requires e < |keys|
  {
    Has(p.skipped, Id(RatchetLabel(keys[e]), n))
  }

  // ---- One key -----------------------------------------------------------------------------

  /** Reading the newest chain files what it passes over; reading an older one moves past nothing new. */
  lemma ReadPast(cfg: Config, keys: seq<key32>, pe: nat, p: State, h: Header, e: nat, n: u32)
    requires KeysOk(keys, cfg.lowOrder) && 1 <= pe < |keys| && ChainsInv(keys, pe, p.chains) && ReceiveOnChain(cfg, p, h).Ok?
    requires |p.skipped| + (h.n - p.chains[FindChain(p.chains, h.pk)].nr) <= MaxSkip(cfg)
    requires 1 <= e < |keys| && (keys[e], n) != (h.pk, h.n)
    ensures var p1 := ReceiveOnChain(cfg, p, h).value.1;
            && (FiledFor(keys, p, e, n) ==> FiledFor(keys, p1, e, n))
            && (e == pe && BaseConversation.NextN(p) <= n < BaseConversation.NextN(p1) ==> FiledFor(keys, p1, e, n))
  {
    hide ChainsInv, KeysOk, StoreRange, Adv, Has, C, R;
    var i := FindChain(p.chains, h.pk);
    var c := p.chains[i];
    NewestIs(keys, cfg.lowOrder, pe, p, i);
    HasStored(MaxSkip(cfg), p.skipped, RatchetLabel(h.pk), c.ck, c.nr, h.n, Id(RatchetLabel(keys[e]), n));
  }

  lemma NewestIs(keys: seq<key32>, lowOrder: set<key32>, pe: nat, p: State, i: nat)
    requires KeysOk(keys, lowOrder) && 1 <= pe < |keys| && ChainsInv(keys, pe, p.chains) && i < |p.chains|
    ensures p.chains[i].pk == keys[pe] <==> i == |p.chains| - 1
  {
    hide C, R, Adv;
    assert ChainAt(keys, EpochAt(pe, |p.chains|, i), p.chains[i]);
  }

  /** What is left unread of an epoch goes on file, as far as the peer has sent. */
  lemma LeavePast(cfg: Config, keys: seq<key32>, pe: int, p: State, h: Header, e: nat, n: u32)
    requires KeysOk(keys, cfg.lowOrder) && -1 <= pe < |keys| && ChainsInv(keys, pe, p.chains) && RatchetRecv(cfg, p, h).Ok?
    requires p.dhRSet == (pe >= 0) && (pe >= 0 ==> p.dhr == keys[pe])
    requires |p.skipped| + Filings(p, h) <= MaxSkip(cfg) && !Known(p, h.pk) && !Has(p.skipped, Id(RatchetLabel(h.pk), h.n))
    requires 1 <= e < |keys|
    ensures var p1 := RatchetRecv(cfg, p, h).value;
            && (FiledFor(keys, p, e, n) ==> FiledFor(keys, p1, e, n))
            && (e == pe && BaseConversation.NextN(p) <= n < h.pn ==> FiledFor(keys, p1, e, n))
  {
    hide ChainsInv, KeysOk, StoreRange, Has, C, R, Adv;
    CurrentChain(keys, cfg.lowOrder, pe, p);
    var left := PreviousChain(p);
    if left >= 0 {
      HasStored(MaxSkip(cfg), p.skipped, RatchetLabel(p.dhr), p.chains[left].ck, p.chains[left].nr, h.pn, Id(RatchetLabel(keys[e]), n));
    }
  }

  /** One derivation moves past its own position and past filed ones, and leaves what was filed. */
  lemma KeyPast(cfg: Config, keys: seq<key32>, cnt: seq<nat>, r: Role, p: State, h: Header, j: nat, e: nat, n: u32)
    requires |keys| == |cnt| >= 2 && PartyInv(keys, cnt, r, p) && KeysOk(keys, cfg.lowOrder)
    requires ReceiveKey(cfg, p, h).Ok? && 1 <= j < |keys| && ReceiveKey(cfg, p, h).value.0 == MK(keys, j, h.n)
    requires h.pk == keys[j] && h.pn == (if j >= 2 then cnt[j - 2] else 0)
    requires |p.skipped| + Filings(p, h) <= MaxSkip(cfg)
    requires 1 <= e < |keys| && Owner(e) == Peer(r) && n < cnt[e] && (e, n) != (j, h.n)
    ensures var p1 := ReceiveKey(cfg, p, h).value.1;
            Past(keys, r, p1, e, n) ==> (Past(keys, r, p, e, n) ==> FiledFor(keys, p, e, n)) ==> FiledFor(keys, p1, e, n)
  {
    hide StoreInv, ChainsInv, KeysOk, ReceiveKey, ReceiveOnChain, RatchetRecv, Filings, C, R, Adv, FiledFor, Known;
    OtherKey(keys, cfg.lowOrder, j, e, h.n, n);
    if InStore(p, h) {
      TakePast(cfg, keys, cnt, r, p, h, j, e, n);
    } else if Known(p, h.pk) {
      KnownPast(cfg, keys, cnt, r, p, h, e, n);
    } else {
      NewEpochOutcome(cfg, p, h);
      NextEpochOnly(keys, r, p, h.pk, h.n, j);
      NewPast(cfg, keys, cnt, r, p, h, j, e, n);
    }
  }

  lemma OtherKey(keys: seq<key32>, lowOrder: set<key32>, j: nat, e: nat, m: u32, n: u32)
    requires KeysOk(keys, lowOrder) && j < |keys| && e < |keys| && (e, n) != (j, m)
    ensures (keys[e], n) != (keys[j], m)
  {}

  lemma TakePast(cfg: Config, keys: seq<key32>, cnt: seq<nat>, r: Role, p: State, h: Header, j: nat, e: nat, n: u32)
    requires |keys| == |cnt| >= 2 && PartyInv(keys, cnt, r, p) && InStore(p, h) && 1 <= e < |keys| && (keys[e], n) != (h.pk, h.n)
    ensures ReceiveKey(cfg, p, h).Ok?
    ensures var p1 := ReceiveKey(cfg, p, h).value.1;
            (Past(keys, r, p1, e, n) <==> Past(keys, r, p, e, n)) && (FiledFor(keys, p, e, n) ==> FiledFor(keys, p1, e, n))
  {
    hide ChainsInv, StoreInv, Has, Remove;
    TakeOutcome(cfg, p, h);
    BaseReplay.StoreDistinct(keys, PeerEpoch(keys, r, p), p.skipped);
    RemoveFacts(p.skipped, Id(RatchetLabel(h.pk), h.n));
  }

  lemma KnownPast(cfg: Config, keys: seq<key32>, cnt: seq<nat>, r: Role, p: State, h: Header, e: nat, n: u32)
    requires |keys| == |cnt| >= 2 && PartyInv(keys, cnt, r, p) && KeysOk(keys, cfg.lowOrder)
    requires !InStore(p, h) && Known(p, h.pk) && ReceiveKey(cfg, p, h).Ok?
    requires |p.skipped| + Filings(p, h) <= MaxSkip(cfg) && 1 <= e < |keys| && (keys[e], n) != (h.pk, h.n)
    ensures var p1 := ReceiveKey(cfg, p, h).value.1;
            && (Past(keys, r, p1, e, n) && !Past(keys, r, p, e, n) ==> FiledFor(keys, p1, e, n))
            && (FiledFor(keys, p, e, n) ==> FiledFor(keys, p1, e, n))
  {
    hide StoreInv, ChainsInv, KeysOk, ReceiveOnChain, C, R, Adv, FiledFor;
    var pe := PeerEpoch(keys, r, p);
    OnChainFacts(cfg, p, h);
    CurrentChain(keys, cfg.lowOrder, pe, p);
    ReadPast(cfg, keys, pe, p, h, e, n);
    BaseReplay.ReadKeepsPending(cfg, p, h);
  }

  lemma NewPast(cfg: Config, keys: seq<key32>, cnt: seq<nat>, r: Role, p: State, h: Header, j: nat, e: nat, n: u32)
    requires |keys| == |cnt| >= 2 && PartyInv(keys, cnt, r, p) && KeysOk(keys, cfg.lowOrder)
    requires !InStore(p, h) && !Known(p, h.pk) && ReceiveKey(cfg, p, h).Ok?
    requires j == |keys| - 1 && Owner(j) == Peer(r) && !p.pending && h.pk == keys[j] && h.pn == (if j >= 2 then cnt[j - 2] else 0)
    requires |p.skipped| + Filings(p, h) <= MaxSkip(cfg)
    requires 1 <= e < |keys| && Owner(e) == Peer(r) && n < cnt[e] && (keys[e], n) != (h.pk, h.n)
    ensures var p1 := ReceiveKey(cfg, p, h).value.1;
            && (!Past(keys, r, p, e, n) && Past(keys, r, p1, e, n) ==> FiledFor(keys, p1, e, n))
            && (FiledFor(keys, p, e, n) ==> FiledFor(keys, p1, e, n))
  {
    hide StoreInv, ChainsInv, KeysOk, ReceiveKey, ReceiveOnChain, RatchetRecv, Filings, C, R, Adv, FiledFor, Known;
    var pe := PeerEpoch(keys, r, p);
    NewEpochOutcome(cfg, p, h);
    var p2 := RatchetRecv(cfg, p, h).value;
    RatchetRecvKeepsParty(cfg, keys, cnt, r, p, h);
    BaseReplay.LeavePending(cfg, p, h);
    BaseReplay.ReadKeepsPending(cfg, p2, h);
    StoredAfter(cfg, p, h);
    LeavePast(cfg, keys, pe, p, h, e, n);
    ReadPast(cfg, keys, j, p2, h, e, n);
    StandsAtZero(cfg, p, h);
  }

  lemma StandsAtZero(cfg: Config, p: State, h: Header)
    requires RatchetRecv(cfg, p, h).Ok?
    ensures BaseConversation.NextN(RatchetRecv(cfg, p, h).value) == 0
  {
    hide StoreRange;
  }

  // ---- Runs --------------------------------------------------------------------------------

  /** Every message of the peer that `r` has moved past was accepted, as `got` says, or is filed. */
  ghost predicate Settled(s: System, r: Role, got: set<nat>)
    requires |s.keys| >= 2
  {
    forall i :: 0 <= i < |s.log| && Owner(s.log[i].epoch) == Peer(r) && Past(s.keys, r, Party(s, r), s.log[i].epoch, s.log[i].msg.header.n) ==>
      i in got || InStore(Party(s, r), s.log[i].msg.header)
  }

  /** The log entries whose message has been accepted. */
  function Got(w: World, s: System, got: set<nat>, a: Action): set<nat> {
    if a.Deliver? && Decrypt(Cfg(w, a.receiver), Party(s, a.receiver), a.msg, a.ad).0.Ok?
    then got + set i | 0 <= i < |s.log| && s.log[i].msg == a.msg
    else got
  }

  /** The store has room for what an accepted message files. */
  predicate HasRoom(w: World, s: System, a: Action) {
    a.Deliver? && Decrypt(Cfg(w, a.receiver), Party(s, a.receiver), a.msg, a.ad).0.Ok? ==>
      |Party(s, a.receiver).skipped| + Filings(Party(s, a.receiver), a.msg.header) <= MaxSkip(Cfg(w, a.receiver))
  }

  ghost predicate LeadsWithRoom(w: World, s: System, got: set<nat>, acts: seq<Action>, t: System, all: set<nat>)
    decreases |acts|
  {
    if acts == [] then s == t && got == all
    else
      && |s.keys| == |s.cnt| >= 2
      && Enabled(w, s, acts[0]) && HasRoom(w, s, acts[0])
      && LeadsWithRoom(w, Step(w, s, acts[0]), Got(w, s, got, acts[0]), acts[1..], t, all)
  }

  lemma EntryFacts(w: World, s: System, i: nat)
    requires Inv(w, s) && i < |s.log|
    ensures var e := s.log[i];
            && 1 <= e.epoch < |s.keys| == |s.cnt| && e.msg.header.pk == s.keys[e.epoch] && e.msg.header.n < s.cnt[e.epoch]
            && e.msg.header.pn == (if e.epoch >= 2 then s.cnt[e.epoch - 2] else 0)
  {
    hide PartyInv, KeysOk, BuildAD, EncodeHeader;
    assert LogAt(w, s.keys, s.cnt, s.log[i]);
  }

  /** Two log entries are the same message or differ in epoch or number. */
  lemma EntriesDiffer(w: World, s: System, i: nat, k: nat)
    requires Inv(w, s) && i < |s.log| && k < |s.log| && (s.log[i].epoch, s.log[i].msg.header.n) == (s.log[k].epoch, s.log[k].msg.header.n)
    ensures i == k
  {
    hide PartyInv, KeysOk, LogAt;
  }

  lemma DeliverSettled(w: World, s: System, r: Role, m: Message, ad: bytes, q: Role, got: set<nat>)
    requires Proper(w) && Inv(w, s) && Enabled(w, s, Deliver(r, m, ad)) && HasRoom(w, s, Deliver(r, m, ad)) && |s.keys| == |s.cnt| >= 2
    requires Settled(s, q, got)
    ensures Settled(Step(w, s, Deliver(r, m, ad)), q, Got(w, s, got, Deliver(r, m, ad)))
  {
    hide PartyInv, KeysOk, LogAt, ReceiveKey, InStore, Past, Filings, Returns;
    var cfg, p := Cfg(w, r), Party(s, r);
    if q == r && Decrypt(cfg, p, m, ad).0.Ok? {
      var k := DeliverySound(w, s, r, m, ad);
      DeliveredKey(w, s, r, m, ad, k);
      EntryFacts(w, s, k);
      var p1 := ReceiveKey(cfg, p, m.header).value.1;
      forall i | 0 <= i < |s.log| && Owner(s.log[i].epoch) == Peer(r) && Past(s.keys, r, p1, s.log[i].epoch, s.log[i].msg.header.n) && i != k
        ensures i in got || InStore(p1, s.log[i].msg.header)
      {
        EntryFacts(w, s, i);
        EntryKept(w, s, r, m.header, s.log[k].epoch, k, i);
      }
    }
  }

  lemma EntryKept(w: World, s: System, r: Role, h: Header, j: nat, k: nat, i: nat)
    requires Proper(w) && Inv(w, s) && |s.keys| == |s.cnt| >= 2 && k < |s.log| && i < |s.log| && i != k
    requires s.log[k].msg.header == h && s.log[k].epoch == j < |s.keys| && j >= 1 && Owner(s.log[i].epoch) == Peer(r)
    requires ReceiveKey(Cfg(w, r), Party(s, r), h).Ok? && ReceiveKey(Cfg(w, r), Party(s, r), h).value.0 == MK(s.keys, j, h.n)
    requires |Party(s, r).skipped| + Filings(Party(s, r), h) <= MaxSkip(Cfg(w, r))
    ensures var p, p1, e, n := Party(s, r), ReceiveKey(Cfg(w, r), Party(s, r), h).value.1, s.log[i].epoch, s.log[i].msg.header.n;
            Past(s.keys, r, p1, e, n) ==> (Past(s.keys, r, p, e, n) ==> InStore(p, s.log[i].msg.header)) ==> InStore(p1, s.log[i].msg.header)
  {
    hide PartyInv, KeysOk, LogAt, ReceiveKey, Past, Filings;
    EntryFacts(w, s, k);
    EntryFacts(w, s, i);
    if (s.log[i].epoch, s.log[i].msg.header.n) == (j, h.n) {
      EntriesDiffer(w, s, i, k);
    }
    KeyPast(Cfg(w, r), s.keys, s.cnt, r, Party(s, r), h, j, s.log[i].epoch, s.log[i].msg.header.n);
  }

  /** A message just sent lies ahead of its reader. */
  lemma SendSettled(w: World, s: System, a: Action, q: Role, got: set<nat>)
    requires Proper(w) && Inv(w, s) && AllBounded(s) && a.Send? && Enabled(w, s, a) && |s.keys| == |s.cnt| >= 2
    requires Settled(s, q, got)
    ensures |Step(w, s, a).keys| >= 2 && Settled(Step(w, s, a), q, got)
  {
    hide PartyInv, KeysOk, LogAt, Encrypt, InStore, Bounded, Step;
    var t := Step(w, s, a);
    EverySend(w, s, a.sender, a.text, a.ad, a.gen);
    BaseReplay.SendShape(w, s, a, q);
    if |t.log| > |s.log| && a.sender == Peer(q) {
      NextIsAhead(w, s, a);
    }
    forall i | 0 <= i < |t.log| && Owner(t.log[i].epoch) == Peer(q) && Past(t.keys, q, Party(t, q), t.log[i].epoch, t.log[i].msg.header.n)
      ensures i in got || InStore(Party(t, q), t.log[i].msg.header)
    {
      if i < |s.log| {
        assert t.log[i] == s.log[i];
        SameStore(Party(s, q), Party(t, q), t.log[i].msg.header);
      }
    }
  }

  lemma SameStore(p: State, q: State, h: Header)
    requires p.skipped == q.skipped
    ensures InStore(p, h) == InStore(q, h)
  {}

  lemma NextIsAhead(w: World, s: System, a: Action)
    requires Proper(w) && Inv(w, s) && AllBounded(s) && a.Send? && Enabled(w, s, a) && |s.keys| == |s.cnt| >= 2
    requires |Step(w, s, a).log| == |s.log| + 1
    ensures var t, q := Step(w, s, a), Peer(a.sender);
            |t.keys| >= 2 && !Past(t.keys, q, Party(t, q), t.log[|s.log|].epoch, t.log[|s.log|].msg.header.n)
  {
    hide PartyInv, KeysOk, LogAt, Bounded, Encrypt, Step, PeerEpoch, OwnEpoch;
    var t, r, q := Step(w, s, a), a.sender, Peer(a.sender);
    EverySend(w, s, r, a.text, a.ad, a.gen);
    StepInv(w, s, a);
    StepBounded(w, s, r, a.gen);
    PeerUntouched(w, s, a);
    BaseConversation.ReaderEpoch(t.keys, t.cnt, q, Party(t, q));
    NewestBounded(w, t.keys, t.cnt, Counts(s, r), q, Party(t, q));
  }

  lemma PeerUntouched(w: World, s: System, a: Action)
    requires |s.keys| == |s.cnt| >= 2 && a.Send?
    ensures Party(Step(w, s, a), Peer(a.sender)) == Party(s, Peer(a.sender))
  {
    hide Encrypt;
  }

  lemma NewestBounded(w: World, keys: seq<key32>, cnt: seq<nat>, before: seq<nat>, q: Role, p: State)
    requires |keys| == |cnt| == |before| >= 2 && PartyInv(keys, cnt, q, p) && KeysOk(keys, w.init.lowOrder) && Bounded(keys, before, p)
    ensures var pe := PeerEpoch(keys, q, p);
            pe < |before| && (pe >= 1 ==> BaseConversation.NextN(p) <= before[pe])
  {
    hide StoreInv, ChainsInv, R, C, Adv;
    CurrentChain(keys, w.init.lowOrder, PeerEpoch(keys, q, p), p);
  }

  lemma {:induction false} RunSettled(w: World, s: System, got: set<nat>, acts: seq<Action>, t: System, all: set<nat>)
    requires Proper(w) && Inv(w, s) && AllBounded(s) && Settled(s, Initiator, got) && Settled(s, Responder, got)
    requires LeadsWithRoom(w, s, got, acts, t, all)
    ensures Inv(w, t) && AllBounded(t) && Settled(t, Initiator, all) && Settled(t, Responder, all)
    decreases |acts|
  {
    hide Inv, Step, Bounded, Settled, Enabled, HasRoom, Got;
    if acts != [] {
      StepInv(w, s, acts[0]);
      match acts[0] {
        case Send(r, text, ad, gen) =>
          SendBounded(w, s, r, text, ad, gen);
          SendSettled(w, s, acts[0], Initiator, got);
          SendSettled(w, s, acts[0], Responder, got);
          NothingGot(w, s, got, acts[0]);
        case Deliver(r, m, ad) =>
          EnabledObtains(w, s, r, m, ad);
          DeliverBounded(w, s, r, m, ad);
          DeliverSettled(w, s, r, m, ad, Initiator, got);
          DeliverSettled(w, s, r, m, ad, Responder, got);
      }
      RunSettled(w, Step(w, s, acts[0]), Got(w, s, got, acts[0]), acts[1..], t, all);
    }
  }

  lemma NothingGot(w: World, s: System, got: set<nat>, a: Action)
    requires a.Send?
    ensures Got(w, s, got, a) == got
  {}

  lemma EnabledObtains(w: World, s: System, r: Role, m: Message, ad: bytes)
    requires Enabled(w, s, Deliver(r, m, ad))
    ensures Obtainable(s, m.ct)
  {
    hide Returns;
  }

  /** Nothing is lost: after any run in which the store always had room, a message of the peer that a
      session has moved past, in the epoch it reads or by leaving an epoch, has been accepted or still
      decrypts to its text. */
  lemma NothingLost(w: World, bob: key32, alice: key32, acts: seq<Action>, t: System, all: set<nat>, r: Role, i: nat)
    requires Proper(w) && KeysOk([bob, alice], w.init.lowOrder) && LeadsWithRoom(w, Start(bob, alice), {}, acts, t, all)
    requires i < |t.log| && Owner(t.log[i].epoch) == Peer(r) && i !in all
    requires |t.keys| >= 2 && Past(t.keys, r, Party(t, r), t.log[i].epoch, t.log[i].msg.header.n)
    ensures Decrypt(Cfg(w, r), Party(t, r), t.log[i].msg, t.log[i].ad).0 == Ok(t.log[i].text)
  {
    hide Inv, KeysOk, LeadsWithRoom, InStore, Decrypt, Past;
    InvStart(w, bob, alice);
    StartSettled(bob, alice);
    RunSettled(w, Start(bob, alice), {}, acts, t, all);
    SettledEntry(t, r, all, i);
    RetentionWindow(w, t, r, i);
  }

  lemma SettledEntry(s: System, r: Role, got: set<nat>, i: nat)
    requires |s.keys| >= 2 && Settled(s, r, got) && i < |s.log| && Owner(s.log[i].epoch) == Peer(r) && i !in got
    requires Past(s.keys, r, Party(s, r), s.log[i].epoch, s.log[i].msg.header.n)
    ensures InStore(Party(s, r), s.log[i].msg.header)
  {}

  lemma StartSettled(bob: key32, alice: key32)
    ensures var s := Start(bob, alice); AllBounded(s) && Settled(s, Initiator, {}) && Settled(s, Responder, {})
  {}
}
