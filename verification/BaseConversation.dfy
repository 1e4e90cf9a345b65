/** Conversations of two base sessions in which every message is delivered before the next one is
    sent. They never fail, and never store a skipped key. */
module BaseConversation {
  import opened Bytes
  import opened Terms
  import opened Wire
  import opened SkippedQueue
  import opened RatchetSpec
  import opened History
  import opened BaseRuns
  import opened BaseTheorems

  /** Position the newest receive chain stands at. */
  function NextN(p: State): nat {
    if p.chains == [] then 0 else p.chains[|p.chains| - 1].nr
  }

  /** `r` has read everything its peer has sent, in order. */
  ghost predicate UpToDate(keys: seq<key32>, cnt: seq<nat>, r: Role, p: State)
    requires |keys| == |cnt| >= 2
  {
    var me: int, pe := OwnEpoch(keys, Peer(r)), PeerEpoch(keys, r, p);
    && p.skipped == []
    && (pe == me && me >= 1 ==> NextN(p) == cnt[me])
    && (pe == me - 2 ==> cnt[me] == 0 && (pe >= 1 ==> NextN(p) == cnt[pe]))
  }

  ghost predicate InStep(s: System) {
    && |s.keys| == |s.cnt| >= 2
    && UpToDate(s.keys, s.cnt, Initiator, s.init) && UpToDate(s.keys, s.cnt, Responder, s.resp)
  }

  /** One party sends and the other receives what was sent. */
  datatype Turn = Turn(sender: Role, text: bytes, ad: bytes, gen: Option<key32>)

  /** The sender has something to send with: the responder must have heard from the initiator. */
  ghost predicate Playable(w: World, s: System, t: Turn) {
    && |s.keys| == |s.cnt| >= 2
    && Enabled(w, s, Send(t.sender, t.text, t.ad, t.gen))
    && (Party(s, t.sender).pending || OwnEpoch(s.keys, t.sender) != 0)
  }

  // ---- Reading the next message ------------------------------------------------------------

  lemma NothingSkipped(cap: nat, lab: Label, ck: Key, from: u32, until: u32)
    requires until <= from
    ensures StoreRange(cap, [], lab, ck, from, until) == []
  {}

  lemma ReadCurrent(cfg: Config, p: State, h: Header)
    requires p.skipped == [] && p.chains != [] && FindChain(p.chains, h.pk) == |p.chains| - 1 && h.n == NextN(p) && h.n < U32_MAX
    ensures ReceiveOnChain(cfg, p, h).Ok?
    ensures var p1 := ReceiveOnChain(cfg, p, h).value.1;
            NextN(p1) == h.n + 1 && p1.skipped == [] && p1.pending == p.pending
  {
    var c := p.chains[|p.chains| - 1];
    NothingSkipped(MaxSkip(cfg), RatchetLabel(h.pk), c.ck, c.nr, h.n);
  }

  /** Reading the next message in order moves the reader exactly one position on. */
  lemma ReadsNext(cfg: Config, keys: seq<key32>, cnt: seq<nat>, r: Role, p: State, h: Header, j: nat)
    requires |keys| == |cnt| >= 2 && PartyInv(keys, cnt, r, p) && KeysOk(keys, cfg.lowOrder) && p.skipped == []
    requires 1 <= j < |keys| && h.pk == keys[j] && h.n < U32_MAX
    requires (j == PeerEpoch(keys, r, p) && h.n == NextN(p))
             || (j == PeerEpoch(keys, r, p) + 2 && h.n == 0 && (PeerEpoch(keys, r, p) >= 1 ==> h.pn == NextN(p)))
    ensures ReceiveKey(cfg, p, h).Ok?
    ensures var p1 := ReceiveKey(cfg, p, h).value.1;
            NextN(p1) == h.n + 1 && PeerEpoch(keys, r, p1) == j && p1.skipped == []
  {
    hide StoreInv, ChainsInv, KeysOk, C, R, Adv, ReceiveOnChain, StoreRange;
    var pe := PeerEpoch(keys, r, p);
    CurrentChain(keys, cfg.lowOrder, pe, p);
    if j == pe {
      ReadCurrent(cfg, p, h);
    } else {
      NotYetKnown(keys, cnt, cfg.lowOrder, r, p, j);
      FollowsNext(cfg, keys, r, p, h, pe);
    }
  }

  lemma NotYetKnown(keys: seq<key32>, cnt: seq<nat>, lowOrder: set<key32>, r: Role, p: State, j: nat)
    requires |keys| == |cnt| >= 2 && PartyInv(keys, cnt, r, p) && KeysOk(keys, lowOrder)
    requires 1 <= j < |keys| && j > PeerEpoch(keys, r, p)
    ensures !Known(p, keys[j])
  {
    hide PartyInv, KeysOk, Known;
    if Known(p, keys[j]) {
      KnownIsReceived(keys, cnt, lowOrder, r, p, j);
    }
  }

  lemma FollowsNext(cfg: Config, keys: seq<key32>, r: Role, p: State, h: Header, pe: int)
    requires |keys| >= 2 && KeysOk(keys, cfg.lowOrder) && -1 <= pe && pe + 2 < |keys| && h.pk == keys[pe + 2] && h.n == 0
    requires p.skipped == [] && p.dhRSet == (pe >= 0) && (pe >= 0 ==> p.dhr == keys[pe]) && !Known(p, h.pk)
    requires pe <= 0 ==> p.chains == []
    requires pe >= 1 ==> p.chains != [] && FindChain(p.chains, p.dhr) == |p.chains| - 1 && h.pn == NextN(p)
    ensures ReceiveKey(cfg, p, h).Ok?
    ensures var p1 := ReceiveKey(cfg, p, h).value.1;
            NextN(p1) == 1 && p1.pending && p1.skipped == []
  {
    hide ReceiveOnChain, StoreRange, ReceiveKey;
    NewEpochOutcome(cfg, p, h);
    if pe >= 1 {
      var c := p.chains[|p.chains| - 1];
      NothingSkipped(MaxSkip(cfg), RatchetLabel(p.dhr), c.ck, c.nr, h.pn);
    }
    ReadCurrent(cfg, RatchetRecv(cfg, p, h).value, h);
  }

  // ---- One turn ----------------------------------------------------------------------------

  /** Taking the owed sending step leaves both readers up to date. */
  lemma RatchetedInStep(w: World, s: System, r: Role, k: key32)
    requires Inv(w, s) && InStep(s) && Party(s, r).pending && RatchetSend(Cfg(w, r), Party(s, r), Some(k)).0.None?
    ensures InStep(Ratcheted(w, s, r, k)) && OwnEpoch(s.keys + [k], r) != 0
  {
    hide PartyInv, KeysOk, LogAt;
    PartyOwner(w, s, r);
  }

  /** Sending changes nothing that either party reads with. */
  lemma SendSides(w: World, s: System, r: Role, text: bytes, ad: bytes, gen: Option<key32>)
    requires |s.keys| == |s.cnt| >= 2 && !Party(s, r).pending
    ensures var s1 := Step(w, s, Send(r, text, ad, gen));
            && Party(s1, Peer(r)) == Party(s, Peer(r))
            && Party(s1, r).chains == Party(s, r).chains && Party(s1, r).skipped == Party(s, r).skipped && !Party(s1, r).pending
            && (|s1.log| > |s.log| ==> s1.log[|s.log|].text == text)
  {
    hide BuildAD;
  }

  lemma CounterIsNs(keys: seq<key32>, cnt: seq<nat>, r: Role, p: State)
    requires |keys| == |cnt| >= 2 && PartyInv(keys, cnt, r, p)
    ensures p.ns == cnt[OwnEpoch(keys, r)]
  {
    hide StoreInv, ChainsInv;
  }

  /** Where the reader stands: in the sender's current epoch or in the one before. */
  lemma ReaderEpoch(keys: seq<key32>, cnt: seq<nat>, r: Role, p: State)
    requires |keys| == |cnt| >= 2 && PartyInv(keys, cnt, r, p)
    ensures var me: int, pe := OwnEpoch(keys, Peer(r)), PeerEpoch(keys, r, p);
            (pe == me || pe == me - 2) && (pe <= 0 ==> p.chains == [])
  {
    hide StoreInv, R, C;
  }

  /** The message just sent is the one its reader expects. */
  lemma SentIsExpected(w: World, s: System, r: Role, text: bytes, ad: bytes, gen: Option<key32>)
    requires Inv(w, s) && InStep(s) && !Party(s, r).pending && Party(s, r).ns < U32_MAX && OwnEpoch(s.keys, r) != 0
    ensures var s1 := Step(w, s, Send(r, text, ad, gen));
            && |s1.log| == |s.log| + 1 && |s1.keys| == |s1.cnt| >= 2
            && var e, p := s1.log[|s.log|], Party(s1, Peer(r));
            var h, pe := e.msg.header, PeerEpoch(s1.keys, Peer(r), p);
            && 1 <= e.epoch < |s1.keys| && h.pk == s1.keys[e.epoch] && h.n < U32_MAX && p.skipped == []
            && e.epoch == OwnEpoch(s1.keys, r) && h.n + 1 == s1.cnt[e.epoch]
            && ((e.epoch == pe && h.n == NextN(p)) || (e.epoch == pe + 2 && h.n == 0 && (pe >= 1 ==> h.pn == NextN(p))))
  {
    hide PartyInv, KeysOk, Encrypt, Step, MK, BuildAD, EncodeHeader;
    SentEntry(w, s, r, text, ad, gen);
    SendSides(w, s, r, text, ad, gen);
    CounterIsNs(s.keys, s.cnt, r, Party(s, r));
    ReaderEpoch(s.keys, s.cnt, Peer(r), Party(s, Peer(r)));
  }

  /** The message just sent decrypts, and both readers are up to date again. */
  lemma SentIsRead(w: World, s: System, r: Role, text: bytes, ad: bytes, gen: Option<key32>)
    requires Proper(w) && Inv(w, s) && InStep(s) && !Party(s, r).pending && Party(s, r).ns < U32_MAX && OwnEpoch(s.keys, r) != 0
    ensures var s1 := Step(w, s, Send(r, text, ad, gen));
            && |s1.keys| == |s1.cnt| >= 2 && |s1.log| == |s.log| + 1
            && var m := s1.log[|s.log|].msg;
            && m.header.n < U32_MAX && Enabled(w, s1, Deliver(Peer(r), m, ad))
            && Decrypt(Cfg(w, Peer(r)), Party(s1, Peer(r)), m, ad).0 == Ok(text)
            && Inv(w, Step(w, s1, Deliver(Peer(r), m, ad))) && InStep(Step(w, s1, Deliver(Peer(r), m, ad)))
  {
    hide PartyInv, KeysOk, LogAt, Encrypt, Step, Decrypt, InStore, InChain, InNextEpoch, UpToDate;
    var s1, i := Step(w, s, Send(r, text, ad, gen)), |s.log|;
    SendOnChainInv(w, s, r, text, ad, gen);
    SentEntry(w, s, r, text, ad, gen);
    SentIsExpected(w, s, r, text, ad, gen);
    SendSides(w, s, r, text, ad, gen);
    ExpectedReads(w, s1, Peer(r), i);
    DeliverInv(w, s1, Peer(r), s1.log[i].msg, ad);
    ReadInStep(w, s, r, text, ad, gen);
  }

  lemma ExpectedReads(w: World, s: System, r: Role, i: nat)
    requires Proper(w) && Inv(w, s) && i < |s.log| && s.log[i].msg.header.n < U32_MAX && Owner(s.log[i].epoch) == Peer(r)
    requires var h, j, p := s.log[i].msg.header, s.log[i].epoch, Party(s, r);
             && p.skipped == [] && 1 <= j < |s.keys| && h.pk == s.keys[j]
             && ((j == PeerEpoch(s.keys, r, p) && h.n == NextN(p))
                 || (j == PeerEpoch(s.keys, r, p) + 2 && h.n == 0 && (PeerEpoch(s.keys, r, p) >= 1 ==> h.pn == NextN(p))))
    ensures Decrypt(Cfg(w, r), Party(s, r), s.log[i].msg, s.log[i].ad).0 == Ok(s.log[i].text)
    ensures var p1 := Decrypt(Cfg(w, r), Party(s, r), s.log[i].msg, s.log[i].ad).1;
            NextN(p1) == s.log[i].msg.header.n + 1 && PeerEpoch(s.keys, r, p1) == s.log[i].epoch && p1.skipped == []
  {
    hide PartyInv, KeysOk, ReceiveKey, BuildAD, MK;
    var e, cfg, p := s.log[i], Cfg(w, r), Party(s, r);
    assert LogAt(w, s.keys, s.cnt, e);
    ReadsNext(cfg, s.keys, s.cnt, r, p, e.msg.header, e.epoch);
    ExpectedKey(cfg, s.keys, s.cnt, r, p, e.msg.header, e.epoch);
    EqualAD(Cfg(w, Owner(e.epoch)), cfg, EncodeHeader(e.msg.header), e.ad);
  }

  lemma EqualAD(a: Config, b: Config, header: bytes, ad: bytes)
    requires Paired(a, b)
    ensures BuildAD(a, header, ad, true) == BuildAD(b, header, ad, false)
  {
    PairedPrefix(a, b);
  }

  lemma ExpectedKey(cfg: Config, keys: seq<key32>, cnt: seq<nat>, r: Role, p: State, h: Header, j: nat)
    requires |keys| == |cnt| >= 2 && PartyInv(keys, cnt, r, p) && KeysOk(keys, cfg.lowOrder) && p.skipped == []
    requires 1 <= j < |keys| && h.pk == keys[j] && h.n < U32_MAX
    requires (j == PeerEpoch(keys, r, p) && h.n == NextN(p))
             || (j == PeerEpoch(keys, r, p) + 2 && h.n == 0 && (PeerEpoch(keys, r, p) >= 1 ==> h.pn == NextN(p)))
    ensures ReceiveKey(cfg, p, h).Ok? && ReceiveKey(cfg, p, h).value.0 == MK(keys, j, h.n)
  {
    hide StoreInv, ChainsInv, KeysOk, C, R, Adv, ReceiveKey, MK, InStore;
    var pe := PeerEpoch(keys, r, p);
    CurrentChain(keys, cfg.lowOrder, pe, p);
    KeyWindow(cfg, keys, cnt, r, p, h, j);
    if j == pe {
      var k := |p.chains| - 1;
      assert p.chains[k].pk == h.pk && p.chains[k].nr <= h.n <= p.chains[k].nr + MaxSkip(cfg);
    }
  }

  lemma ReadInStep(w: World, s: System, r: Role, text: bytes, ad: bytes, gen: Option<key32>)
    requires Proper(w) && Inv(w, s) && InStep(s) && !Party(s, r).pending && Party(s, r).ns < U32_MAX && OwnEpoch(s.keys, r) != 0
    requires var s1 := Step(w, s, Send(r, text, ad, gen)); Inv(w, s1) && |s1.log| == |s.log| + 1 && s1.log[|s.log|].ad == ad
    ensures var s1 := Step(w, s, Send(r, text, ad, gen));
            && |s1.keys| == |s1.cnt| >= 2 && s1.log[|s.log|].msg.header.n < U32_MAX
            && InStep(Step(w, s1, Deliver(Peer(r), s1.log[|s.log|].msg, ad)))
  {
    hide PartyInv, KeysOk, LogAt, Encrypt, Decrypt;
    var s1, i := Step(w, s, Send(r, text, ad, gen)), |s.log|;
    SentEntry(w, s, r, text, ad, gen);
    SentIsExpected(w, s, r, text, ad, gen);
    SendSides(w, s, r, text, ad, gen);
    ExpectedReads(w, s1, Peer(r), i);
  }

  // ---- Conversations -----------------------------------------------------------------------

  function Sending(w: World, s: System, t: Turn): System
    requires |s.keys| == |s.cnt| >= 2
  {
    Step(w, s, Send(t.sender, t.text, t.ad, t.gen))
  }

  function LastMessage(s: System): Message {
    if s.log == [] then Message(Header(ZERO32, 0, 0), Junk([])) else s.log[|s.log| - 1].msg
  }

  /** The message of a turn has been sent and can be received. */
  ghost predicate HasMessage(s: System) {
    |s.keys| == |s.cnt| >= 2 && LastMessage(s).header.n < U32_MAX
  }

  /** What the other party gets out of a turn. */
  function Heard(w: World, s: System, t: Turn): Result<bytes>
    requires |s.keys| == |s.cnt| >= 2 && HasMessage(Sending(w, s, t))
  {
    Decrypt(Cfg(w, Peer(t.sender)), Party(Sending(w, s, t), Peer(t.sender)), LastMessage(Sending(w, s, t)), t.ad).0
  }

  function AfterTurn(w: World, s: System, t: Turn): System
    requires |s.keys| == |s.cnt| >= 2 && HasMessage(Sending(w, s, t))
  {
    Step(w, Sending(w, s, t), Deliver(Peer(t.sender), LastMessage(Sending(w, s, t)), t.ad))
  }

  /** One turn works, and leaves the parties ready for the next. */
  lemma TurnWorks(w: World, s: System, t: Turn)
    requires Proper(w) && Inv(w, s) && InStep(s) && Playable(w, s, t)
    ensures HasMessage(Sending(w, s, t)) && Heard(w, s, t) == Ok(t.text)
    ensures Inv(w, AfterTurn(w, s, t)) && InStep(AfterTurn(w, s, t))
  {
    hide Inv, InStep, Step, RatchetSend, Decrypt, Obtainable;
    var s0 := s;
    if Party(s, t.sender).pending {
      RatchetedInv(w, s, t.sender, t.gen.value);
      OwedStep(w, s, t.sender, t.gen.value);
      RatchetedInStep(w, s, t.sender, t.gen.value);
      StepRatcheted(w, s, t.sender, t.text, t.ad, t.gen);
      s0 := Ratcheted(w, s, t.sender, t.gen.value);
    }
    SentIsRead(w, s0, t.sender, t.text, t.ad, t.gen);
  }

  lemma OwedStep(w: World, s: System, r: Role, k: key32)
    requires Proper(w) && Inv(w, s) && Party(s, r).pending
    ensures RatchetSend(Cfg(w, r), Party(s, r), Some(k)).0.None?
  {
    hide StoreInv, ChainsInv, LogAt;
  }

  /** Every turn is playable when it comes. */
  ghost predicate Conversation(w: World, s: System, turns: seq<Turn>)
    decreases |turns|
  {
    turns != [] ==>
      && Playable(w, s, turns[0])
      && (HasMessage(Sending(w, s, turns[0])) ==> Conversation(w, AfterTurn(w, s, turns[0]), turns[1..]))
  }

  /** Every turn gets across, and no skipped key is ever stored. */
  ghost predicate AllHeard(w: World, s: System, turns: seq<Turn>)
    decreases |turns|
  {
    && s.init.skipped == s.resp.skipped == []
    && (turns != [] ==>
          && |s.keys| == |s.cnt| >= 2 && HasMessage(Sending(w, s, turns[0]))
          && Heard(w, s, turns[0]) == Ok(turns[0].text)
          && AllHeard(w, AfterTurn(w, s, turns[0]), turns[1..]))
  }

  lemma {:induction false} ConversationWorks(w: World, s: System, turns: seq<Turn>)
    requires Proper(w) && Inv(w, s) && InStep(s) && Conversation(w, s, turns)
    ensures AllHeard(w, s, turns)
    decreases |turns|
  {
    hide Inv, Step, Decrypt, Enabled, Sending, LastMessage, Heard, AfterTurn, HasMessage;
    if turns != [] {
      TurnWorks(w, s, turns[0]);
      ConversationWorks(w, AfterTurn(w, s, turns[0]), turns[1..]);
    }
  }

  /** Two freshly initialised sessions can talk for as long as they like, taking turns in any
      order, and every message decrypts to what was sent. */
  lemma EveryConversation(w: World, bob: key32, alice: key32, turns: seq<Turn>)
    requires Proper(w) && KeysOk([bob, alice], w.init.lowOrder) && Conversation(w, Start(bob, alice), turns)
    ensures AllHeard(w, Start(bob, alice), turns)
  {
    hide Inv, KeysOk, Conversation, AllHeard;
    InvStart(w, bob, alice);
    StartInStep(bob, alice);
    ConversationWorks(w, Start(bob, alice), turns);
  }

  lemma StartInStep(bob: key32, alice: key32)
    ensures InStep(Start(bob, alice))
  {}
}
