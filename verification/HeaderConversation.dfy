/** Conversations of two header-encryption sessions in which every message is delivered before the
    next one is sent. They never fail, however often the parties take turns. */
module HeaderConversation {
  import opened Bytes
  import opened Terms
  import opened Wire
  import opened SkippedQueue
  import opened History
  import opened HeaderSpec
  import opened HeaderRuns
  import Base = BaseRuns
  import HeaderTheorems

  /** `r` has read everything its peer has sent. */
  ghost predicate UpToDate(keys: seq<key32>, cnt: seq<nat>, r: Role, p: HeaderSpec.State)
    requires |keys| == |cnt| >= 2
  {
    var me: int, pe := Base.OwnEpoch(keys, Peer(r)), Base.PeerEpoch(keys, r, p.dr);
    && (pe == me && me >= 1 ==> NextN(p) == cnt[me])
    && (pe == me - 2 ==> cnt[me] == 0 && (pe >= 1 ==> NextN(p) == cnt[pe]))
  }

  ghost predicate InStep(s: System) {
    && |s.keys| == |s.cnt| >= 2
    && UpToDate(s.keys, s.cnt, Initiator, s.init) && UpToDate(s.keys, s.cnt, Responder, s.resp)
  }

  /** One party sends and the other receives what was sent. */
  datatype Turn = Turn(sender: Role, text: bytes, ad: bytes, gen: Option<key32>)

  /** The sender has something to send with: the responder must have heard from the initiator. */
  ghost predicate Playable(w: Base.World, s: System, t: Turn) {
    && |s.keys| == |s.cnt| >= 2
    && Enabled(w, s, Send(t.sender, t.text, t.ad, t.gen))
    && (Party(s, t.sender).dr.pending || Base.OwnEpoch(s.keys, t.sender) != 0)
  }

  // ---- Reading the next message ------------------------------------------------------------

  /** Reading the next message in order moves the reader exactly one position on. */
  lemma ReadsNext(cfg: Config, keys: seq<key32>, cnt: seq<nat>, r: Role, p: HeaderSpec.State, header: SealedHeader, j: nat, h: Header)
    requires |keys| == |cnt| >= 2 && PartyInv(keys, cnt, r, p) && KeysOk(keys, cfg.lowOrder)
    requires HonestHeader(keys, header, j, h) && h.n < U32_MAX
    requires (j == Base.PeerEpoch(keys, r, p.dr) && h.n == NextN(p)) || j == Base.PeerEpoch(keys, r, p.dr) + 2
    requires ReceiveKey(cfg, p, header).Ok?
    ensures var p1 := ReceiveKey(cfg, p, header).value.1;
            NextN(p1) == h.n + 1 && Base.PeerEpoch(keys, r, p1.dr) == j
  {
    hide StoreInv, HK, MK, Filed, ReceiveKey, ReceiveOnChain, RatchetRecv, Base.ChainsInv, KeysOk, C, R, Opens, Distinct, Adv, Has, StoreRange, EncodeHeader, DecodeHeader;
    var pe := Base.PeerEpoch(keys, r, p.dr);
    HonestOpens(keys, header, j, h);
    OpenedBy(keys, Base.OwnEpoch(keys, r), pe, p, header, j, h);
    NotFiled(keys, cnt, r, p, header, j, h);
    if j == pe {
      CurrentOutcome(cfg, p, header, h);
      OnChainOutcome(cfg, keys, j, p, h.n);
    } else {
      NextOutcome(cfg, p, header, h);
      RatchetRecvKeepsParty(cfg, keys, cnt, r, p, h);
      OnChainOutcome(cfg, keys, j, RatchetRecv(cfg, p, h, true).value, h.n);
    }
  }

  lemma NotFiled(keys: seq<key32>, cnt: seq<nat>, r: Role, p: HeaderSpec.State, header: SealedHeader, j: nat, h: Header)
    requires |keys| == |cnt| >= 2 && PartyInv(keys, cnt, r, p) && HonestHeader(keys, header, j, h)
    requires (j == Base.PeerEpoch(keys, r, p.dr) && h.n == NextN(p)) || j == Base.PeerEpoch(keys, r, p.dr) + 2
    ensures !Filed(p.dr.skipped, header)
  {
    hide RatchetInv, HeaderKeysInv, HK, MK, Filed, StoreInv, PartyInv;
    PartyStore(keys, cnt, r, p);
    if Filed(p.dr.skipped, header) {
      FiledKey(keys, Base.PeerEpoch(keys, r, p.dr), NextN(p), p.dr.skipped, header, j, h);
    }
  }

  // ---- One turn ----------------------------------------------------------------------------

  /** Taking the owed sending step leaves both readers up to date. */
  lemma RatchetedInStep(w: Base.World, s: System, r: Role, k: key32)
    requires Inv(w, s) && InStep(s) && Party(s, r).dr.pending
    requires RatchetSend(Base.Cfg(w, r), Party(s, r), Some(k)).0.None?
    ensures InStep(Ratcheted(w, s, r, k))
  {
    hide PartyInv, KeysOk, LogAt;
    PartyOwner(w, s, r);
  }

  /** What the peer of the sender makes of the message just sent. */
  lemma SentIsRead(w: Base.World, s: System, r: Role, text: bytes, ad: bytes, gen: Option<key32>)
    requires Base.Proper(w) && Inv(w, s) && InStep(s)
    requires !Party(s, r).dr.pending && Party(s, r).dr.ns < U32_MAX && Base.OwnEpoch(s.keys, r) != 0
    ensures var s1 := Step(w, s, Send(r, text, ad, gen));
            && Inv(w, s1) && |s1.keys| == |s1.cnt| >= 2 && |s1.log| == |s.log| + 1
            && var m := s1.log[|s.log|].msg;
            && Enabled(w, s1, Deliver(Peer(r), m, ad))
            && Decrypt(Base.Cfg(w, Peer(r)), Party(s1, Peer(r)), m, ad).0 == Ok(text)
            && InStep(Step(w, s1, Deliver(Peer(r), m, ad)))
  {
    hide PartyInv, KeysOk, LogAt, Encrypt, Step, Decrypt, InWindow, UpToDate;
    SendOnChainInv(w, s, r, text, ad, gen);
    SentEntry(w, s, r, text, ad, gen);
    var s1, i := Step(w, s, Send(r, text, ad, gen)), |s.log|;
    EntryOwner(w, s, r, text, ad, gen);
    NextInWindow(w, s, r, text, ad, gen);
    HeaderTheorems.DeliveryWindow(w, s1, Peer(r), i);
    LastSent(w, s, r, text, ad, gen);
    ReadInStep(w, s, r, text, ad, gen);
  }

  lemma LastSent(w: Base.World, s: System, r: Role, text: bytes, ad: bytes, gen: Option<key32>)
    requires |s.keys| == |s.cnt| >= 2
    ensures var s1 := Step(w, s, Send(r, text, ad, gen));
            |s1.log| > |s.log| ==> s1.log[|s.log|].text == text && s1.log[|s.log|].ad == ad
  {
    hide Encrypt, DecodeHeader;
  }

  lemma EntryOwner(w: Base.World, s: System, r: Role, text: bytes, ad: bytes, gen: Option<key32>)
    requires Inv(w, s) && !Party(s, r).dr.pending && Party(s, r).dr.ns < U32_MAX && Base.OwnEpoch(s.keys, r) != 0
    requires Inv(w, Step(w, s, Send(r, text, ad, gen)))
    ensures var s1 := Step(w, s, Send(r, text, ad, gen));
            |s1.log| == |s.log| + 1
            && Owner(s1.log[|s.log|].epoch) == r
  {
    hide PartyInv, KeysOk, LogAt, Encrypt, Step, HonestHeader;
    SentEntry(w, s, r, text, ad, gen);
    CounterIsNs(s.keys, s.cnt, r, Party(s, r));
    var s1 := Step(w, s, Send(r, text, ad, gen));
    LogHonest(w, s1, |s.log|);
    HonestOpens(s1.keys, s1.log[|s.log|].msg.header, s1.log[|s.log|].epoch, s1.log[|s.log|].header);
  }

  lemma CounterIsNs(keys: seq<key32>, cnt: seq<nat>, r: Role, p: HeaderSpec.State)
    requires |keys| == |cnt| >= 2 && PartyInv(keys, cnt, r, p)
    ensures p.dr.ns == cnt[Base.OwnEpoch(keys, r)]
  {
    hide StoreInv, HeaderKeysInv, Base.ChainsInv;
  }

  lemma NextInWindow(w: Base.World, s: System, r: Role, text: bytes, ad: bytes, gen: Option<key32>)
    requires Inv(w, s) && InStep(s) && !Party(s, r).dr.pending && Party(s, r).dr.ns < U32_MAX && Base.OwnEpoch(s.keys, r) != 0
    ensures var s1 := Step(w, s, Send(r, text, ad, gen));
            && |s1.log| == |s.log| + 1 && |s1.keys| >= 2
            && var e, p := s1.log[|s.log|], Party(s1, Peer(r));
            && p == Party(s, Peer(r))
            && InWindow(Base.Cfg(w, Peer(r)), Base.PeerEpoch(s1.keys, Peer(r), p.dr), p, e.msg.header, e.epoch, e.header)
            && (e.epoch == Base.PeerEpoch(s1.keys, Peer(r), p.dr) ==> e.header.n == NextN(p))
            && (e.epoch == Base.PeerEpoch(s1.keys, Peer(r), p.dr) || e.epoch == Base.PeerEpoch(s1.keys, Peer(r), p.dr) + 2)
  {
    hide PartyInv, KeysOk, Encrypt, Step, Filed, HK, MK, EncodeHeader;
    SentEntry(w, s, r, text, ad, gen);
    ReaderEpoch(s.keys, s.cnt, Peer(r), Party(s, Peer(r)));
  }

  /** Where the reader stands: in the sender's current epoch or in the one before. */
  lemma ReaderEpoch(keys: seq<key32>, cnt: seq<nat>, r: Role, p: HeaderSpec.State)
    requires |keys| == |cnt| >= 2 && PartyInv(keys, cnt, r, p)
    ensures var me: int, pe := Base.OwnEpoch(keys, Peer(r)), Base.PeerEpoch(keys, r, p.dr);
            (pe == me || pe == me - 2) && (pe <= 0 ==> p.dr.chains == [])
  {
    hide StoreInv, HeaderKeysInv, HK, R, C;
  }

  lemma ReadInStep(w: Base.World, s: System, r: Role, text: bytes, ad: bytes, gen: Option<key32>)
    requires Base.Proper(w) && Inv(w, s) && InStep(s)
    requires !Party(s, r).dr.pending && Party(s, r).dr.ns < U32_MAX && Base.OwnEpoch(s.keys, r) != 0
    requires var s1 := Step(w, s, Send(r, text, ad, gen));
             && Inv(w, s1) && |s1.keys| == |s1.cnt| >= 2 && |s1.log| == |s.log| + 1
             && Decrypt(Base.Cfg(w, Peer(r)), Party(s1, Peer(r)), s1.log[|s.log|].msg, ad).0.Ok?
    ensures var s1 := Step(w, s, Send(r, text, ad, gen));
            InStep(Step(w, s1, Deliver(Peer(r), s1.log[|s.log|].msg, ad)))
  {
    hide PartyInv, KeysOk, LogAt, Encrypt, HonestHeader, ReceiveKey, InWindow, Decrypt, Step, Open;
    var s1, i, q := Step(w, s, Send(r, text, ad, gen)), |s.log|, Peer(r);
    var m := s1.log[i].msg;
    SentEntry(w, s, r, text, ad, gen);
    NextInWindow(w, s, r, text, ad, gen);
    LogHonest(w, s1, i);
    DeliveredState(w, s1, q, m, ad);
    ReadsNext(Base.Cfg(w, q), s1.keys, s1.cnt, q, Party(s1, q), m.header, s1.log[i].epoch, s1.log[i].header);
    HeaderTheorems.SendingSet(s.keys, s.cnt, r, Party(s, r));
    HeaderTheorems.EncryptFrame(Base.Cfg(w, r), Party(s, r), text, ad, gen);
  }

  lemma DeliveredState(w: Base.World, s: System, r: Role, m: HeMessage, ad: bytes)
    requires |s.keys| == |s.cnt| >= 2 && Decrypt(Base.Cfg(w, r), Party(s, r), m, ad).0.Ok?
    ensures var t := Step(w, s, Deliver(r, m, ad));
            && ReceiveKey(Base.Cfg(w, r), Party(s, r), m.header).Ok?
            && Party(t, r) == ReceiveKey(Base.Cfg(w, r), Party(s, r), m.header).value.1 && Party(t, Peer(r)) == Party(s, Peer(r))
            && t.keys == s.keys && t.cnt == s.cnt
  {
    hide ReceiveKey;
  }

  /** The message of a turn, once it has been sent. */
  function Sending(w: Base.World, s: System, t: Turn): System
    requires |s.keys| == |s.cnt| >= 2
  {
    Step(w, s, Send(t.sender, t.text, t.ad, t.gen))
  }

  function LastMessage(s: System): HeMessage {
    if s.log == [] then HeMessage(JunkHeader([]), Junk([])) else s.log[|s.log| - 1].msg
  }

  /** What the other party gets out of a turn. */
  function Heard(w: Base.World, s: System, t: Turn): Result<bytes>
    requires |s.keys| == |s.cnt| >= 2
  {
    Decrypt(Base.Cfg(w, Peer(t.sender)), Party(Sending(w, s, t), Peer(t.sender)), LastMessage(Sending(w, s, t)), t.ad).0
  }

  function AfterTurn(w: Base.World, s: System, t: Turn): System
    requires |s.keys| == |s.cnt| >= 2
    requires var s1 := Sending(w, s, t); |s1.keys| == |s1.cnt| >= 2
  {
    Step(w, Sending(w, s, t), Deliver(Peer(t.sender), LastMessage(Sending(w, s, t)), t.ad))
  }

  /** One turn works, and leaves the parties ready for the next. */
  lemma TurnWorks(w: Base.World, s: System, t: Turn)
    requires Base.Proper(w) && Inv(w, s) && InStep(s) && Playable(w, s, t)
    ensures var s1 := Sending(w, s, t);
            && |s1.keys| == |s1.cnt| >= 2
            && Heard(w, s, t) == Ok(t.text)
            && Inv(w, AfterTurn(w, s, t)) && InStep(AfterTurn(w, s, t))
  {
    hide Inv, InStep, Step, RatchetSend, Decrypt, Obtainable;
    var s0 := s;
    if Party(s, t.sender).dr.pending {
      RatchetedInv(w, s, t.sender, t.gen.value);
      RatchetedInStep(w, s, t.sender, t.gen.value);
      StepRatcheted(w, s, t.sender, t.text, t.ad, t.gen);
      RatchetedEpoch(w, s, t.sender, t.gen.value);
      s0 := Ratcheted(w, s, t.sender, t.gen.value);
    }
    SentIsRead(w, s0, t.sender, t.text, t.ad, t.gen);
    DeliverInv(w, Sending(w, s, t), Peer(t.sender), LastMessage(Sending(w, s, t)), t.ad);
  }

  lemma RatchetedEpoch(w: Base.World, s: System, r: Role, k: key32)
    requires Inv(w, s) && Party(s, r).dr.pending
    ensures Base.OwnEpoch(s.keys + [k], r) != 0
  {
    hide PartyInv, LogAt, KeysOk;
    PartyOwner(w, s, r);
  }

  /** Every turn of the conversation is playable when it comes. */
  ghost predicate Conversation(w: Base.World, s: System, turns: seq<Turn>)
    decreases |turns|
  {
    turns != [] ==>
      && Playable(w, s, turns[0])
      && var s1 := Sending(w, s, turns[0]);
      |s1.keys| == |s1.cnt| >= 2 ==> Conversation(w, AfterTurn(w, s, turns[0]), turns[1..])
  }

  /** Every turn gets across. */
  ghost predicate AllHeard(w: Base.World, s: System, turns: seq<Turn>)
    decreases |turns|
  {
    turns != [] ==>
      && |s.keys| == |s.cnt| >= 2
      && var s1 := Sending(w, s, turns[0]);
      && |s1.keys| == |s1.cnt| >= 2
      && Heard(w, s, turns[0]) == Ok(turns[0].text)
      && AllHeard(w, AfterTurn(w, s, turns[0]), turns[1..])
  }

  lemma {:induction false} ConversationWorks(w: Base.World, s: System, turns: seq<Turn>)
    requires Base.Proper(w) && Inv(w, s) && InStep(s) && Conversation(w, s, turns)
    ensures AllHeard(w, s, turns)
    decreases |turns|
  {
    hide Inv, InStep, Step, Decrypt, Enabled, Sending, LastMessage, Heard, AfterTurn;
    if turns != [] {
      TurnWorks(w, s, turns[0]);
      ConversationWorks(w, AfterTurn(w, s, turns[0]), turns[1..]);
    }
  }

  /** Two freshly initialised sessions can talk for as long as they like, taking turns in any
      order, and every message decrypts to what was sent. */
  lemma EveryConversation(w: Base.World, bob: key32, alice: key32, turns: seq<Turn>)
    requires Base.Proper(w) && KeysOk([bob, alice], w.init.lowOrder) && Conversation(w, Start(bob, alice), turns)
    ensures AllHeard(w, Start(bob, alice), turns)
  {
    hide Inv, KeysOk, Conversation, AllHeard;
    InvStart(w, bob, alice);
    StartInStep(bob, alice);
    ConversationWorks(w, Start(bob, alice), turns);
  }

  lemma StartInStep(bob: key32, alice: key32)
    ensures InStep(Start(bob, alice))
  {}
}
