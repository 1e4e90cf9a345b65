/** Conversations of two Triple Ratchet sessions in which every message is delivered before the next
    one is sent, with providers that keep in touch. They never fail. */
module TripleConversation {
  import opened Bytes
  import opened Terms
  import opened Wire
  import opened History
  import opened TripleSpec
  import opened TripleRuns
  import opened TripleTheorems
  import opened TripleGaps
  import Ec = RatchetSpec
  import Base = BaseRuns
  import BaseGaps
  import EcTalk = BaseConversation
  import Pq = PqSpec
  import PqRuns
  import PqKeys
  import PqSystem
  import PqGaps
  import PqTalk = PqConversation

  /** The post-quantum halves alone. */
  function PqHalf(s: Net): PqSystem.System {
    PqSystem.System(s.init.pq, s.resp.pq, [])
  }

  /** Both parties have read everything, in both halves. */
  ghost predicate InStep(s: Net) {
    EcTalk.InStep(EcPart(s)) && PqTalk.InStep(PqHalf(s))
  }

  /** One party sends, with its provider's output, and the other receives what was sent, with its
      provider's answer. */
  datatype Turn = Turn(sender: Role, text: bytes, ad: bytes, gen: Option<key32>, out: Pq.SendOut, answer: Pq.RecvOut)

  function SendOf(t: Turn): Move {
    Transmit(t.sender, t.text, t.ad, t.gen, Some(t.out))
  }

  /** The sender has something to send with in both halves, and the receiver's provider reports the
      sender's epoch, for which the receiver has a chain. */
  ghost predicate Playable(w: Base.World, s: Net, t: Turn) {
    var p, q := Side(s, t.sender), Side(s, Peer(t.sender));
    && |s.keys| == |s.cnt| >= 2
    && Allowed(w, s, SendOf(t))
    && Encrypt(Base.Cfg(w, t.sender), p, t.text, t.ad, t.gen, Some(t.out)).0.Ok?
    && t.answer.epoch == t.out.epoch && PqKeys.Agreed(t.answer.output, t.answer.keyEpoch) && q.pq.epoch < U32_MAX
    && Pq.Advance(q.pq, t.answer.output, t.answer.keyEpoch, t.answer.epoch).Ok?
    && PqGaps.Receives(Pq.Advance(q.pq, t.answer.output, t.answer.keyEpoch, t.answer.epoch).value, t.answer.epoch)
  }

  function LastMessage(s: Net): TripleMessage {
    if s.entries == [] then TripleMessage(TripleHeader(Header(ZERO32, 0, 0), None), Junk([]))
    else MessageOf(s.entries[|s.entries| - 1])
  }

  /** What the other party gets out of a turn. */
  function Heard(w: Base.World, s: Net, t: Turn): Result<bytes>
    requires |s.keys| == |s.cnt| >= 2
  {
    var s1, r := Next(w, s, SendOf(t)), Peer(t.sender);
    Decrypt(Base.Cfg(w, r), Side(s1, r), LastMessage(s1), t.ad, Some(t.answer)).0
  }

  function AfterTurn(w: Base.World, s: Net, t: Turn): Net
    requires |s.keys| == |s.cnt| >= 2
  {
    var s1, r := Next(w, s, SendOf(t)), Peer(t.sender);
    SetSide(s1, r, Decrypt(Base.Cfg(w, r), Side(s1, r), LastMessage(s1), t.ad, Some(t.answer)).1)
  }

  // ---- The post-quantum half ---------------------------------------------------------------

  function PqWorld(w: Base.World): PqSystem.World {
    PqSystem.World(w.init, w.resp)
  }

  function PqTurn(t: Turn): PqTalk.Turn {
    PqTalk.Turn(Dir(t.sender), t.out, [], [], t.answer)
  }

  lemma PqReady(w: Base.World, s: Net, t: Turn)
    requires NetInv(w, s) && PqTalk.InStep(PqHalf(s)) && Playable(w, s, t)
    ensures PqSystem.Inv(PqWorld(w), PqHalf(s)) && PqTalk.Playable(PqWorld(w), PqHalf(s), PqTurn(t))
  {
    hide Base.Inv, PqKeys.KeyInv, EntryAt, Pq.Advance, Ec.SendKey, Pq.SendKey, PqTalk.UpToDate, BuildAD, TripleAD;
  }

  /** The receiver's chain stands just where the message is. */
  lemma PqInReach(w: Base.World, s: Net, t: Turn)
    requires NetInv(w, s) && PqTalk.InStep(PqHalf(s)) && Playable(w, s, t)
    ensures Pq.SendKey(Side(s, t.sender).pq, Some(t.out)).0.Ok?
    ensures PqNextInReach(Base.Cfg(w, Peer(t.sender)), Side(s, Peer(t.sender)).pq, t.answer, Pq.SendKey(Side(s, t.sender).pq, Some(t.out)).0.value.1)
  {
    hide NetInv, Pq.Advance, PqTalk.UpToDate, PqKeys.Agreed, PqGaps.Sending, TripleAD, Ec.SendKey, Pq.SendKey, PqRuns.Wf;
    var p, q := Side(s, t.sender).pq, Side(s, Peer(t.sender)).pq;
    PqReady(w, s, t);
    PqTalk.Prepared(PqWorld(w), PqHalf(s), PqTurn(t));
    SendShape(p, t.out);
    PqTalk.SameEpochs(PqGaps.Sending(p, t.out), PqTalk.Reading(q, t.answer), t.out.epoch);
  }

  /** The post-quantum halves of a turn of their own. */
  lemma PqSides(w: Base.World, s: Net, t: Turn)
    requires PqTalk.Heard(PqWorld(w), PqHalf(s), PqTurn(t)).Ok? && Pq.SendKey(Side(s, t.sender).pq, Some(t.out)).0.Ok?
    ensures var u, r := PqTalk.AfterTurn(PqWorld(w), PqHalf(s), PqTurn(t)), Peer(t.sender);
            var (sent, p) := Pq.SendKey(Side(s, t.sender).pq, Some(t.out));
            && PqSystem.Party(u, Dir(t.sender)) == p
            && PqSystem.Party(u, Dir(r)) == Pq.ReceiveKey(MaxSkip(Base.Cfg(w, r)), Side(s, r).pq, Some(t.answer), sent.value.1).1
  {
    hide Pq.SendKey, Pq.ReceiveKey, BuildAD;
  }

  // ---- The elliptic-curve half -------------------------------------------------------------

  function EcTurn(t: Turn): EcTalk.Turn {
    EcTalk.Turn(t.sender, [], [], t.gen)
  }

  lemma EcReady(w: Base.World, s: Net, t: Turn)
    requires Base.Proper(w) && NetInv(w, s) && Playable(w, s, t)
    ensures Base.Inv(w, EcPart(s)) && EcTalk.Playable(w, EcPart(s), EcTurn(t)) && Ec.SendKey(Base.Cfg(w, t.sender), Side(s, t.sender).ec, t.gen).0.Ok?
  {
    hide Base.Inv, PqKeys.KeyInv, EntryAt, Pq.Advance, Ec.SendKey, Pq.SendKey, BuildAD, TripleAD, Base.Step;
    TransmitParts(w, s, SendOf(t));
    Base.EverySend(w, EcPart(s), t.sender, [], [], t.gen);
  }

  /** Nothing is unread, so the next message is within reach. */
  lemma NothingUnread(cfg: Config, keys: seq<key32>, cnt: seq<nat>, keys': seq<key32>, before: seq<nat>, q: Role, p: Ec.State)
    requires |keys| == |cnt| >= 2 && EcTalk.UpToDate(keys, cnt, q, p)
    requires (keys' == keys && before == cnt) || (Owner(|keys| - 1) == q && !p.pending && |keys'| == |keys| + 1 && before == cnt + [0])
    ensures var pe := Base.PeerEpoch(keys', q, p);
            pe < |before| && BaseGaps.NextInReach(cfg, before, pe, p, Base.OwnEpoch(keys', Peer(q)))
  {}

  lemma EcInReach(w: Base.World, s: Net, t: Turn)
    requires Base.Proper(w) && NetInv(w, s) && InStep(s) && Playable(w, s, t)
    ensures var s1, q := Next(w, s, SendOf(t)), Peer(t.sender);
            && |s1.entries| == |s.entries| + 1 && |s1.keys| == |s1.cnt| >= 2
            && var e, p := s1.entries[|s.entries|], Side(s, q).ec;
            var pe := Base.PeerEpoch(s1.keys, q, p);
            && e.ecEpoch < |s1.cnt| && pe < |s1.cnt|
            && BaseGaps.NextInReach(Base.Cfg(w, q), Before(s1.cnt, e), pe, p, e.ecEpoch)
  {
    hide NetInv, EntryAt, Encrypt, Next, Allowed, Base.PeerEpoch, Base.OwnEpoch, Base.Step, PqTalk.InStep, Pq.Advance, PqGaps.Receives, Ec.SendKey, Pq.SendKey, TripleAD, EcTalk.UpToDate, BaseGaps.NextInReach;
    SentTogether(w, s, SendOf(t));
    var s1, q := Next(w, s, SendOf(t)), Peer(t.sender);
    var e := s1.entries[|s.entries|];
    EntryNumbered(w, s1.keys, s1.cnt, e);
    TransmitParts(w, s, SendOf(t));
    HistoryGrows(w, s, t.sender, t.gen);
    WhoOwes(w, s, t);
    NothingUnread(Base.Cfg(w, q), s.keys, s.cnt, s1.keys, Before(s1.cnt, e), q, Side(s, q).ec);
  }

  lemma WhoOwes(w: Base.World, s: Net, t: Turn)
    requires NetInv(w, s) && Allowed(w, s, SendOf(t))
    ensures |s.keys| >= 2
    ensures Side(s, t.sender).ec.pending ==> t.gen.Some? && Owner(|s.keys| - 1) == Peer(t.sender) && !Side(s, Peer(t.sender)).ec.pending
  {
    hide Base.Inv, PqKeys.KeyInv, EntryAt, PqKeys.SendInRange;
    EcSize(w, s);
    if Side(s, t.sender).ec.pending {
      Base.PartyOwner(w, EcPart(s), t.sender);
    }
  }

  /** The elliptic-curve halves of a turn of their own. */
  lemma EcSides(w: Base.World, s: Net, t: Turn)
    requires |s.keys| == |s.cnt| >= 2 && Ec.SendKey(Base.Cfg(w, t.sender), Side(s, t.sender).ec, t.gen).0.Ok?
    requires EcTalk.HasMessage(EcTalk.Sending(w, EcPart(s), EcTurn(t))) && EcTalk.Heard(w, EcPart(s), EcTurn(t)).Ok?
    ensures var s1, u, r := Base.Step(w, EcPart(s), Base.Send(t.sender, [], [], t.gen)), EcTalk.AfterTurn(w, EcPart(s), EcTurn(t)), Peer(t.sender);
            var h := Ec.SendKey(Base.Cfg(w, t.sender), Side(s, t.sender).ec, t.gen).0.value.0;
            && u.keys == s1.keys && u.cnt == s1.cnt
            && Base.Party(u, t.sender) == Base.Party(s1, t.sender)
            && Ec.ReceiveKey(Base.Cfg(w, r), Side(s, r).ec, h).Ok?
            && Base.Party(u, r) == Ec.ReceiveKey(Base.Cfg(w, r), Side(s, r).ec, h).value.1
  {
    hide Ec.SendKey, Ec.ReceiveKey, BuildAD;
  }

  // ---- One turn ----------------------------------------------------------------------------

  /** What is sent is what the other party gets. */
  lemma TurnHeard(w: Base.World, s: Net, t: Turn)
    requires Base.Proper(w) && NetInv(w, s) && Within(s) && InStep(s) && Playable(w, s, t)
    ensures Heard(w, s, t) == Ok(t.text)
  {
    hide NetInv, Within, EntryAt, Encrypt, Decrypt, Next, Allowed, EcTalk.InStep, PqTalk.InStep, Pq.Advance, PqGaps.Receives, PqNextInReach, BaseGaps.NextInReach, BaseGaps.Unread, Before;
    NextDecrypts(w, s, SendOf(t), t.answer);
    SentTogether(w, s, SendOf(t));
    EcInReach(w, s, t);
    PqInReach(w, s, t);
    SentParts(w, s, t);
  }

  /** What the send and the receipt of a turn leave, half by half. */
  lemma SentParts(w: Base.World, s: Net, t: Turn)
    requires |s.keys| == |s.cnt| >= 2 && Playable(w, s, t)
    ensures var s1, r := Next(w, s, SendOf(t)), t.sender;
            var ec, pq := Ec.SendKey(Base.Cfg(w, r), Side(s, r).ec, t.gen), Pq.SendKey(Side(s, r).pq, Some(t.out));
            && ec.0.Ok? && pq.0.Ok? && |s1.entries| == |s.entries| + 1
            && EcPart(s1) == Base.Step(w, EcPart(s), Base.Send(r, [], [], t.gen)).(log := [])
            && Side(s1, r).pq == pq.1 && Side(s1, Peer(r)) == Side(s, Peer(r))
            && LastMessage(s1).header == TripleHeader(ec.0.value.0, Some(SckaHeader(pq.0.value.0, pq.0.value.1)))
            && s1.entries[|s.entries|].pq.n == pq.0.value.1
  {
    hide Allowed, Encrypt, Next, Ec.SendKey, Pq.SendKey, TripleAD, Base.Step, Pq.Advance;
    TransmitParts(w, s, SendOf(t));
  }

  lemma AfterParts(w: Base.World, s: Net, t: Turn)
    requires |s.keys| == |s.cnt| >= 2 && Playable(w, s, t) && Heard(w, s, t).Ok?
    ensures var r, q := t.sender, Peer(t.sender);
            var s1, u := Next(w, s, SendOf(t)), AfterTurn(w, s, t);
            var hs := LastMessage(s1).header.pq;
            && u.keys == s1.keys && u.cnt == s1.cnt && Side(u, r) == Side(s1, r) && hs.Some?
            && Ec.ReceiveKey(Base.Cfg(w, q), Side(s, q).ec, LastMessage(s1).header.ec).Ok?
            && Side(u, q) == State(Ec.ReceiveKey(Base.Cfg(w, q), Side(s, q).ec, LastMessage(s1).header.ec).value.1,
                                   Pq.ReceiveKey(MaxSkip(Base.Cfg(w, q)), Side(s, q).pq, Some(t.answer), hs.value.n).1)
  {
    hide Playable, Decrypt, Next, Ec.ReceiveKey, Pq.ReceiveKey, TripleAD;
    SentParts(w, s, t);
    var s1, q := Next(w, s, SendOf(t)), Peer(t.sender);
    ArriveParts(Base.Cfg(w, q), Side(s1, q), LastMessage(s1), t.ad, Some(t.answer));
  }

  lemma PqAfter(w: Base.World, s: Net, t: Turn)
    requires Base.Proper(w) && NetInv(w, s) && Within(s) && InStep(s) && Playable(w, s, t) && Heard(w, s, t).Ok?
    ensures PqTalk.InStep(PqHalf(AfterTurn(w, s, t)))
  {
    hide NetInv, EcBounded, Playable, Heard, AfterTurn, Next, Decrypt, EcTalk.InStep, PqTalk.InStep, PqTalk.Heard, PqTalk.AfterTurn, PqTalk.Playable, PqSystem.Inv, Ec.ReceiveKey, Pq.ReceiveKey, Ec.SendKey, Pq.SendKey, PqGaps.Behind, Base.Step;
    PqReady(w, s, t);
    PqTalk.TurnWorks(PqWorld(w), PqHalf(s), PqTurn(t));
    SentParts(w, s, t);
    PqSides(w, s, t);
    AfterParts(w, s, t);
    InStepSides(PqHalf(AfterTurn(w, s, t)), PqTalk.AfterTurn(PqWorld(w), PqHalf(s), PqTurn(t)));
  }

  lemma InStepSides(s: PqSystem.System, u: PqSystem.System)
    requires s.a == u.a && s.b == u.b && PqTalk.InStep(u)
    ensures PqTalk.InStep(s)
  {
    hide PqTalk.UpToDate;
  }

  lemma EcAfter(w: Base.World, s: Net, t: Turn)
    requires Base.Proper(w) && NetInv(w, s) && InStep(s) && Playable(w, s, t) && Heard(w, s, t).Ok?
    ensures EcTalk.InStep(EcPart(AfterTurn(w, s, t)))
  {
    hide NetInv, Playable, Heard, AfterTurn, Next, Decrypt, EcTalk.UpToDate, PqTalk.InStep, EcTalk.Heard, EcTalk.AfterTurn, EcTalk.Playable, EcTalk.HasMessage, EcTalk.Sending, Base.Inv, Ec.ReceiveKey, Pq.ReceiveKey, Ec.SendKey, Pq.SendKey, Base.Step;
    EcReady(w, s, t);
    EcTalk.TurnWorks(w, EcPart(s), EcTurn(t));
    SentParts(w, s, t);
    EcSides(w, s, t);
    AfterParts(w, s, t);
  }

  /** One turn works, and leaves the parties ready for the next. */
  lemma TurnWorks(w: Base.World, s: Net, t: Turn)
    requires Base.Proper(w) && NetInv(w, s) && Within(s) && InStep(s) && Playable(w, s, t)
    ensures Heard(w, s, t) == Ok(t.text)
    ensures NetInv(w, AfterTurn(w, s, t)) && Within(AfterTurn(w, s, t)) && InStep(AfterTurn(w, s, t))
  {
    hide NetInv, Within, EntryAt, Decrypt, Encrypt, Next, EcTalk.InStep, PqTalk.InStep, Pq.Advance, PqGaps.Receives, Allowed;
    TurnHeard(w, s, t);
    EcAfter(w, s, t);
    PqAfter(w, s, t);
    MoveInv(w, s, SendOf(t));
    MoveWithin(w, s, SendOf(t));
    SentTogether(w, s, SendOf(t));
    SentParts(w, s, t);
    var s1 := Next(w, s, SendOf(t));
    NewArrives(w, s1, |s.entries|, t.answer);
    var v := Arrive(Peer(t.sender), LastMessage(s1), t.ad, Some(t.answer));
    ArriveIs(w, s1, v);
    MoveInv(w, s1, v);
    MoveWithin(w, s1, v);
  }

  lemma ArriveIs(w: Base.World, s: Net, v: Move)
    requires |s.keys| == |s.cnt| >= 2 && v.Arrive?
    ensures Next(w, s, v) == SetSide(s, v.receiver, Decrypt(Base.Cfg(w, v.receiver), Side(s, v.receiver), v.msg, v.ad, v.recvOut).1)
  {
    hide Decrypt;
  }

  // ---- Conversations -----------------------------------------------------------------------

  /** Every turn is playable when it comes. */
  ghost predicate Conversation(w: Base.World, s: Net, turns: seq<Turn>)
    decreases |turns|
  {
    turns != [] ==> Playable(w, s, turns[0]) && Conversation(w, AfterTurn(w, s, turns[0]), turns[1..])
  }

  ghost predicate AllHeard(w: Base.World, s: Net, turns: seq<Turn>)
    decreases |turns|
  {
    turns != [] ==>
      && |s.keys| == |s.cnt| >= 2
      && Heard(w, s, turns[0]) == Ok(turns[0].text) && AllHeard(w, AfterTurn(w, s, turns[0]), turns[1..])
  }

  lemma {:induction false} ConversationWorks(w: Base.World, s: Net, turns: seq<Turn>)
    requires Base.Proper(w) && NetInv(w, s) && Within(s) && InStep(s) && Conversation(w, s, turns)
    ensures AllHeard(w, s, turns)
    decreases |turns|
  {
    hide NetInv, Within, InStep, Heard, AfterTurn, Allowed, Encrypt, Pq.Advance, PqGaps.Receives;
    if turns != [] {
      TurnWorks(w, s, turns[0]);
      ConversationWorks(w, AfterTurn(w, s, turns[0]), turns[1..]);
    }
  }

  /** Two freshly initialised sessions can talk for as long as they like, through any number of DH
      steps and post-quantum epochs, and every message decrypts to what was sent. */
  lemma EveryConversation(w: Base.World, bob: key32, alice: key32, turns: seq<Turn>)
    requires Base.Proper(w) && KeysOk([bob, alice], w.init.lowOrder) && Conversation(w, Begin(bob, alice), turns)
    ensures AllHeard(w, Begin(bob, alice), turns)
  {
    hide NetInv, KeysOk, Within, Conversation, AllHeard;
    BeginInv(w, bob, alice);
    BeginWithin(bob, alice);
    BeginInStep(bob, alice);
    ConversationWorks(w, Begin(bob, alice), turns);
  }

  lemma BeginInStep(bob: key32, alice: key32)
    ensures InStep(Begin(bob, alice))
  {}
}
