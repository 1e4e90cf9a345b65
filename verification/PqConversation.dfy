/** Conversations of two post-quantum sessions in which every message is delivered before the next
    one is sent, with providers that keep in touch. They never fail. */
module PqConversation {
  import opened Bytes
  import opened Terms
  import opened Wire
  import opened PqSpec
  import opened PqRuns
  import opened PqKeys
  import opened PqSystem
  import opened PqGaps

  /** In every epoch that both have, `reader` has read exactly what `writer` has sent. */
  ghost predicate UpToDate(reader: State, writer: State) {
    forall e: u32 ::
      && (Receives(reader, e) && e > writer.epoch ==> reader.chains[e].recv.value.n == 0)
      && (Sends(writer, e) && e > reader.epoch ==> writer.chains[e].send.value.n == 0)
      && (Receives(reader, e) && Sends(writer, e) ==> reader.chains[e].recv.value.n == writer.chains[e].send.value.n)
  }

  ghost predicate InStep(s: System) {
    UpToDate(s.a, s.b) && UpToDate(s.b, s.a)
  }

  /** One party sends, with its provider's output, and the other receives what was sent, with its
      provider's answer. */
  datatype Turn = Turn(sender: Direction, out: SendOut, text: bytes, ad: bytes, answer: RecvOut)

  /** The sender has a chain for the epoch its provider reports, and so has the receiver, whose
      provider reports the same. */
  ghost predicate Playable(w: World, s: System, t: Turn) {
    var r := Opposite(t.sender);
    && Enabled(s, PqSystem.Send(t.sender, Some(t.out), t.text, t.ad))
    && Encrypt(Cfg(w, t.sender), Party(s, t.sender), Some(t.out), t.text, t.ad).0.Ok?
    && t.answer.epoch == t.out.epoch && Agreed(t.answer.output, t.answer.keyEpoch) && Party(s, r).epoch < U32_MAX
    && Advance(Party(s, r), t.answer.output, t.answer.keyEpoch, t.answer.epoch).Ok?
    && Receives(Advance(Party(s, r), t.answer.output, t.answer.keyEpoch, t.answer.epoch).value, t.answer.epoch)
  }

  // ---- Taking in provider output -----------------------------------------------------------

  lemma RenewedInStep(s: State, t: State, other: State)
    requires Renewed(s, t) && UpToDate(s, other) && UpToDate(other, s)
    ensures UpToDate(t, other) && UpToDate(other, t)
  {
    assert forall e: u32 :: Receives(t, e) && e in s.chains && t.chains[e] == s.chains[e] ==> Receives(s, e);
    assert forall e: u32 :: Sends(t, e) && e in s.chains && t.chains[e] == s.chains[e] ==> Sends(s, e);
  }

  lemma DropInStep(s: State, sending: u32, other: State)
    requires UpToDate(s, other) && UpToDate(other, s)
    ensures UpToDate(DropSend(s, sending), other) && UpToDate(other, DropSend(s, sending))
  {
    var t := DropSend(s, sending);
    assert forall e: u32 :: Sends(t, e) ==> Sends(s, e) && t.chains[e].send == s.chains[e].send;
    assert forall e: u32 :: Receives(t, e) ==> Receives(s, e) && t.chains[e].recv == s.chains[e].recv;
  }

  /** Sending and reading one message moves both counters. */
  lemma BothMove(p: State, r: State, e: u32, c: KdfChain, k: KdfChain, r1: State)
    requires UpToDate(p, r) && UpToDate(r, p) && Sends(p, e) && Receives(r, e) && e <= p.epoch && e <= r.epoch
    requires c.n == p.chains[e].send.value.n + 1 == k.n
    requires r1.epoch == r.epoch && r1.chains == r.chains[e := r.chains[e].(recv := Some(k))]
    ensures var p1 := p.(chains := p.chains[e := p.chains[e].(send := Some(c))]);
            UpToDate(p1, r1) && UpToDate(r1, p1)
  {
    var p1 := p.(chains := p.chains[e := p.chains[e].(send := Some(c))]);
    assert forall f: u32 :: Sends(p1, f) <==> Sends(p, f);
    assert forall f: u32 :: Receives(p1, f) <==> Receives(p, f);
    assert forall f: u32 :: Sends(r1, f) <==> Sends(r, f);
    assert forall f: u32 :: Receives(r1, f) <==> Receives(r, f);
    assert forall f: u32 :: Receives(p, f) ==> p1.chains[f].recv == p.chains[f].recv;
    assert forall f: u32 :: Sends(r, f) ==> r1.chains[f].send == r.chains[f].send;
    assert forall f: u32 :: Sends(p, f) && f != e ==> p1.chains[f].send == p.chains[f].send;
    assert forall f: u32 :: Receives(r, f) && f != e ==> r1.chains[f].recv == r.chains[f].recv;
  }

  /** The state in which a receiver reads: past the provider's answer. */
  function Reading(s: State, answer: RecvOut): State
    requires Advance(s, answer.output, answer.keyEpoch, answer.epoch).Ok?
  {
    Advance(s, answer.output, answer.keyEpoch, answer.epoch).value
  }

  /** Both parties' provider output, taken in before the message is sent and read. */
  lemma Prepared(w: World, s: System, t: Turn)
    requires Inv(w, s) && InStep(s) && Playable(w, s, t)
    ensures Advance(Party(s, t.sender), t.out.output, t.out.keyEpoch, t.out.epoch).Ok?
    ensures var p, r := Sending(Party(s, t.sender), t.out), Reading(Party(s, Opposite(t.sender)), t.answer);
            && UpToDate(p, r) && UpToDate(r, p) && Wf(p) && Wf(r)
            && Sends(p, t.out.epoch) && Receives(r, t.out.epoch) && t.out.epoch <= p.epoch && t.out.epoch <= r.epoch
  {
    hide Inv, Advance, DropSend, UpToDate, Renewed, BuildAD, EncodeSckaHeader;
    var p, r := Party(s, t.sender), Party(s, Opposite(t.sender));
    PartyWf(w, s, t.sender);
    PartyWf(w, s, Opposite(t.sender));
    SentShape(w, s, t.sender, t.out, t.text, t.ad);
    AdvanceRenews(p, t.out.output, t.out.keyEpoch, t.out.epoch);
    AdvanceKeeps(p, t.out.output, t.out.keyEpoch, t.out.epoch);
    var p1 := Advance(p, t.out.output, t.out.keyEpoch, t.out.epoch).value;
    RenewedInStep(p, p1, r);
    DropKeeps(p1, t.out.epoch);
    DropInStep(p1, t.out.epoch, r);
    AdvanceRenews(r, t.answer.output, t.answer.keyEpoch, t.answer.epoch);
    AdvanceKeeps(r, t.answer.output, t.answer.keyEpoch, t.answer.epoch);
    RenewedInStep(r, Reading(r, t.answer), Sending(p, t.out));
  }

  // ---- One turn ----------------------------------------------------------------------------

  function AfterSend(w: World, s: System, t: Turn): System {
    Step(w, s, PqSystem.Send(t.sender, Some(t.out), t.text, t.ad))
  }

  function LastSent(s: System): Sent {
    if s.log == [] then Sent(A2B, 0, SckaHeader([], 0), [], [], Junk([])) else s.log[|s.log| - 1]
  }

  /** What the other party gets out of a turn. */
  function Heard(w: World, s: System, t: Turn): Result<bytes> {
    var s1, r := AfterSend(w, s, t), Opposite(t.sender);
    Decrypt(Cfg(w, r), Party(s1, r), Some(t.answer), LastSent(s1).header, LastSent(s1).ct, t.ad).0
  }

  function AfterTurn(w: World, s: System, t: Turn): System {
    var s1 := AfterSend(w, s, t);
    Step(w, s1, Deliver(Opposite(t.sender), Some(t.answer), LastSent(s1).header, LastSent(s1).ct, t.ad))
  }

  /** One turn works, and leaves the parties ready for the next. */
  lemma TurnWorks(w: World, s: System, t: Turn)
    requires Paired(w.a, w.b) && Inv(w, s) && AllBehind(s) && InStep(s) && Playable(w, s, t)
    ensures Heard(w, s, t) == Ok(t.text)
    ensures Inv(w, AfterTurn(w, s, t)) && AllBehind(AfterTurn(w, s, t)) && InStep(AfterTurn(w, s, t))
  {
    hide Inv, AllBehind, Step, Advance, SendKey, ReceiveKey, Decrypt, Encrypt, DropSend, UpToDate, Wf;
    var d, r, s1 := t.sender, Opposite(t.sender), AfterSend(w, s, t);
    Prepared(w, s, t);
    SentShape(w, s, d, t.out, t.text, t.ad);
    NextDecrypts(w, s, d, t.out, t.text, t.ad, t.answer);
    StepInv(w, s, PqSystem.Send(d, Some(t.out), t.text, t.ad));
    SendBehind(w, s, d, Some(t.out), t.text, t.ad);
    SameEpochs(Sending(Party(s, d), t.out), Reading(Party(s, r), t.answer), t.out.epoch);
    var e := s1.log[|s1.log| - 1];
    assert Obtainable(s1, e.ct);
    StepInv(w, s1, Deliver(r, Some(t.answer), e.header, e.ct, t.ad));
    DeliverBehind(w, s1, r, Some(t.answer), e.header, e.ct, t.ad);
    SendRange(Party(s, d), t.out);
    TurnInStep(w, s, t);
  }

  lemma SameEpochs(p: State, r: State, e: u32)
    requires UpToDate(r, p) && Sends(p, e) && Receives(r, e)
    ensures r.chains[e].recv.value.n == p.chains[e].send.value.n
  {}

  lemma TurnInStep(w: World, s: System, t: Turn)
    requires Inv(w, s) && InStep(s) && Playable(w, s, t) && Heard(w, s, t).Ok?
    requires var p := Party(s, t.sender);
             && Advance(p, t.out.output, t.out.keyEpoch, t.out.epoch).Ok? && Sends(Sending(p, t.out), t.out.epoch)
             && Sending(p, t.out).chains[t.out.epoch].send.value.n < U32_MAX
    ensures InStep(AfterTurn(w, s, t))
  {
    hide Inv, Advance, DropSend, UpToDate, Wf, BuildAD, EncodeSckaHeader, ReceiveKey, SkipChain;
    var d, r := t.sender, Opposite(t.sender);
    var p, q, e := Sending(Party(s, d), t.out), Reading(Party(s, r), t.answer), t.out.epoch;
    Prepared(w, s, t);
    SentShape(w, s, d, t.out, t.text, t.ad);
    SameEpochs(p, q, e);
    PartyWf(w, s, r);
    var c := p.chains[e].send.value;
    ReadsIt(MaxSkip(Cfg(w, r)), Party(s, r), t.answer, c.n);
    var r1 := ReceiveKey(MaxSkip(Cfg(w, r)), Party(s, r), Some(t.answer), c.n).1;
    BothMove(p, q, e, KdfChain(PqNext(c.ck, c.n), Inc(c.n)), r1.chains[e].recv.value, r1);
  }

  /** Reading the position at which the chain stands. */
  lemma ReadsIt(maxSkip: u32, s: State, answer: RecvOut, n: u32)
    requires Wf(s) && s.epoch < U32_MAX && n < U32_MAX && Advance(s, answer.output, answer.keyEpoch, answer.epoch).Ok?
    requires var q := Reading(s, answer); Receives(q, answer.epoch) && q.chains[answer.epoch].recv.value.n == n
    ensures var q, (res, t) := Reading(s, answer), ReceiveKey(maxSkip, s, Some(answer), n);
            && res.Ok? && t.epoch == q.epoch && Receives(t, answer.epoch) && t.chains[answer.epoch].recv.value.n == n + 1
            && t.chains == q.chains[answer.epoch := q.chains[answer.epoch].(recv := t.chains[answer.epoch].recv)]
  {
    hide Advance, SkipChain;
    AdvanceKeeps(s, answer.output, answer.keyEpoch, answer.epoch);
    assert !IsSkipped(Reading(s, answer), answer.epoch, n);
  }

  // ---- Conversations -----------------------------------------------------------------------

  /** Every turn is playable when it comes. */
  ghost predicate Conversation(w: World, s: System, turns: seq<Turn>)
    decreases |turns|
  {
    turns != [] ==> Playable(w, s, turns[0]) && Conversation(w, AfterTurn(w, s, turns[0]), turns[1..])
  }

  ghost predicate AllHeard(w: World, s: System, turns: seq<Turn>)
    decreases |turns|
  {
    turns != [] ==> Heard(w, s, turns[0]) == Ok(turns[0].text) && AllHeard(w, AfterTurn(w, s, turns[0]), turns[1..])
  }

  lemma {:induction false} ConversationWorks(w: World, s: System, turns: seq<Turn>)
    requires Paired(w.a, w.b) && Inv(w, s) && AllBehind(s) && InStep(s) && Conversation(w, s, turns)
    ensures AllHeard(w, s, turns)
    decreases |turns|
  {
    hide Inv, AllBehind, InStep, Playable, Heard, AfterTurn;
    if turns != [] {
      TurnWorks(w, s, turns[0]);
      ConversationWorks(w, AfterTurn(w, s, turns[0]), turns[1..]);
    }
  }

  /** Two fresh sessions can talk for as long as they like, through any number of epochs, and every
      message decrypts to what was sent. */
  lemma EveryConversation(w: World, turns: seq<Turn>)
    requires Paired(w.a, w.b) && Conversation(w, START, turns)
    ensures AllHeard(w, START, turns)
  {
    hide Inv, Conversation, AllHeard;
    StartInv(w);
    ConversationWorks(w, START, turns);
  }
}
