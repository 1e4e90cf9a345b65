/** How far a post-quantum session has come, against what its peer has sent in each epoch: the peer's
    next message is within reach exactly when the number of unread messages of its epoch is; and
    sessions that read every message at once never fail. */
module PqGaps {
  import opened Bytes
  import opened Terms
  import opened Wire
  import opened PqSpec
  import opened PqRuns
  import opened PqKeys
  import opened PqSystem

  ghost predicate Receives(p: State, e: u32) {
    e in p.chains && p.chains[e].recv.Some?
  }

  ghost predicate Sends(p: State, e: u32) {
    e in p.chains && p.chains[e].send.Some?
  }

  /** In no epoch has `reader` passed the messages that `writer` has sent. */
  ghost predicate Behind(reader: State, writer: State) {
    forall e: u32 :: Receives(reader, e) ==>
      && (e > writer.epoch ==> reader.chains[e].recv.value.n == 0)
      && (Sends(writer, e) ==> reader.chains[e].recv.value.n <= writer.chains[e].send.value.n)
  }

  /** What `writer` has logged belongs to its epochs so far and lies below its counters. */
  ghost predicate Logged(log: seq<Sent>, d: Direction, writer: State) {
    forall i :: 0 <= i < |log| && log[i].author == d ==>
      && log[i].epoch <= writer.epoch
      && (Sends(writer, log[i].epoch) ==> log[i].header.n < writer.chains[log[i].epoch].send.value.n)
  }

  ghost predicate AllBehind(s: System) {
    && Behind(s.a, s.b) && Behind(s.b, s.a)
    && Logged(s.log, A2B, s.a) && Logged(s.log, B2A, s.b)
  }

  // ---- Taking in provider output -----------------------------------------------------------

  /** After it, every chain is one there was before, or the first one of the new epoch. */
  ghost predicate Renewed(s: State, t: State) {
    && s.epoch <= t.epoch <= s.epoch + 1
    && forall e: u32 :: e in t.chains ==>
         || (e in s.chains && t.chains[e] == s.chains[e])
         || (e == t.epoch == s.epoch + 1 && t.chains[e].send.Some? && t.chains[e].recv.Some?
             && t.chains[e].send.value.n == 0 && t.chains[e].recv.value.n == 0)
  }

  lemma AdvanceRenews(s: State, output: Output, keyEpoch: u32, reported: u32)
    requires Wf(s) && s.epoch < U32_MAX && Advance(s, output, keyEpoch, reported).Ok?
    ensures Renewed(s, Advance(s, output, keyEpoch, reported).value)
  {}

  lemma WriterRenewed(log: seq<Sent>, d: Direction, reader: State, s: State, t: State)
    requires Renewed(s, t) && Behind(reader, s) && Logged(log, d, s) && Wf(s)
    ensures Behind(reader, t) && Logged(log, d, t)
  {
    forall e: u32 | Receives(reader, e)
      ensures e > t.epoch ==> reader.chains[e].recv.value.n == 0
      ensures Sends(t, e) ==> reader.chains[e].recv.value.n <= t.chains[e].send.value.n
    {
      assert Sends(t, e) && e in s.chains && t.chains[e] == s.chains[e] ==> Sends(s, e);
    }
    forall i | 0 <= i < |log| && log[i].author == d
      ensures log[i].epoch <= t.epoch
      ensures Sends(t, log[i].epoch) ==> log[i].header.n < t.chains[log[i].epoch].send.value.n
    {
      assert Sends(t, log[i].epoch) && log[i].epoch in s.chains && t.chains[log[i].epoch] == s.chains[log[i].epoch] ==> Sends(s, log[i].epoch);
    }
  }

  lemma ReaderRenewed(s: State, t: State, writer: State)
    requires Renewed(s, t) && Behind(s, writer)
    ensures Behind(t, writer)
  {
    forall e: u32 | Receives(t, e)
      ensures e > writer.epoch ==> t.chains[e].recv.value.n == 0
      ensures Sends(writer, e) ==> t.chains[e].recv.value.n <= writer.chains[e].send.value.n
    {
      assert e in s.chains && t.chains[e] == s.chains[e] ==> Receives(s, e);
    }
  }

  // ---- Sending -----------------------------------------------------------------------------

  /** The state in which the key is taken: past the provider's output, without the chain before. */
  function Sending(s: State, out: SendOut): State
    requires Advance(s, out.output, out.keyEpoch, out.epoch).Ok?
  {
    DropSend(Advance(s, out.output, out.keyEpoch, out.epoch).value, out.epoch)
  }

  lemma SendingFacts(log: seq<Sent>, d: Direction, s: State, out: SendOut, peer: State)
    requires Wf(s) && s.epoch < U32_MAX && Advance(s, out.output, out.keyEpoch, out.epoch).Ok?
    requires Behind(peer, s) && Behind(s, peer) && Logged(log, d, s)
    ensures var t := Sending(s, out);
            Behind(peer, t) && Behind(t, peer) && Logged(log, d, t) && Wf(t)
  {
    hide ClearOld, Wf, Renewed, Behind, Logged, Advance;
    AdvanceRenews(s, out.output, out.keyEpoch, out.epoch);
    AdvanceKeeps(s, out.output, out.keyEpoch, out.epoch);
    var s1 := Advance(s, out.output, out.keyEpoch, out.epoch).value;
    WriterRenewed(log, d, peer, s, s1);
    ReaderRenewed(s, s1, peer);
    DropKeeps(s1, out.epoch);
    DropBehind(log, d, s1, out.epoch, peer);
  }

  lemma DropBehind(log: seq<Sent>, d: Direction, s: State, sending: u32, peer: State)
    requires Behind(peer, s) && Behind(s, peer) && Logged(log, d, s)
    ensures var t := DropSend(s, sending);
            Behind(peer, t) && Behind(t, peer) && Logged(log, d, t)
  {
    var t := DropSend(s, sending);
    assert forall e: u32 :: Sends(t, e) ==> Sends(s, e) && t.chains[e].send == s.chains[e].send;
    assert forall e: u32 :: Receives(t, e) ==> Receives(s, e) && t.chains[e].recv == s.chains[e].recv;
  }

  lemma CountBehind(log: seq<Sent>, d: Direction, s: State, e: u32, c: KdfChain, peer: State)
    requires Wf(s) && Behind(peer, s) && Behind(s, peer) && Logged(log, d, s)
    requires Sends(s, e) && c.n == s.chains[e].send.value.n + 1
    ensures var t := s.(chains := s.chains[e := s.chains[e].(send := Some(c))]);
            && Behind(peer, t) && Behind(t, peer) && Logged(log, d, t)
            && forall entry: Sent :: entry.epoch == e && entry.header.n == s.chains[e].send.value.n ==> Logged(log + [entry], d, t)
  {
    var t := s.(chains := s.chains[e := s.chains[e].(send := Some(c))]);
    assert forall f: u32 :: Sends(t, f) ==> Sends(s, f);
    assert forall f: u32 :: Receives(t, f) ==> Receives(s, f) && t.chains[f].recv == s.chains[f].recv;
  }

  lemma OtherLogged(log: seq<Sent>, d: Direction, p: State, entry: Sent)
    requires Logged(log, d, p) && entry.author != d
    ensures Logged(log + [entry], d, p)
  {}

  /** A key taken counts one position further; an error may have taken in provider output. */
  lemma SendKeyBehind(log: seq<Sent>, d: Direction, s: State, out: Option<SendOut>, peer: State)
    requires Wf(s) && SendInRange(s)
    requires Behind(peer, s) && Behind(s, peer) && Logged(log, d, s)
    ensures var (res, t) := SendKey(s, out);
            && Behind(peer, t) && Behind(t, peer) && Logged(log, d, t)
            && (res.Ok? && out.Some? ==>
                  forall entry: Sent :: entry.epoch == out.value.epoch && entry.header.n == res.value.1 ==> Logged(log + [entry], d, t))
  {
    hide Behind, Logged, Advance, ClearOld, Wf, DropSend;
    if out.Some? && Advance(s, out.value.output, out.value.keyEpoch, out.value.epoch).Ok? {
      var o := out.value;
      var t := Sending(s, o);
      SendingFacts(log, d, s, o, peer);
      SendRange(s, o);
      if Sends(t, o.epoch) {
        var c := t.chains[o.epoch].send.value;
        CountBehind(log, d, t, o.epoch, KdfChain(PqNext(c.ck, c.n), Inc(c.n)), peer);
      }
    }
  }

  lemma SendBehind(w: World, s: System, d: Direction, out: Option<SendOut>, text: bytes, ad: bytes)
    requires Inv(w, s) && AllBehind(s) && Enabled(s, PqSystem.Send(d, out, text, ad))
    ensures AllBehind(Step(w, s, PqSystem.Send(d, out, text, ad)))
  {
    hide Inv, Behind, Logged, SendKey, BuildAD, EncodeSckaHeader, Wf;
    var peer, t := Party(s, Opposite(d)), Step(w, s, PqSystem.Send(d, out, text, ad));
    PartyWf(w, s, d);
    SendKeyBehind(s.log, d, Party(s, d), out, peer);
    if |t.log| > |s.log| {
      OtherLogged(s.log, Opposite(d), peer, t.log[|s.log|]);
    }
  }

  lemma SendRange(p: State, o: SendOut)
    requires SendInRange(p) && Advance(p, o.output, o.keyEpoch, o.epoch).Ok?
    ensures Sends(Sending(p, o), o.epoch) ==> Sending(p, o).chains[o.epoch].send.value.n < U32_MAX
  {
    hide Advance, DropSend;
    AdvanceSendRange(p, o.output, o.keyEpoch, o.epoch);
  }

  // ---- Receiving ---------------------------------------------------------------------------

  /** What reading position `n` of an epoch changes: that epoch's receiving chain, if the key was not
      on file. */
  ghost predicate ReadOnly(s: State, t: State, e: u32, n: u32) {
    && t.epoch == s.epoch
    && (t.chains == s.chains
        || (Receives(s, e) && n < U32_MAX && exists c: KdfChain :: c.n == n + 1 && t.chains == s.chains[e := s.chains[e].(recv := Some(c))]))
  }

  lemma ReadShape(maxSkip: u32, s: State, e: u32, n: u32)
    requires n < U32_MAX && Skip(maxSkip, s, e, n).Ok? && ReadNext(Skip(maxSkip, s, e, n).value, e, n).0.Ok?
    ensures ReadOnly(s, ReadNext(Skip(maxSkip, s, e, n).value, e, n).1, e, n)
  {
    hide SkipChain;
    var s1 := Skip(maxSkip, s, e, n).value;
    var c := s1.chains[e].recv.value;
    var c1 := KdfChain(PqNext(c.ck, n), Inc(n));
    assert ReadNext(s1, e, n).1.chains == s.chains[e := s.chains[e].(recv := Some(c1))];
  }

  lemma ReadBehind(log: seq<Sent>, d: Direction, s: State, t: State, e: u32, n: u32, writer: State)
    requires ReadOnly(s, t, e, n) && Behind(s, writer) && Behind(writer, s) && Logged(log, d, s)
    requires e <= writer.epoch && (Sends(writer, e) ==> n < writer.chains[e].send.value.n)
    ensures Behind(t, writer) && Behind(writer, t) && Logged(log, d, t)
  {
    assert forall f: u32 :: Sends(t, f) <==> Sends(s, f);
    assert forall f: u32 :: Sends(t, f) ==> t.chains[f].send == s.chains[f].send;
    assert forall f: u32 :: Receives(t, f) ==> Receives(s, f) && (f != e ==> t.chains[f].recv == s.chains[f].recv);
  }

  lemma ReceiveShape(maxSkip: u32, s: State, out: Option<RecvOut>, n: u32)
    requires Wf(s) && s.epoch < U32_MAX && n < U32_MAX
    ensures var (res, t) := ReceiveKey(maxSkip, s, out, n);
            && (res.Err? ==> Renewed(s, t))
            && (res.Ok? ==>
                  && out.Some? && Advance(s, out.value.output, out.value.keyEpoch, out.value.epoch).Ok?
                  && ReadOnly(Advance(s, out.value.output, out.value.keyEpoch, out.value.epoch).value, t, out.value.epoch, n))
  {
    hide ClearOld, Wf, Advance, Renewed, ReadOnly, Skip, ReadNext;
    Unchanged(s);
    if out.Some? && Advance(s, out.value.output, out.value.keyEpoch, out.value.epoch).Ok? {
      var o := out.value;
      AdvanceRenews(s, o.output, o.keyEpoch, o.epoch);
      var s1 := Advance(s, o.output, o.keyEpoch, o.epoch).value;
      if IsSkipped(s1, o.epoch, n) {
        TakeShape(s1, o.epoch, n);
      } else if Skip(maxSkip, s1, o.epoch, n).Ok? {
        if ReadNext(Skip(maxSkip, s1, o.epoch, n).value, o.epoch, n).0.Ok? {
          ReadShape(maxSkip, s1, o.epoch, n);
        } else {
          FailedRead(maxSkip, s1, o.epoch, n);
        }
      }
    }
  }

  lemma Unchanged(s: State)
    ensures Renewed(s, s)
  {}

  lemma TakeShape(s: State, e: u32, n: u32)
    requires IsSkipped(s, e, n)
    ensures ReadOnly(s, TakeSkipped(s, e, n), e, n)
  {}

  /** A key received is of a position that the writer has sent. */
  lemma ReceiveKeyBehind(log: seq<Sent>, d: Direction, maxSkip: u32, s: State, out: Option<RecvOut>, n: u32, writer: State)
    requires Wf(s) && s.epoch < U32_MAX && n < U32_MAX && ReceiveKey(maxSkip, s, out, n).0.Ok?
    requires Behind(s, writer) && Behind(writer, s) && Logged(log, d, s)
    requires out.Some? ==> out.value.epoch <= writer.epoch && (Sends(writer, out.value.epoch) ==> n < writer.chains[out.value.epoch].send.value.n)
    ensures var t := ReceiveKey(maxSkip, s, out, n).1;
            Behind(t, writer) && Behind(writer, t) && Logged(log, d, t)
  {
    hide Behind, Logged, Advance, ReceiveKey, Wf, Renewed, ReadOnly;
    ReceiveShape(maxSkip, s, out, n);
    var o := out.value;
    var s1 := Advance(s, o.output, o.keyEpoch, o.epoch).value;
    AdvanceRenews(s, o.output, o.keyEpoch, o.epoch);
    WriterRenewed(log, d, writer, s, s1);
    ReaderRenewed(s, s1, writer);
    ReadBehind(log, d, s1, ReceiveKey(maxSkip, s, out, n).1, o.epoch, n, writer);
  }

  lemma DeliverBehind(w: World, s: System, d: Direction, out: Option<RecvOut>, h: SckaHeader, ct: Ciphertext, ad: bytes)
    requires Inv(w, s) && AllBehind(s) && Enabled(s, Deliver(d, out, h, ct, ad))
    ensures AllBehind(Step(w, s, Deliver(d, out, h, ct, ad)))
  {
    hide Inv, Behind, Logged, Advance, ReceiveKey, BuildAD, EncodeSckaHeader, Wf, Obtainable, Renewed, ReadOnly;
    var cfg, p, peer := Cfg(w, d), Party(s, d), Party(s, Opposite(d));
    PartyWf(w, s, d);
    if Decrypt(cfg, p, out, h, ct, ad).0.Ok? {
      var i := Identify(w, s, d, out, h, ct, ad);
      LoggedAt(s.log, Opposite(d), peer, i);
      ReceiveKeyBehind(s.log, d, MaxSkip(cfg), p, out, h.n, peer);
    } else if ReceiveKey(MaxSkip(cfg), p, out, h.n).0.Err? {
      FailedShape(MaxSkip(cfg), p, out, h.n);
      var t := ReceiveKey(MaxSkip(cfg), p, out, h.n).1;
      WriterRenewed(s.log, d, peer, p, t);
      ReaderRenewed(p, t, peer);
    }
  }

  lemma LoggedAt(log: seq<Sent>, d: Direction, p: State, i: nat)
    requires Logged(log, d, p) && i < |log| && log[i].author == d
    ensures log[i].epoch <= p.epoch && (Sends(p, log[i].epoch) ==> log[i].header.n < p.chains[log[i].epoch].send.value.n)
  {}

  lemma FailedShape(maxSkip: u32, s: State, out: Option<RecvOut>, n: u32)
    requires Wf(s) && s.epoch < U32_MAX && ReceiveKey(maxSkip, s, out, n).0.Err?
    ensures Renewed(s, ReceiveKey(maxSkip, s, out, n).1)
  {
    hide ClearOld, Wf, Advance, Renewed, Skip, ReadNext;
    Unchanged(s);
    if out.Some? && Advance(s, out.value.output, out.value.keyEpoch, out.value.epoch).Ok? {
      AdvanceRenews(s, out.value.output, out.value.keyEpoch, out.value.epoch);
      FailedRead(maxSkip, Advance(s, out.value.output, out.value.keyEpoch, out.value.epoch).value, out.value.epoch, n);
    }
  }

  lemma {:induction false} RunBehind(w: World, s: System, vs: seq<Action>, t: System, got: multiset<nat>)
    requires Inv(w, s) && AllBehind(s) && PqSystem.Leads(w, s, vs, t, got)
    ensures Inv(w, t) && AllBehind(t)
    decreases |vs|
  {
    hide Inv, Step, AllBehind, Accepted, Enabled;
    if vs != [] {
      var rest :| got == Accepted(w, s, vs[0]) + rest && PqSystem.Leads(w, Step(w, s, vs[0]), vs[1..], t, rest);
      StepInv(w, s, vs[0]);
      match vs[0] {
        case Send(d, out, text, ad) => SendBehind(w, s, d, out, text, ad);
        case Deliver(d, out, h, ct, ad) => DeliverBehind(w, s, d, out, h, ct, ad);
      }
      RunBehind(w, Step(w, s, vs[0]), vs[1..], t, rest);
    }
  }

  /** Over every run. */
  lemma FromStart(w: World, vs: seq<Action>, t: System, got: multiset<nat>)
    requires PqSystem.Leads(w, START, vs, t, got)
    ensures Inv(w, t) && AllBehind(t)
  {
    hide Inv, PqSystem.Leads;
    StartInv(w);
    RunBehind(w, START, vs, t, got);
  }

  // ---- The next message --------------------------------------------------------------------

  /** Whatever the network and the provider did before, the message that a party sends next, with a
      provider answer for its epoch, decrypts to its text exactly when the session takes that answer,
      still has the epoch, and is no more than the skip limit behind in it. */
  lemma NextDecrypts(w: World, s: System, d: Direction, out: SendOut, text: bytes, ad: bytes, answer: RecvOut)
    requires Paired(w.a, w.b) && Inv(w, s) && AllBehind(s) && Enabled(s, PqSystem.Send(d, Some(out), text, ad))
    requires Encrypt(Cfg(w, d), Party(s, d), Some(out), text, ad).0.Ok?
    requires answer.epoch == out.epoch && Agreed(answer.output, answer.keyEpoch) && Party(s, Opposite(d)).epoch < U32_MAX
    ensures var s1, r := Step(w, s, PqSystem.Send(d, Some(out), text, ad)), Opposite(d);
            && |s1.log| == |s.log| + 1
            && var e := s1.log[|s.log|];
            var advanced := Advance(Party(s, r), answer.output, answer.keyEpoch, answer.epoch);
            var res := Decrypt(Cfg(w, r), Party(s1, r), Some(answer), e.header, e.ct, ad).0;
            && (advanced.Ok? && Receives(advanced.value, e.epoch) ==> advanced.value.chains[e.epoch].recv.value.n <= e.header.n)
            && (res.Ok? <==> && advanced.Ok? && Receives(advanced.value, e.epoch)
                             && e.header.n - advanced.value.chains[e.epoch].recv.value.n <= MaxSkip(Cfg(w, r)))
            && (res.Ok? ==> res.value == text)
  {
    hide Inv, Behind, Logged, Advance, SendKey, Decrypt, BuildAD, EncodeSckaHeader, Wf, Step, Sending;
    var r, s1 := Opposite(d), Step(w, s, PqSystem.Send(d, Some(out), text, ad));
    StepInv(w, s, PqSystem.Send(d, Some(out), text, ad));
    SentShape(w, s, d, out, text, ad);
    var e := s1.log[|s.log|];
    assert Obtainable(s1, e.ct);
    DeliveryWindow(w, s1, |s.log|, answer);
    if Advance(Party(s, r), answer.output, answer.keyEpoch, answer.epoch).Ok? {
      PartyWf(w, s, d);
      PartyWf(w, s, r);
      NextAhead(s.log, d, Party(s, d), Party(s, r), out, answer);
    }
  }

  lemma SentShape(w: World, s: System, d: Direction, out: SendOut, text: bytes, ad: bytes)
    requires Encrypt(Cfg(w, d), Party(s, d), Some(out), text, ad).0.Ok?
    ensures var s1 := Step(w, s, PqSystem.Send(d, Some(out), text, ad));
            && |s1.log| == |s.log| + 1 && Party(s1, Opposite(d)) == Party(s, Opposite(d))
            && var e := s1.log[|s.log|];
            && e.author == d && e.epoch == out.epoch && e.ad == ad && e.text == text
            && Advance(Party(s, d), out.output, out.keyEpoch, out.epoch).Ok? && Sends(Sending(Party(s, d), out), out.epoch)
            && e.header.n == Sending(Party(s, d), out).chains[out.epoch].send.value.n
  {
    hide Advance, BuildAD, EncodeSckaHeader, DropSend;
  }

  /** The reader's chain stands at or before the next position, and its key is not on file. */
  lemma NextAhead(log: seq<Sent>, d: Direction, p: State, r: State, out: SendOut, answer: RecvOut)
    requires Wf(p) && Wf(r) && p.epoch < U32_MAX && r.epoch < U32_MAX
    requires Behind(r, p) && Behind(p, r) && Logged(log, d, p)
    requires Advance(p, out.output, out.keyEpoch, out.epoch).Ok? && Sends(Sending(p, out), out.epoch)
    requires Advance(r, answer.output, answer.keyEpoch, answer.epoch).Ok?
    ensures var t, n := Advance(r, answer.output, answer.keyEpoch, answer.epoch).value, Sending(p, out).chains[out.epoch].send.value.n;
            !IsSkipped(t, out.epoch, n) && (Receives(t, out.epoch) ==> t.chains[out.epoch].recv.value.n <= n)
  {
    hide Logged, Advance, Renewed, DropSend;
    SendingFacts(log, d, p, out, r);
    AdvanceRenews(r, answer.output, answer.keyEpoch, answer.epoch);
    AdvanceKeeps(r, answer.output, answer.keyEpoch, answer.epoch);
    var t := Advance(r, answer.output, answer.keyEpoch, answer.epoch).value;
    ReaderRenewed(r, t, Sending(p, out));
  }
}
