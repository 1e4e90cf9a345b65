/** One post-quantum session through any sequence of calls, whatever its provider answers:
    which keys it holds, that every message key is used once, and what it has erased. */
module PqRuns {
  import opened Bytes
  import opened Terms
  import opened Wire
  import opened PqSpec

  /** Chains belong to epochs up to the current one; a skipped key lies below the counter of its
      epoch's receiving chain, which is still there. */
  ghost predicate Wf(s: State) {
    && (forall e :: e in s.chains ==> e <= s.epoch)
    && (forall e, n :: IsSkipped(s, e, n) ==> Below(s, e, n))
  }

  ghost predicate Below(s: State, e: u32, n: u32) {
    e in s.chains && s.chains[e].recv.Some? && n < s.chains[e].recv.value.n
  }

  ghost predicate Ahead(s: State, e: u32, n: u32) {
    e in s.chains && s.chains[e].recv.Some? && n >= s.chains[e].recv.value.n
  }

  /** A position whose message key the session still holds or can still come to hold. */
  ghost predicate Avail(s: State, e: u32, n: u32) {
    IsSkipped(s, e, n) || Ahead(s, e, n) || e > s.epoch
  }

  /** The live epochs form an interval that ends at the current one. */
  ghost predicate Window(s: State) {
    s.epoch in s.chains && forall e, f :: e in s.chains && e <= f <= s.epoch ==> f in s.chains
  }

  lemma InitWf(sk: Key, dir: Direction)
    ensures Wf(Init(sk, dir)) && Window(Init(sk, dir))
  {}

  // ---- Taking in provider output -----------------------------------------------------------

  lemma ClearKeeps(s: State, reported: u32)
    requires Wf(s)
    ensures Wf(ClearOld(s, reported)) && ClearOld(s, reported).epoch == s.epoch
    ensures forall e, n :: Avail(ClearOld(s, reported), e, n) ==> Avail(s, e, n)
  {
    var t := ClearOld(s, reported);
    forall e, n | IsSkipped(t, e, n)
      ensures Below(t, e, n)
    {
      assert IsSkipped(s, e, n) && Below(s, e, n);
    }
    forall e, n | Avail(t, e, n)
      ensures Avail(s, e, n)
    {
      assert IsSkipped(t, e, n) ==> IsSkipped(s, e, n);
      assert Ahead(t, e, n) ==> Ahead(s, e, n);
    }
  }

  lemma AdvanceKeeps(s: State, output: Output, keyEpoch: u32, reported: u32)
    requires Wf(s) && s.epoch < U32_MAX && Advance(s, output, keyEpoch, reported).Ok?
    ensures var t := Advance(s, output, keyEpoch, reported).value;
            && Wf(t)
            && t.epoch == (if output.NoKey? then s.epoch else s.epoch + 1)
            && (forall e, n :: Avail(t, e, n) ==> Avail(s, e, n))
            && t.dir == s.dir
  {
    if !output.NoKey? {
      assert keyEpoch !in s.chains;
      var s1 := s.(rk := PqRoot(s.rk, output.key), epoch := keyEpoch,
                   chains := s.chains[keyEpoch := NewPair(s.rk, output.key, s.dir)]);
      forall e, n | IsSkipped(s1, e, n)
        ensures Below(s1, e, n)
      {
        assert IsSkipped(s, e, n) && Below(s, e, n);
      }
      forall e, n | Avail(s1, e, n)
        ensures Avail(s, e, n)
      {
        assert IsSkipped(s1, e, n) ==> IsSkipped(s, e, n);
        assert Ahead(s1, e, n) ==> Ahead(s, e, n) || e == keyEpoch;
      }
      ClearKeeps(s1, reported);
    }
  }

  /** Pruning keeps the window; it keeps the current epoch exactly when the reported epoch is
      at most one ahead of it. */
  lemma AdvanceWindow(s: State, output: Output, keyEpoch: u32, reported: u32)
    requires Wf(s) && Window(s) && s.epoch < U32_MAX && Advance(s, output, keyEpoch, reported).Ok? && !output.NoKey?
    ensures keyEpoch !in s.chains && keyEpoch == s.epoch + 1
    ensures Window(Advance(s, output, keyEpoch, reported).value) <==> reported <= keyEpoch + 1
    ensures var t := Advance(s, output, keyEpoch, reported).value;
            forall e :: e in s.chains && e + 1 >= reported ==> e in t.chains && t.chains[e] == s.chains[e]
  {}

  // ---- Receiving ---------------------------------------------------------------------------

  lemma TakeKeeps(s: State, epoch: u32, n: u32)
    requires Wf(s) && IsSkipped(s, epoch, n)
    ensures var t := TakeSkipped(s, epoch, n);
            && Wf(t) && t.epoch == s.epoch && t.chains == s.chains
            && !Avail(t, epoch, n)
            && (forall e: u32, m: u32 :: (e, m) != (epoch, n) ==> (Avail(t, e, m) <==> Avail(s, e, m)))
            && (forall e, m :: IsSkipped(t, e, m) ==> IsSkipped(s, e, m) && t.skipped[e][m] == s.skipped[e][m])
  {
    var t := TakeSkipped(s, epoch, n);
    var rest := s.skipped[epoch] - {n};
    forall e: u32, m: u32
      ensures IsSkipped(t, e, m) <==> IsSkipped(s, e, m) && (e, m) != (epoch, n)
      ensures IsSkipped(t, e, m) ==> t.skipped[e][m] == s.skipped[e][m]
    {
      if e == epoch && IsSkipped(s, e, m) && m != n {
        assert m in rest;
      }
    }
    assert Below(s, epoch, n);
    forall e, m | IsSkipped(t, e, m)
      ensures Below(t, e, m)
    {
      assert Below(s, e, m);
    }
    forall e: u32, m: u32
      ensures Ahead(t, e, m) == Ahead(s, e, m)
    {}
  }

  lemma {:induction false} SkipChainFacts(c: KdfChain, keys: map<u32, Key>, until: u32)
    requires c.n <= until
    ensures var (c1, keys1) := SkipChain(c, keys, until);
            && c1.n == until
            && (forall m :: m in keys1 <==> m in keys || c.n <= m < until)
            && (forall m :: m in keys && m < c.n ==> keys1[m] == keys[m])
    decreases until - c.n
  {
    if c.n < until {
      SkipChainFacts(KdfChain(PqNext(c.ck, c.n), c.n + 1), keys[c.n := PqMessage(c.ck, c.n)], until);
    }
  }

  lemma SkipKeeps(maxSkip: u32, s: State, epoch: u32, until: u32)
    requires Wf(s) && Skip(maxSkip, s, epoch, until).Ok?
    ensures var t := Skip(maxSkip, s, epoch, until).value;
            && Wf(t) && t.epoch == s.epoch
            && (forall e, m :: Avail(t, e, m) <==> Avail(s, e, m))
            && (IsSkipped(t, epoch, until) ==> IsSkipped(s, epoch, until))
  {
    var t := Skip(maxSkip, s, epoch, until).value;
    if t != s {
      var c := s.chains[epoch].recv.value;
      SkipChainFacts(c, SkippedOf(s, epoch), until);
      forall e: u32, m: u32
        ensures IsSkipped(t, e, m) <==> IsSkipped(s, e, m) || (e == epoch && c.n <= m < until)
        ensures Ahead(t, e, m) <==> Ahead(s, e, m) && (e == epoch ==> m >= until)
        ensures IsSkipped(t, e, m) ==> Below(t, e, m)
      {
        assert IsSkipped(s, e, m) ==> Below(s, e, m);
      }
    }
  }

  lemma ReadKeeps(s: State, epoch: u32, n: u32)
    requires Wf(s) && n < U32_MAX && ReadNext(s, epoch, n).0.Ok? && !IsSkipped(s, epoch, n)
    ensures var t := ReadNext(s, epoch, n).1;
            && Wf(t) && t.epoch == s.epoch
            && Avail(s, epoch, n) && !Avail(t, epoch, n)
            && (forall e, m :: Avail(t, e, m) ==> Avail(s, e, m))
  {
    var t := ReadNext(s, epoch, n).1;
    forall e: u32, m: u32
      ensures IsSkipped(t, e, m) == IsSkipped(s, e, m)
      ensures Ahead(t, e, m) ==> Ahead(s, e, m) && (e, m) != (epoch, n)
      ensures IsSkipped(t, e, m) ==> Below(t, e, m)
    {
      assert IsSkipped(s, e, m) ==> Below(s, e, m);
    }
  }

  /** Receiving never makes a position available, and uses up the one it returns a key for. */
  lemma ReceiveConsumes(maxSkip: u32, s: State, out: Option<RecvOut>, n: u32)
    requires Wf(s) && s.epoch < U32_MAX && !Wraps(maxSkip, s, out, n)
    ensures var (res, t) := ReceiveKey(maxSkip, s, out, n);
            && Wf(t)
            && s.epoch <= t.epoch <= s.epoch + 1
            && (forall e, m :: Avail(t, e, m) ==> Avail(s, e, m))
            && (res.Ok? ==> out.Some? && res.value.0 == out.value.epoch
                            && Avail(s, out.value.epoch, n) && !Avail(t, out.value.epoch, n))
  {
    hide Wf, Avail;
    if out.Some? && Advance(s, out.value.output, out.value.keyEpoch, out.value.epoch).Ok? {
      var o := out.value;
      AdvanceKeeps(s, o.output, o.keyEpoch, o.epoch);
      var s1 := Advance(s, o.output, o.keyEpoch, o.epoch).value;
      if IsSkipped(s1, o.epoch, n) {
        TakeKeeps(s1, o.epoch, n);
        SkippedAvail(s1, o.epoch, n);
        TakeOnlyRemoves(s1, o.epoch, n);
      } else if Skip(maxSkip, s1, o.epoch, n).Ok? {
        SkipKeeps(maxSkip, s1, o.epoch, n);
        var s2 := Skip(maxSkip, s1, o.epoch, n).value;
        if ReadNext(s2, o.epoch, n).0.Ok? {
          SkipReaches(maxSkip, s1, o.epoch, n);
          ReadKeeps(s2, o.epoch, n);
        }
      }
    }
  }

  /** Reading a position after skipping up to it means that the chain reached it. */
  lemma SkipReaches(maxSkip: u32, s: State, epoch: u32, n: u32)
    requires Skip(maxSkip, s, epoch, n).Ok? && ReadNext(Skip(maxSkip, s, epoch, n).value, epoch, n).0.Ok?
    ensures epoch in s.chains && s.chains[epoch].recv.Some? && s.chains[epoch].recv.value.n <= n <= s.chains[epoch].recv.value.n + maxSkip
  {}

  /** A counter that starts over leaves even the position just read available: that a position is
      used up holds exactly where the counter does not. */
  lemma UsedUpExactly(maxSkip: u32, s: State, out: Option<RecvOut>, n: u32)
    requires Wf(s) && s.epoch < U32_MAX && ReceiveKey(maxSkip, s, out, n).0.Ok?
    ensures out.Some? && (!Avail(ReceiveKey(maxSkip, s, out, n).1, out.value.epoch, n) <==> !Wraps(maxSkip, s, out, n))
  {
    hide ClearOld;
    if Wraps(maxSkip, s, out, n) {
      var s1 := Advance(s, out.value.output, out.value.keyEpoch, out.value.epoch).value;
      SkipChainFacts(s1.chains[out.value.epoch].recv.value, SkippedOf(s1, out.value.epoch), n);
    } else {
      ReceiveConsumes(maxSkip, s, out, n);
    }
  }

  /** A session, and a message it accepts at the largest position: the counter is at 0 again, and
      the position just read lies ahead once more. */
  lemma CounterStartsOver(cfg: Config, ck: Key, text: bytes, ad: bytes)
    ensures var s := PqSpec.State(Zeroed, 0, map[0 := ChainPair(None, Some(KdfChain(ck, U32_MAX)))], map[], A2B);
            var out, h := Some(RecvOut(0, NoKey, 0)), SckaHeader([], U32_MAX);
            var ct := Sealed(PqMessage(ck, U32_MAX), BuildAD(cfg, EncodeSckaHeader(h), ad, false), text);
            var (res, t) := Decrypt(cfg, s, out, h, ct, ad);
            && Wf(s) && Wraps(MaxSkip(cfg), s, out, U32_MAX)
            && res == Ok(text) && t.chains[0].recv == Some(KdfChain(PqNext(ck, U32_MAX), 0)) && Avail(t, 0, U32_MAX)
  {
    hide BuildAD, EncodeSckaHeader;
  }

  /** And a call that would make it start over succeeds. */
  lemma WrapsReceives(maxSkip: u32, s: State, out: Option<RecvOut>, n: u32)
    requires Wraps(maxSkip, s, out, n)
    ensures ReceiveKey(maxSkip, s, out, n).0.Ok?
  {
    hide ClearOld;
    var s1 := Advance(s, out.value.output, out.value.keyEpoch, out.value.epoch).value;
    SkipChainFacts(s1.chains[out.value.epoch].recv.value, SkippedOf(s1, out.value.epoch), n);
  }

  /** Taking in this output drops epoch `e`. */
  predicate Prunes(s: State, o: RecvOut, e: u32) {
    && Advance(s, o.output, o.keyEpoch, o.epoch).Ok? && !o.output.NoKey?
    && o.epoch > 1 && e < o.epoch - 1 && e <= s.epoch + 1
  }

  lemma AdvanceAvail(s: State, o: RecvOut)
    requires Wf(s) && s.epoch < U32_MAX && Advance(s, o.output, o.keyEpoch, o.epoch).Ok?
    ensures var t := Advance(s, o.output, o.keyEpoch, o.epoch).value;
            forall e, m :: Avail(t, e, m) <==> Avail(s, e, m) && !Prunes(s, o, e)
  {
    var t := Advance(s, o.output, o.keyEpoch, o.epoch).value;
    forall e: u32, m: u32
      ensures Avail(t, e, m) <==> Avail(s, e, m) && !Prunes(s, o, e)
    {
      assert IsSkipped(s, e, m) ==> Below(s, e, m);
    }
  }

  /** An error before authentication is not undone, and it uses up exactly the positions of the
      epochs that the provider's output made the session drop. */
  lemma FailedReceive(maxSkip: u32, s: State, out: Option<RecvOut>, n: u32)
    requires Wf(s) && s.epoch < U32_MAX && ReceiveKey(maxSkip, s, out, n).0.Err?
    ensures var t := ReceiveKey(maxSkip, s, out, n).1;
            forall e, m :: Avail(t, e, m) <==> Avail(s, e, m) && !(out.Some? && Prunes(s, out.value, e))
  {
    hide Wf, Avail, ClearOld;
    if out.Some? && Advance(s, out.value.output, out.value.keyEpoch, out.value.epoch).Ok? {
      var o := out.value;
      AdvanceAvail(s, o);
      AdvanceKeeps(s, o.output, o.keyEpoch, o.epoch);
      var s1 := Advance(s, o.output, o.keyEpoch, o.epoch).value;
      if Skip(maxSkip, s1, o.epoch, n).Ok? {
        SkipKeeps(maxSkip, s1, o.epoch, n);
      }
    }
  }

  /** Which failed calls leave the session as it was: those that fail to authenticate, and those
      that take in no new key; any other has moved to a new epoch and root and stays there. */
  lemma NoOpExactly(cfg: Config, s: State, out: Option<RecvOut>, h: SckaHeader, ct: Ciphertext, ad: bytes)
    requires Decrypt(cfg, s, out, h, ct, ad).0.Err?
    ensures Decrypt(cfg, s, out, h, ct, ad).1 == s <==>
              || ReceiveKey(MaxSkip(cfg), s, out, h.n).0.Ok?
              || out.None? || out.value.output.NoKey?
              || Advance(s, out.value.output, out.value.keyEpoch, out.value.epoch).Err?
  {
    hide ClearOld, BuildAD, EncodeSckaHeader;
    var maxSkip := MaxSkip(cfg);
    if ReceiveKey(maxSkip, s, out, h.n).0.Err? && out.Some? && Advance(s, out.value.output, out.value.keyEpoch, out.value.epoch).Ok? {
      var s1 := Advance(s, out.value.output, out.value.keyEpoch, out.value.epoch).value;
      FailedRead(maxSkip, s1, out.value.epoch, h.n);
      if out.value.output.NewKey? {
        AdvanceMoves(s, out.value);
      }
    }
  }

  lemma AdvanceMoves(s: State, o: RecvOut)
    requires Advance(s, o.output, o.keyEpoch, o.epoch).Ok? && !o.output.NoKey?
    ensures Advance(s, o.output, o.keyEpoch, o.epoch).value.epoch == Inc(s.epoch) != s.epoch
  {}

  /** Skipping moves no chain unless the position is then read. */
  lemma FailedRead(maxSkip: u32, s: State, epoch: u32, n: u32)
    ensures Skip(maxSkip, s, epoch, n).Ok? && ReadNext(Skip(maxSkip, s, epoch, n).value, epoch, n).0.Err? ==>
              ReadNext(Skip(maxSkip, s, epoch, n).value, epoch, n).1 == s
  {
    if epoch in s.chains && s.chains[epoch].recv.Some? && s.chains[epoch].recv.value.n < n {
      SkipChainFacts(s.chains[epoch].recv.value, SkippedOf(s, epoch), n);
    }
  }

  /** An input that shows it: a fresh session is told of epoch 1 along with a position out of reach. */
  lemma FailureMoves(cfg: Config, ct: Ciphertext, ad: bytes)
    requires MaxSkip(cfg) < 5000
    ensures var s := Init(Shared(3), A2B);
            var (res, t) := Decrypt(cfg, s, Some(RecvOut(1, NewKey(SckaOutput(1)), 1)), SckaHeader([], 5000), ct, ad);
            && res == Err(MaxSkipExceeded) && s.epoch == 0 && t.epoch == 1
            && t.rk == PqRoot(s.rk, SckaOutput(1)) && 1 in t.chains && 1 !in s.chains
  {}

  lemma SkippedAvail(s: State, e: u32, n: u32)
    requires IsSkipped(s, e, n)
    ensures Avail(s, e, n)
  {}

  lemma TakeOnlyRemoves(s: State, epoch: u32, n: u32)
    requires Wf(s) && IsSkipped(s, epoch, n)
    ensures forall e, m :: Avail(TakeSkipped(s, epoch, n), e, m) ==> Avail(s, e, m)
  {
    hide Wf;
    TakeKeeps(s, epoch, n);
  }

  // ---- Sending -----------------------------------------------------------------------------

  lemma DropKeeps(s: State, sending: u32)
    requires Wf(s)
    ensures Wf(DropSend(s, sending)) && DropSend(s, sending).epoch == s.epoch
    ensures forall e, n :: Avail(DropSend(s, sending), e, n) <==> Avail(s, e, n)
  {
    var t := DropSend(s, sending);
    forall e: u32, n: u32
      ensures IsSkipped(t, e, n) == IsSkipped(s, e, n)
      ensures Below(t, e, n) == Below(s, e, n) && Ahead(t, e, n) == Ahead(s, e, n)
    {}
  }

  lemma SetSendKeeps(s: State, epoch: u32, c: Option<KdfChain>)
    requires Wf(s) && epoch in s.chains
    ensures var t := s.(chains := s.chains[epoch := s.chains[epoch].(send := c)]);
            Wf(t) && t.epoch == s.epoch && forall e, n :: Avail(t, e, n) <==> Avail(s, e, n)
  {
    var t := s.(chains := s.chains[epoch := s.chains[epoch].(send := c)]);
    forall e: u32, n: u32
      ensures IsSkipped(t, e, n) == IsSkipped(s, e, n)
      ensures Below(t, e, n) == Below(s, e, n) && Ahead(t, e, n) == Ahead(s, e, n)
    {}
  }

  /** Sending makes no received position available. */
  lemma SendKeeps(s: State, out: Option<SendOut>)
    requires Wf(s) && s.epoch < U32_MAX
    ensures var t := SendKey(s, out).1;
            && Wf(t) && s.epoch <= t.epoch <= s.epoch + 1
            && (forall e, m :: Avail(t, e, m) ==> Avail(s, e, m))
  {
    hide Wf, Avail;
    if out.Some? && Advance(s, out.value.output, out.value.keyEpoch, out.value.epoch).Ok? {
      var o := out.value;
      AdvanceKeeps(s, o.output, o.keyEpoch, o.epoch);
      var s1 := Advance(s, o.output, o.keyEpoch, o.epoch).value;
      DropKeeps(s1, o.epoch);
      var s2 := DropSend(s1, o.epoch);
      if o.epoch in s2.chains && s2.chains[o.epoch].send.Some? {
        var c := s2.chains[o.epoch].send.value;
        SetSendKeeps(s2, o.epoch, Some(KdfChain(PqNext(c.ck, c.n), Inc(c.n))));
      }
    }
  }

  // ---- Runs of one session -----------------------------------------------------------------

  datatype Event =
    | Send(sendOut: Option<SendOut>, text: bytes, sendAd: bytes)
    | Receive(recvOut: Option<RecvOut>, header: SckaHeader, ct: Ciphertext, ad: bytes)

  /** No counter starts over. */
  ghost predicate InRange(cfg: Config, s: State, v: Event) {
    s.epoch < U32_MAX && (v.Receive? ==> !Wraps(MaxSkip(cfg), s, v.recvOut, v.header.n))
  }

  function After(cfg: Config, s: State, v: Event): State {
    match v
    case Send(out, text, ad) => Encrypt(cfg, s, out, text, ad).1
    case Receive(out, h, ct, ad) => Decrypt(cfg, s, out, h, ct, ad).1
  }

  /** The position an event delivers, if it delivers one. */
  function Delivered(cfg: Config, s: State, v: Event): multiset<(u32, u32)> {
    if v.Receive? && v.recvOut.Some? && Decrypt(cfg, s, v.recvOut, v.header, v.ct, v.ad).0.Ok?
    then multiset{(v.recvOut.value.epoch, v.header.n)}
    else multiset{}
  }

  ghost predicate Leads(cfg: Config, s: State, vs: seq<Event>, t: State, got: multiset<(u32, u32)>)
    decreases |vs|
  {
    if vs == [] then s == t && got == multiset{}
    else InRange(cfg, s, vs[0]) && exists rest ::
           got == Delivered(cfg, s, vs[0]) + rest && Leads(cfg, After(cfg, s, vs[0]), vs[1..], t, rest)
  }

  /** One call: nothing becomes available, and what is delivered was and no longer is. */
  lemma EventConsumes(cfg: Config, s: State, v: Event)
    requires Wf(s) && InRange(cfg, s, v)
    ensures var t := After(cfg, s, v);
            && Wf(t) && s.epoch <= t.epoch
            && (forall e, m :: Avail(t, e, m) ==> Avail(s, e, m))
            && (forall e, m :: (e, m) in Delivered(cfg, s, v) ==> Avail(s, e, m) && !Avail(t, e, m))
            && (forall e, m :: Delivered(cfg, s, v)[(e, m)] <= 1)
  {
    hide Wf, Avail, SendKey, ReceiveKey, BuildAD, EncodeSckaHeader;
    if v.Send? {
      SendKeeps(s, v.sendOut);
    } else {
      ReceiveConsumes(MaxSkip(cfg), s, v.recvOut, v.header.n);
    }
  }

  /** At most once, over every run and whatever the provider and the network do: a position is
      delivered no more than once, and only if it was available at the start. */
  lemma {:induction false} AtMostOnce(cfg: Config, s: State, vs: seq<Event>, t: State, got: multiset<(u32, u32)>)
    requires Wf(s) && Leads(cfg, s, vs, t, got)
    ensures Wf(t)
    ensures forall e, m :: got[(e, m)] <= 1
    ensures forall e, m :: (e, m) in got ==> Avail(s, e, m) && !Avail(t, e, m)
    ensures forall e, m :: Avail(t, e, m) ==> Avail(s, e, m)
    decreases |vs|
  {
    hide Wf, Avail, After, Delivered;
    if vs != [] {
      var rest :| got == Delivered(cfg, s, vs[0]) + rest && Leads(cfg, After(cfg, s, vs[0]), vs[1..], t, rest);
      EventConsumes(cfg, s, vs[0]);
      AtMostOnce(cfg, After(cfg, s, vs[0]), vs[1..], t, rest);
      forall e: u32, m: u32
        ensures got[(e, m)] <= 1
      {
        assert (e, m) in rest ==> (e, m) !in Delivered(cfg, s, vs[0]);
      }
    }
  }

  // ---- The epoch window --------------------------------------------------------------------

  /** Taking in this answer drops the epoch it begins: a new key, for an epoch reported more than
      one ahead of it. */
  predicate Overshoots(s: State, output: Output, keyEpoch: u32, reported: u32) {
    !output.NoKey? && Advance(s, output, keyEpoch, reported).Ok? && reported > s.epoch + 2
  }

  /** The same of an event; one that fails to authenticate takes nothing in. */
  predicate TooFar(cfg: Config, s: State, v: Event) {
    match v
    case Send(out, _, _) => out.Some? && Overshoots(s, out.value.output, out.value.keyEpoch, out.value.epoch)
    case Receive(out, h, ct, ad) =>
      && out.Some? && Overshoots(s, out.value.output, out.value.keyEpoch, out.value.epoch)
      && (ReceiveKey(MaxSkip(cfg), s, out, h.n).0.Ok? ==> Decrypt(cfg, s, out, h, ct, ad).0.Ok?)
  }

  lemma SameDomain(s: State, t: State)
    requires t.chains.Keys == s.chains.Keys && t.epoch == s.epoch
    ensures Window(t) <==> Window(s)
  {
    assert forall e :: e in t.chains <==> e in s.chains;
  }

  lemma SendKeyWindow(s: State, out: Option<SendOut>)
    requires Wf(s) && Window(s) && s.epoch < U32_MAX
    ensures Window(SendKey(s, out).1) <==> !(out.Some? && Overshoots(s, out.value.output, out.value.keyEpoch, out.value.epoch))
  {
    hide Wf, Window, ClearOld;
    if out.Some? && Advance(s, out.value.output, out.value.keyEpoch, out.value.epoch).Ok? {
      var o := out.value;
      if !o.output.NoKey? {
        AdvanceWindow(s, o.output, o.keyEpoch, o.epoch);
      }
      var s1 := Advance(s, o.output, o.keyEpoch, o.epoch).value;
      SameDomain(s1, SendKey(s, out).1);
    }
  }

  lemma ReceiveKeyWindow(maxSkip: u32, s: State, out: Option<RecvOut>, n: u32)
    requires Wf(s) && Window(s) && s.epoch < U32_MAX
    ensures Window(ReceiveKey(maxSkip, s, out, n).1) <==> !(out.Some? && Overshoots(s, out.value.output, out.value.keyEpoch, out.value.epoch))
  {
    hide Wf, Window, ClearOld, SkipChain;
    if out.Some? && Advance(s, out.value.output, out.value.keyEpoch, out.value.epoch).Ok? {
      var o := out.value;
      if !o.output.NoKey? {
        AdvanceWindow(s, o.output, o.keyEpoch, o.epoch);
      }
      var s1 := Advance(s, o.output, o.keyEpoch, o.epoch).value;
      SameDomain(s1, ReceiveKey(maxSkip, s, out, n).1);
    }
  }

  /** One call keeps the live epochs an interval ending at the current one, unless it overshoots. */
  lemma EventWindow(cfg: Config, s: State, v: Event)
    requires Wf(s) && Window(s) && InRange(cfg, s, v)
    ensures Window(After(cfg, s, v)) <==> !TooFar(cfg, s, v)
  {
    hide Wf, Window, SendKey, ReceiveKey, BuildAD, EncodeSckaHeader, Overshoots;
    match v
    case Send(out, _, _) => SendKeyWindow(s, out);
    case Receive(out, h, _, _) => ReceiveKeyWindow(MaxSkip(cfg), s, out, h.n);
  }

  /** Every state of the run has the window. */
  ghost predicate WindowThroughout(cfg: Config, s: State, vs: seq<Event>)
    decreases |vs|
  {
    Window(s) && (vs != [] ==> WindowThroughout(cfg, After(cfg, s, vs[0]), vs[1..]))
  }

  ghost predicate NeverTooFar(cfg: Config, s: State, vs: seq<Event>)
    decreases |vs|
  {
    vs != [] ==> !TooFar(cfg, s, vs[0]) && NeverTooFar(cfg, After(cfg, s, vs[0]), vs[1..])
  }

  /** Over a whole run the live epochs stay an interval ending at the current one if and only if no
      event overshoots. */
  lemma {:induction false} RunWindow(cfg: Config, s: State, vs: seq<Event>, t: State, got: multiset<(u32, u32)>)
    requires Wf(s) && Window(s) && Leads(cfg, s, vs, t, got)
    ensures WindowThroughout(cfg, s, vs) <==> NeverTooFar(cfg, s, vs)
    ensures NeverTooFar(cfg, s, vs) ==> Window(t)
    decreases |vs|
  {
    hide Wf, Window, After, Delivered, TooFar;
    if vs != [] {
      var rest :| got == Delivered(cfg, s, vs[0]) + rest && Leads(cfg, After(cfg, s, vs[0]), vs[1..], t, rest);
      EventConsumes(cfg, s, vs[0]);
      EventWindow(cfg, s, vs[0]);
      if !TooFar(cfg, s, vs[0]) {
        RunWindow(cfg, After(cfg, s, vs[0]), vs[1..], t, rest);
      } else {
        assert !WindowThroughout(cfg, After(cfg, s, vs[0]), vs[1..]);
      }
    }
  }

  /** Both properties, of every run from initialisation. */
  lemma FromInit(cfg: Config, sk: Key, dir: Direction, vs: seq<Event>, t: State, got: multiset<(u32, u32)>)
    requires Leads(cfg, Init(sk, dir), vs, t, got)
    ensures forall e, m :: got[(e, m)] <= 1
    ensures forall e, m :: (e, m) in got ==> !Avail(t, e, m)
    ensures WindowThroughout(cfg, Init(sk, dir), vs) <==> NeverTooFar(cfg, Init(sk, dir), vs)
  {
    hide Leads, Init, NeverTooFar, WindowThroughout;
    InitWf(sk, dir);
    AtMostOnce(cfg, Init(sk, dir), vs, t, got);
    RunWindow(cfg, Init(sk, dir), vs, t, got);
  }
}
