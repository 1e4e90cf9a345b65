/** What every call of a post-quantum session answers, for every state, configuration and provider
    answer, in the configuration's own numbers. */
module PqAnswers {
  import opened Bytes
  import opened Terms
  import opened Wire
  import opened PqSpec
  import opened PqRuns

  /** What is wrong with a provider's answer: a new key for another epoch than the next, or one that
      is too short. */
  lemma AdvanceAnswer(s: State, output: Output, keyEpoch: u32, reported: u32)
    ensures var res, next := Advance(s, output, keyEpoch, reported), (s.epoch + 1) % 0x1_0000_0000;
            && (res == Err(EpochMismatch) <==> !output.NoKey? && keyEpoch != next)
            && (res == Err(InvalidInput) <==> output.ShortKey? && keyEpoch == next)
            && (res.Ok? <==> output.NoKey? || (output.NewKey? && keyEpoch == next))
  {}

  /** The chain pair of the reported epoch is there afterwards: it was, or it is the new one. */
  lemma ReportedPair(s: State, output: Output, keyEpoch: u32, reported: u32)
    requires Advance(s, output, keyEpoch, reported).Ok?
    ensures var t := Advance(s, output, keyEpoch, reported).value;
            && (reported in t.chains <==> reported in s.chains || (output.NewKey? && reported == keyEpoch))
            && (reported in t.chains ==>
                 t.chains[reported] == if output.NewKey? && reported == keyEpoch then NewPair(s.rk, output.key, s.dir) else s.chains[reported])
            && (forall n: u32 :: IsSkipped(t, reported, n) <==> IsSkipped(s, reported, n))
            && (forall n: u32 :: IsSkipped(s, reported, n) ==> t.skipped[reported][n] == s.skipped[reported][n])
  {}

  // ---- Receiving ---------------------------------------------------------------------------

  /** When a position is read, and why not: its key is filed, or its epoch's chain has not passed it and
      is no further behind than the configured number of messages, or 1000 where none is configured. */
  lemma ReceiveAnswer(cfg: Config, s: State, out: Option<RecvOut>, n: u32)
    requires Wf(s) && s.epoch < U32_MAX
    ensures var limit, (res, _) := if cfg.maxSkip > 0 then cfg.maxSkip else 1000, ReceiveKey(MaxSkip(cfg), s, out, n);
            && (out.None? ==> res == Err(ProviderFailure))
            && (out.Some? ==>
                 var o := out.value;
                 var begins := o.output.NewKey? && o.keyEpoch == s.epoch + 1 && o.epoch == o.keyEpoch;
                 var taken := o.output.NoKey? || (o.output.NewKey? && o.keyEpoch == s.epoch + 1);
                 var live := begins || (o.epoch in s.chains && s.chains[o.epoch].recv.Some?);
                 var at: nat := if begins || !live then 0 else s.chains[o.epoch].recv.value.n;
                 var filed := IsSkipped(s, o.epoch, n);
                 && (res == Err(EpochMismatch) <==> !o.output.NoKey? && o.keyEpoch != s.epoch + 1)
                 && (res == Err(InvalidInput) <==> o.output.ShortKey? && o.keyEpoch == s.epoch + 1)
                 && (res == Err(MaxSkipExceeded) <==> taken && !filed && live && n > at + limit)
                 && (res == Err(InvalidTransition) <==> taken && !filed && !live)
                 && (res == Err(SkippedKeyNotFound) <==> taken && !filed && live && n < at)
                 && (res.Ok? <==> taken && (filed || (live && at <= n <= at + limit))))
  {
    hide ClearOld, Wf, Advance;
    if out.Some? {
      var o := out.value;
      AdvanceAnswer(s, o.output, o.keyEpoch, o.epoch);
      if Advance(s, o.output, o.keyEpoch, o.epoch).Ok? {
        ReportedPair(s, o.output, o.keyEpoch, o.epoch);
        ReadAnswer(MaxSkip(cfg), Advance(s, o.output, o.keyEpoch, o.epoch).value, o.epoch, n);
        NothingFiledAhead(s, o.epoch, n);
      }
    }
  }

  lemma NothingFiledAhead(s: State, e: u32, n: u32)
    requires Wf(s)
    ensures e > s.epoch ==> e !in s.chains && !IsSkipped(s, e, n)
  {}

  /** The last two steps of a call. */
  function ReadAt(maxSkip: u32, s: State, e: u32, n: u32): Result<(u32, Key)> {
    match Skip(maxSkip, s, e, n)
    case Err(x) => Err(x)
    case Ok(t) => ReadNext(t, e, n).0
  }

  lemma ReadAnswer(maxSkip: u32, s: State, e: u32, n: u32)
    ensures var res := ReadAt(maxSkip, s, e, n);
            var live := e in s.chains && s.chains[e].recv.Some?;
            && (res == Err(MaxSkipExceeded) <==> live && n > s.chains[e].recv.value.n + maxSkip)
            && (res == Err(InvalidTransition) <==> !live)
            && (res == Err(SkippedKeyNotFound) <==> live && n < s.chains[e].recv.value.n)
            && (res.Ok? <==> live && s.chains[e].recv.value.n <= n <= s.chains[e].recv.value.n + maxSkip)
  {
    if e in s.chains && s.chains[e].recv.Some? && s.chains[e].recv.value.n <= n {
      SkipChainFacts(s.chains[e].recv.value, SkippedOf(s, e), n);
    }
  }

  /** A successful call uses up the position it reads and those of the epochs it drops, and no other:
      what it passes over is kept on file. */
  lemma ReceiveKeepsRest(maxSkip: u32, s: State, out: Option<RecvOut>, n: u32)
    requires Wf(s) && s.epoch < U32_MAX && ReceiveKey(maxSkip, s, out, n).0.Ok? && !Wraps(maxSkip, s, out, n)
    ensures out.Some?
    ensures forall e: u32, m: u32 :: Avail(ReceiveKey(maxSkip, s, out, n).1, e, m) <==>
              Avail(s, e, m) && (e, m) != (out.value.epoch, n) && !Prunes(s, out.value, e)
  {
    hide ClearOld, Avail, Wf, Skip, ReadNext, Advance;
    var o := out.value;
    AdvanceAvail(s, o);
    AdvanceKeeps(s, o.output, o.keyEpoch, o.epoch);
    var s1 := Advance(s, o.output, o.keyEpoch, o.epoch).value;
    if IsSkipped(s1, o.epoch, n) {
      TakeKeeps(s1, o.epoch, n);
    } else {
      SkipKeeps(maxSkip, s1, o.epoch, n);
      SkipReaches(maxSkip, s1, o.epoch, n);
      ReadKeepsRest(Skip(maxSkip, s1, o.epoch, n).value, o.epoch, n);
    }
  }

  lemma ReadKeepsRest(s: State, epoch: u32, n: u32)
    requires Wf(s) && n < U32_MAX && ReadNext(s, epoch, n).0.Ok? && !IsSkipped(s, epoch, n)
    ensures forall e: u32, m: u32 :: Avail(ReadNext(s, epoch, n).1, e, m) <==> Avail(s, e, m) && (e, m) != (epoch, n)
  {
    var t := ReadNext(s, epoch, n).1;
    forall e: u32, m: u32
      ensures IsSkipped(t, e, m) == IsSkipped(s, e, m)
      ensures Ahead(t, e, m) <==> Ahead(s, e, m) && (e, m) != (epoch, n)
    {}
  }

  // ---- Sending -----------------------------------------------------------------------------

  /** When a message goes out, with which number and key, and why not: the reported epoch's sending
      chain must be the new one or one that has not been forgotten. */
  lemma SendAnswer(s: State, out: Option<SendOut>)
    requires Wf(s) && s.epoch < U32_MAX
    ensures var (res, t) := SendKey(s, out);
            && (out.None? ==> res == Err(ProviderFailure) && t == s)
            && (out.Some? ==>
                 var o := out.value;
                 var begins := o.output.NewKey? && o.keyEpoch == s.epoch + 1 && o.epoch == o.keyEpoch;
                 var taken := o.output.NoKey? || (o.output.NewKey? && o.keyEpoch == s.epoch + 1);
                 var live := begins || (o.epoch in s.chains && s.chains[o.epoch].send.Some?);
                 && (res == Err(EpochMismatch) <==> !o.output.NoKey? && o.keyEpoch != s.epoch + 1)
                 && (res == Err(InvalidInput) <==> o.output.ShortKey? && o.keyEpoch == s.epoch + 1)
                 && (res == Err(InvalidTransition) <==> taken && !live)
                 && (res.Ok? <==> taken && live)
                 && (!taken ==> t == s)
                 && (res.Ok? ==>
                      var c := if begins then NewPair(s.rk, o.output.key, s.dir).send.value else s.chains[o.epoch].send.value;
                      && res.value == (o.msg, c.n, PqMessage(c.ck, c.n))
                      && o.epoch in t.chains && t.chains[o.epoch].send == Some(KdfChain(PqNext(c.ck, c.n), if c.n == 0xFFFF_FFFF then 0 else c.n + 1))))
  {
    hide ClearOld, Wf, Advance;
    if out.Some? {
      var o := out.value;
      AdvanceAnswer(s, o.output, o.keyEpoch, o.epoch);
      if Advance(s, o.output, o.keyEpoch, o.epoch).Ok? {
        ReportedPair(s, o.output, o.keyEpoch, o.epoch);
        NothingFiledAhead(s, o.epoch, 0);
      }
    }
  }

  // ---- Identities --------------------------------------------------------------------------

  /** What one session sends, delivered unaltered to any session that derives its key: it is accepted
      exactly if each of the two names the other. */
  lemma BoundToIdentities(a: Config, b: Config, s: State, p: State, out: Option<SendOut>, answer: Option<RecvOut>, text: bytes, ad: bytes)
    requires Encrypt(a, s, out, text, ad).0.Ok?
    requires var (h, ct) := Encrypt(a, s, out, text, ad).0.value;
             var key := ReceiveKey(MaxSkip(b), p, answer, h.n).0;
             ct.Sealed? && key.Ok? && key.value.1 == ct.key
    ensures var (h, ct) := Encrypt(a, s, out, text, ad).0.value;
            var (res, t) := Decrypt(b, p, answer, h, ct, ad);
            && res == (if a.local == b.remote && a.remote == b.local then Ok(text) else Err(AuthFailure))
            && (res.Err? ==> t == p)
  {
    hide ReceiveKey, SendKey, IdentityPrefix, EncodeSckaHeader;
    OtherIdentities(a, b, EncodeSckaHeader(Encrypt(a, s, out, text, ad).0.value.0), ad);
  }

  /** So from the first message on. */
  lemma Strangers(a: Config, b: Config, sk: Key, msg: bytes, text: bytes, ad: bytes)
    ensures var sent := Encrypt(a, Init(sk, A2B), Some(SendOut(msg, 0, NoKey, 0)), text, ad).0;
            && sent.Ok?
            && Decrypt(b, Init(sk, B2A), Some(RecvOut(0, NoKey, 0)), sent.value.0, sent.value.1, ad).0 ==
                 (if a.local == b.remote && a.remote == b.local then Ok(text) else Err(AuthFailure))
  {
    hide BuildAD, EncodeSckaHeader;
    var s, p, out, answer := Init(sk, A2B), Init(sk, B2A), Some(SendOut(msg, 0, NoKey, 0)), Some(RecvOut(0, NoKey, 0));
    assert SendKey(s, out).0.Ok?;
    BoundToIdentities(a, b, s, p, out, answer, text, ad);
  }
}
