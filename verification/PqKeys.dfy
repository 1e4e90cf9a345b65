/** Which keys a post-quantum session holds. Given that the provider outputs the agreed key of
    each epoch, both sessions walk the same two key sequences per epoch, in opposite
    directions; and what has been used cannot be derived from what is left. */
module PqKeys {
  import opened Bytes
  import opened Terms
  import opened PqSpec
  import opened PqRuns

  const SK := Shared(3)

  function Opposite(d: Direction): Direction {
    if d == A2B then B2A else A2B
  }

  /** Root key of an epoch, and the two first chain keys derived with it. */
  function PR(e: nat): Key {
    if e == 0 then PqRoot(SK, Zeroed) else PqRoot(PR(e - 1), SckaOutput(e))
  }

  function PC(d: Direction, e: nat): Key {
    var rk, output := if e == 0 then SK else PR(e - 1), if e == 0 then Zeroed else SckaOutput(e);
    if d == A2B then PqChainA(rk, output) else PqChainB(rk, output)
  }

  /** The key at position `n` of the sequence of epoch `e` in direction `d`. */
  function KeyAt(d: Direction, e: nat, n: nat): Key
    requires n <= U32_MAX
  {
    if n == 0 then PC(d, e) else PqNext(KeyAt(d, e, n - 1), n - 1)
  }

  function MsgKey(d: Direction, e: nat, n: u32): Key {
    PqMessage(KeyAt(d, e, n), n)
  }

  lemma {:induction false} PRInjective(e: nat, f: nat)
    requires PR(e) == PR(f)
    ensures e == f
  {
    if e > 0 && f > 0 {
      PRInjective(e - 1, f - 1);
    }
  }

  lemma PCInjective(d: Direction, e: nat, d': Direction, e': nat)
    requires PC(d, e) == PC(d', e')
    ensures d == d' && e == e'
  {
    if e > 0 && e' > 0 {
      PRInjective(e - 1, e' - 1);
    }
  }

  lemma {:induction false} KeyAtInjective(d: Direction, e: nat, n: nat, d': Direction, e': nat, n': nat)
    requires n <= U32_MAX && n' <= U32_MAX && KeyAt(d, e, n) == KeyAt(d', e', n')
    ensures d == d' && e == e' && n == n'
  {
    if n > 0 && n' > 0 {
      KeyAtInjective(d, e, n - 1, d', e', n' - 1);
    } else if n == 0 && n' == 0 {
      PCInjective(d, e, d', e');
    }
  }

  // ---- The keys a session holds ------------------------------------------------------------

  ghost predicate ChainKeysOk(s: State, e: u32)
    requires e in s.chains
  {
    var p := s.chains[e];
    && (p.send.Some? ==> p.send.value.ck == KeyAt(s.dir, e, p.send.value.n))
    && (p.recv.Some? ==> p.recv.value.ck == KeyAt(Opposite(s.dir), e, p.recv.value.n))
  }

  /** A session sends along its own direction and receives along the other. */
  ghost predicate KeyInv(s: State) {
    && Wf(s)
    && s.rk == PR(s.epoch)
    && (forall e :: e in s.chains ==> ChainKeysOk(s, e))
    && (forall e: u32, n: u32 :: IsSkipped(s, e, n) ==> s.skipped[e][n] == MsgKey(Opposite(s.dir), e, n))
  }

  predicate Agreed(output: Output, keyEpoch: u32) {
    output.NewKey? ==> output.key == SckaOutput(keyEpoch)
  }

  lemma InitKeys(dir: Direction)
    ensures KeyInv(Init(SK, dir))
  {}

  lemma AdvanceKeys(s: State, output: Output, keyEpoch: u32, reported: u32)
    requires KeyInv(s) && s.epoch < U32_MAX && Agreed(output, keyEpoch) && Advance(s, output, keyEpoch, reported).Ok?
    ensures KeyInv(Advance(s, output, keyEpoch, reported).value)
  {
    AdvanceKeeps(s, output, keyEpoch, reported);
    var t := Advance(s, output, keyEpoch, reported).value;
    forall e | e in t.chains
      ensures ChainKeysOk(t, e)
    {
      assert e in s.chains ==> ChainKeysOk(s, e);
    }
    forall e: u32, n: u32 | IsSkipped(t, e, n)
      ensures t.skipped[e][n] == MsgKey(Opposite(t.dir), e, n)
    {
      assert IsSkipped(s, e, n);
    }
  }

  lemma {:induction false} SkipChainKeys(d: Direction, e: u32, c: KdfChain, keys: map<u32, Key>, until: u32)
    requires c.n <= until && c.ck == KeyAt(d, e, c.n)
    requires forall m :: m in keys ==> keys[m] == MsgKey(d, e, m)
    ensures var (c1, keys1) := SkipChain(c, keys, until);
            && c1.n == until && c1.ck == KeyAt(d, e, until)
            && (forall m :: m in keys1 ==> keys1[m] == MsgKey(d, e, m))
    decreases until - c.n
  {
    if c.n < until {
      SkipChainKeys(d, e, KdfChain(PqNext(c.ck, c.n), c.n + 1), keys[c.n := PqMessage(c.ck, c.n)], until);
    }
  }

  lemma SkipKeys(maxSkip: u32, s: State, epoch: u32, until: u32)
    requires KeyInv(s) && Skip(maxSkip, s, epoch, until).Ok?
    ensures KeyInv(Skip(maxSkip, s, epoch, until).value)
  {
    SkipKeeps(maxSkip, s, epoch, until);
    var t := Skip(maxSkip, s, epoch, until).value;
    if t != s {
      assert ChainKeysOk(s, epoch);
      forall m | m in SkippedOf(s, epoch)
        ensures SkippedOf(s, epoch)[m] == MsgKey(Opposite(s.dir), epoch, m)
      {
        assert IsSkipped(s, epoch, m);
      }
      SkipChainKeys(Opposite(s.dir), epoch, s.chains[epoch].recv.value, SkippedOf(s, epoch), until);
      forall e | e in t.chains
        ensures ChainKeysOk(t, e)
      {
        assert ChainKeysOk(s, e);
      }
      forall e: u32, n: u32 | IsSkipped(t, e, n)
        ensures t.skipped[e][n] == MsgKey(Opposite(t.dir), e, n)
      {
        assert e != epoch ==> IsSkipped(s, e, n);
      }
    }
  }

  lemma TakeKeys(s: State, epoch: u32, n: u32)
    requires KeyInv(s) && IsSkipped(s, epoch, n)
    ensures KeyInv(TakeSkipped(s, epoch, n))
  {
    TakeKeeps(s, epoch, n);
    var t := TakeSkipped(s, epoch, n);
    forall e | e in t.chains
      ensures ChainKeysOk(t, e)
    {
      assert ChainKeysOk(s, e);
    }
  }

  /** Replacing one chain pair by another that walks the same sequences. */
  lemma ReplaceKeys(s: State, epoch: u32, p: ChainPair)
    requires KeyInv(s) && epoch in s.chains
    requires ChainKeysOk(s.(chains := s.chains[epoch := p]), epoch)
    requires Wf(s.(chains := s.chains[epoch := p]))
    ensures KeyInv(s.(chains := s.chains[epoch := p]))
  {
    var t := s.(chains := s.chains[epoch := p]);
    forall e | e in t.chains
      ensures ChainKeysOk(t, e)
    {
      assert ChainKeysOk(s, e);
    }
    forall e: u32, n: u32
      ensures IsSkipped(t, e, n) == IsSkipped(s, e, n)
    {}
  }

  lemma ReadKeys(s: State, epoch: u32, n: u32)
    requires KeyInv(s) && n < U32_MAX && ReadNext(s, epoch, n).0.Ok? && !IsSkipped(s, epoch, n)
    ensures KeyInv(ReadNext(s, epoch, n).1)
  {
    ReadKeeps(s, epoch, n);
    assert ChainKeysOk(s, epoch);
    ReplaceKeys(s, epoch, ReadNext(s, epoch, n).1.chains[epoch]);
  }

  lemma ReadKey(s: State, epoch: u32, n: u32)
    requires KeyInv(s) && ReadNext(s, epoch, n).0.Ok?
    ensures ReadNext(s, epoch, n).0.value == (epoch, MsgKey(Opposite(s.dir), epoch, n))
  {
    assert ChainKeysOk(s, epoch);
  }

  lemma DropKeys(s: State, sending: u32)
    requires KeyInv(s)
    ensures KeyInv(DropSend(s, sending))
  {
    DropKeeps(s, sending);
    if sending > 0 && sending - 1 in s.chains {
      assert ChainKeysOk(s, sending - 1);
      ReplaceKeys(s, sending - 1, s.chains[sending - 1].(send := None));
    }
  }

  /** A key obtained for an incoming message is the agreed key of the other direction. */
  lemma ReceiveKeys(maxSkip: u32, s: State, out: Option<RecvOut>, n: u32)
    requires KeyInv(s) && s.epoch < U32_MAX
    requires out.Some? ==> Agreed(out.value.output, out.value.keyEpoch)
    ensures var (res, t) := ReceiveKey(maxSkip, s, out, n);
            && (!Wraps(maxSkip, s, out, n) ==> KeyInv(t)) && t.dir == s.dir
            && (res.Ok? ==> res.value == (out.value.epoch, MsgKey(Opposite(s.dir), out.value.epoch, n)))
  {
    hide Wf, KeyInv, Avail, ClearOld, SkipChain;
    if out.Some? && Advance(s, out.value.output, out.value.keyEpoch, out.value.epoch).Ok? {
      var o := out.value;
      KeysWf(s);
      AdvanceKeys(s, o.output, o.keyEpoch, o.epoch);
      AdvanceKeeps(s, o.output, o.keyEpoch, o.epoch);
      var s1 := Advance(s, o.output, o.keyEpoch, o.epoch).value;
      if IsSkipped(s1, o.epoch, n) {
        TakeKeys(s1, o.epoch, n);
        SkippedKey(s1, o.epoch, n);
      } else if Skip(maxSkip, s1, o.epoch, n).Ok? {
        SkipKeys(maxSkip, s1, o.epoch, n);
        KeysWf(s1);
        SkipKeeps(maxSkip, s1, o.epoch, n);
        var s2 := Skip(maxSkip, s1, o.epoch, n).value;
        if ReadNext(s2, o.epoch, n).0.Ok? {
          SkipReaches(maxSkip, s1, o.epoch, n);
          ReadKey(s2, o.epoch, n);
          if n < U32_MAX {
            ReadKeys(s2, o.epoch, n);
          }
        }
      }
    }
  }

  lemma KeysWf(s: State)
    requires KeyInv(s)
    ensures Wf(s)
  {}

  lemma SkippedKey(s: State, e: u32, n: u32)
    requires KeyInv(s) && IsSkipped(s, e, n)
    ensures s.skipped[e][n] == MsgKey(Opposite(s.dir), e, n)
  {}

  lemma NextSendKeys(s: State, epoch: u32)
    requires KeyInv(s) && epoch in s.chains && s.chains[epoch].send.Some? && s.chains[epoch].send.value.n < U32_MAX
    ensures var c := s.chains[epoch].send.value;
            && KeyInv(s.(chains := s.chains[epoch := s.chains[epoch].(send := Some(KdfChain(PqNext(c.ck, c.n), Inc(c.n))))]))
            && PqMessage(c.ck, c.n) == MsgKey(s.dir, epoch, c.n)
  {
    var c := s.chains[epoch].send.value;
    assert ChainKeysOk(s, epoch);
    SetSendKeeps(s, epoch, Some(KdfChain(PqNext(c.ck, c.n), Inc(c.n))));
    ReplaceKeys(s, epoch, s.chains[epoch].(send := Some(KdfChain(PqNext(c.ck, c.n), Inc(c.n)))));
  }

  /** Sending counters stay below their last value. */
  ghost predicate SendInRange(s: State) {
    s.epoch < U32_MAX && forall e :: e in s.chains && s.chains[e].send.Some? ==> s.chains[e].send.value.n < U32_MAX
  }

  lemma AdvanceSendRange(s: State, output: Output, keyEpoch: u32, reported: u32)
    requires SendInRange(s) && Advance(s, output, keyEpoch, reported).Ok?
    ensures var t := DropSend(Advance(s, output, keyEpoch, reported).value, reported);
            forall e :: e in t.chains && t.chains[e].send.Some? ==> t.chains[e].send.value.n < U32_MAX
  {}

  /** A key obtained for an outgoing message is the agreed key of the session's direction. */
  lemma SendKeys(s: State, out: Option<SendOut>)
    requires KeyInv(s) && SendInRange(s)
    requires out.Some? ==> Agreed(out.value.output, out.value.keyEpoch)
    ensures var (res, t) := SendKey(s, out);
            KeyInv(t) && t.dir == s.dir && (res.Ok? ==> res.value.1 < U32_MAX && res.value.2 == MsgKey(s.dir, out.value.epoch, res.value.1))
  {
    hide Wf, KeyInv, Avail, ClearOld;
    if out.Some? && Advance(s, out.value.output, out.value.keyEpoch, out.value.epoch).Ok? {
      var o := out.value;
      KeysWf(s);
      AdvanceKeys(s, o.output, o.keyEpoch, o.epoch);
      AdvanceKeeps(s, o.output, o.keyEpoch, o.epoch);
      AdvanceSendRange(s, o.output, o.keyEpoch, o.epoch);
      var s1 := Advance(s, o.output, o.keyEpoch, o.epoch).value;
      DropKeys(s1, o.epoch);
      var s2 := DropSend(s1, o.epoch);
      if o.epoch in s2.chains && s2.chains[o.epoch].send.Some? {
        NextSendKeys(s2, o.epoch);
      }
    }
  }

  /** Chain agreement: for an epoch that is live on both sides, one side's sending chain and the
      other's receiving chain are points of one key sequence, in both directions; and equal
      epochs mean equal roots. */
  lemma ChainsAgree(a: State, b: State, e: u32)
    requires KeyInv(a) && KeyInv(b) && a.dir == A2B && b.dir == B2A
    ensures a.epoch == b.epoch <==> a.rk == b.rk
    ensures e in a.chains && e in b.chains && a.chains[e].send.Some? && b.chains[e].recv.Some? ==>
              a.chains[e].send.value.ck == KeyAt(A2B, e, a.chains[e].send.value.n)
              && b.chains[e].recv.value.ck == KeyAt(A2B, e, b.chains[e].recv.value.n)
    ensures e in a.chains && e in b.chains && b.chains[e].send.Some? && a.chains[e].recv.Some? ==>
              b.chains[e].send.value.ck == KeyAt(B2A, e, b.chains[e].send.value.n)
              && a.chains[e].recv.value.ck == KeyAt(B2A, e, a.chains[e].recv.value.n)
  {
    if a.rk == b.rk {
      PRInjective(a.epoch, b.epoch);
    }
    if e in a.chains && e in b.chains {
      assert ChainKeysOk(a, e) && ChainKeysOk(b, e);
    }
  }
}
