/** Erasure: once a message key has been used for sending or receiving, it cannot be derived
    from what the session still holds, even with every key the key agreement has put out. */
module PqErasure {
  import opened Bytes
  import opened Terms
  import opened Wire
  import opened PqSpec
  import opened PqRuns
  import opened PqKeys

  /** The keys in the session's memory. */
  ghost predicate Held(s: State, k: Key) {
    || k == s.rk
    || (exists e :: e in s.chains && s.chains[e].send.Some? && s.chains[e].send.value.ck == k)
    || (exists e :: e in s.chains && s.chains[e].recv.Some? && s.chains[e].recv.value.ck == k)
    || (exists e, n :: IsSkipped(s, e, n) && s.skipped[e][n] == k)
  }

  /** What the key derivation functions yield from held keys and key-agreement outputs. A key
      has exactly one derivation, so the closure is read off its structure. */
  ghost predicate Derivable(s: State, k: Key)
    decreases k
  {
    || Held(s, k)
    || match k
       case PqRoot(rk, _) => Derivable(s, rk)
       case PqChainA(rk, _) => Derivable(s, rk)
       case PqChainB(rk, _) => Derivable(s, rk)
       case PqNext(ck, _) => Derivable(s, ck)
       case PqMessage(ck, _) => Derivable(s, ck)
       case SckaOutput(_) => true
       case _ => false
  }

  lemma HeldShape(s: State, k: Key)
    requires KeyInv(s) && Held(s, k)
    ensures
      || k == PR(s.epoch)
      || (exists e :: e in s.chains && s.chains[e].send.Some? && k == KeyAt(s.dir, e, s.chains[e].send.value.n))
      || (exists e :: e in s.chains && s.chains[e].recv.Some? && k == KeyAt(Opposite(s.dir), e, s.chains[e].recv.value.n))
      || (exists e: u32, n: u32 :: IsSkipped(s, e, n) && k == MsgKey(Opposite(s.dir), e, n))
  {
    assert forall e :: e in s.chains ==> ChainKeysOk(s, e);
  }

  lemma KeyAtShape(d: Direction, e: nat, n: nat)
    requires n <= U32_MAX
    ensures var k := KeyAt(d, e, n); k.PqChainA? || k.PqChainB? || k.PqNext?
  {}

  /** Superseded root keys are gone. */
  lemma {:induction false} OldRootGone(s: State, e: nat)
    requires KeyInv(s) && e < s.epoch
    ensures !Derivable(s, PR(e))
  {
    if Held(s, PR(e)) {
      HeldShape(s, PR(e));
      PRInjectiveUnlessEqual(s, e);
    }
    if e > 0 {
      OldRootGone(s, e - 1);
    } else {
      SecretGone(s);
    }
  }

  lemma PRInjectiveUnlessEqual(s: State, e: nat)
    requires e < s.epoch
    ensures PR(e) != PR(s.epoch)
    ensures forall d, f: u32, n: u32 :: PR(e) != KeyAt(d, f, n)
  {
    if PR(e) == PR(s.epoch) {
      PRInjective(e, s.epoch);
    }
    forall d, f: u32, n: u32
      ensures PR(e) != KeyAt(d, f, n)
    {
      KeyAtShape(d, f, n);
    }
  }

  lemma SecretGone(s: State)
    requires KeyInv(s)
    ensures !Derivable(s, SK)
  {
    if Held(s, SK) {
      HeldShape(s, SK);
      forall d, f: u32, n: u32
        ensures SK != KeyAt(d, f, n)
      {
        KeyAtShape(d, f, n);
      }
    }
  }

  /** The counter of the chain that walks direction `d` of epoch `e` has passed `n`, or that
      chain is gone. */
  ghost predicate Passed(s: State, d: Direction, e: nat, n: nat) {
    && e <= s.epoch
    && (e in s.chains && d == s.dir && s.chains[e].send.Some? ==> n < s.chains[e].send.value.n)
    && (e in s.chains && d != s.dir && s.chains[e].recv.Some? ==> n < s.chains[e].recv.value.n)
  }

  lemma PassedNotHeld(s: State, d: Direction, e: nat, n: nat)
    requires KeyInv(s) && n <= U32_MAX && Passed(s, d, e, n)
    ensures !Held(s, KeyAt(d, e, n))
  {
    var k := KeyAt(d, e, n);
    KeyAtShape(d, e, n);
    if Held(s, k) {
      HeldShape(s, k);
      if f :| f in s.chains && s.chains[f].send.Some? && k == KeyAt(s.dir, f, s.chains[f].send.value.n) {
        KeyAtInjective(d, e, n, s.dir, f, s.chains[f].send.value.n);
      } else if f :| f in s.chains && s.chains[f].recv.Some? && k == KeyAt(Opposite(s.dir), f, s.chains[f].recv.value.n) {
        KeyAtInjective(d, e, n, Opposite(s.dir), f, s.chains[f].recv.value.n);
      }
    }
  }

  /** Nor can a chain key that has been passed be derived. */
  lemma {:induction false} PassedGone(s: State, d: Direction, e: nat, n: nat)
    requires KeyInv(s) && n <= U32_MAX && Passed(s, d, e, n)
    ensures !Derivable(s, KeyAt(d, e, n))
  {
    PassedNotHeld(s, d, e, n);
    if n > 0 {
      PassedGone(s, d, e, n - 1);
    } else if e > 0 {
      OldRootGone(s, e - 1);
    } else {
      SecretGone(s);
    }
  }

  /** A message key whose position was passed and which is not on file is gone for good. */
  lemma UsedKeyGone(s: State, d: Direction, e: u32, n: u32)
    requires KeyInv(s) && Passed(s, d, e, n)
    requires d != s.dir ==> !IsSkipped(s, e, n)
    ensures !Derivable(s, MsgKey(d, e, n))
  {
    var k := MsgKey(d, e, n);
    PassedGone(s, d, e, n);
    if Held(s, k) {
      HeldShape(s, k);
      MsgKeyShape();
      if f: u32, m: u32 :| IsSkipped(s, f, m) && k == MsgKey(Opposite(s.dir), f, m) {
        KeyAtInjective(d, e, n, Opposite(s.dir), f, m);
      }
    }
  }

  lemma MsgKeyShape()
    ensures forall d, e: nat, n: u32, d', f: nat, m: u32 :: MsgKey(d, e, n) != KeyAt(d', f, m)
    ensures forall d, e: nat, n: u32, f: nat :: MsgKey(d, e, n) != PR(f)
  {
    forall d, e: nat, n: u32, d', f: nat, m: u32
      ensures MsgKey(d, e, n) != KeyAt(d', f, m)
    {
      KeyAtShape(d', f, m);
    }
  }

  /** What has been received is gone. */
  lemma ReceivedGone(s: State, e: u32, n: u32)
    requires KeyInv(s) && !Avail(s, e, n)
    ensures !Derivable(s, MsgKey(Opposite(s.dir), e, n))
  {
    UsedKeyGone(s, Opposite(s.dir), e, n);
  }

  // ---- Nothing more is lost ----------------------------------------------------------------

  lemma {:induction false} LaterRootDerivable(s: State, e: nat)
    requires KeyInv(s) && e >= s.epoch
    ensures Derivable(s, PR(e))
  {
    if e > s.epoch {
      LaterRootDerivable(s, e - 1);
    }
  }

  lemma {:induction false} LaterKeyDerivable(s: State, d: Direction, e: nat, from: nat, n: nat)
    requires from <= n <= U32_MAX && Derivable(s, KeyAt(d, e, from))
    ensures Derivable(s, KeyAt(d, e, n))
  {
    if n > from {
      LaterKeyDerivable(s, d, e, from, n - 1);
    }
  }

  lemma FutureKeyDerivable(s: State, d: Direction, e: nat, n: u32)
    requires KeyInv(s) && e > s.epoch
    ensures Derivable(s, MsgKey(d, e, n))
  {
    LaterRootDerivable(s, e - 1);
    assert Derivable(s, KeyAt(d, e, 0));
    LaterKeyDerivable(s, d, e, 0, n);
  }

  /** A receiving key can be derived exactly when its position is still available. */
  lemma ReceivableExactly(s: State, e: u32, n: u32)
    requires KeyInv(s)
    ensures Derivable(s, MsgKey(Opposite(s.dir), e, n)) <==> Avail(s, e, n)
  {
    var d := Opposite(s.dir);
    if !Avail(s, e, n) {
      ReceivedGone(s, e, n);
    } else if e > s.epoch {
      FutureKeyDerivable(s, d, e, n);
    } else if IsSkipped(s, e, n) {
      assert Held(s, MsgKey(d, e, n));
    } else {
      assert ChainKeysOk(s, e);
      LaterKeyDerivable(s, d, e, s.chains[e].recv.value.n, n);
    }
  }

  /** A sending key can be derived exactly when its position has not been used or dropped. */
  lemma SendableExactly(s: State, e: u32, n: u32)
    requires KeyInv(s)
    ensures Derivable(s, MsgKey(s.dir, e, n)) <==> !Passed(s, s.dir, e, n)
  {
    if Passed(s, s.dir, e, n) {
      UsedKeyGone(s, s.dir, e, n);
    } else if e > s.epoch {
      FutureKeyDerivable(s, s.dir, e, n);
    } else {
      assert ChainKeysOk(s, e);
      LaterKeyDerivable(s, s.dir, e, s.chains[e].send.value.n, n);
    }
  }

  // ---- Sent positions stay passed ----------------------------------------------------------

  /** A sending position the session has used, or can no longer reach. */
  ghost predicate Sent(s: State, e: u32, n: u32) {
    Passed(s, s.dir, e, n)
  }

  lemma AdvanceSent(s: State, output: Output, keyEpoch: u32, reported: u32)
    requires Wf(s) && s.epoch < U32_MAX && Advance(s, output, keyEpoch, reported).Ok?
    ensures forall e, n :: Sent(s, e, n) ==> Sent(Advance(s, output, keyEpoch, reported).value, e, n)
  {}

  /** Receiving leaves every sending chain as it is, or drops it with its epoch. */
  lemma ReceiveSent(maxSkip: u32, s: State, out: Option<RecvOut>, n: u32)
    requires Wf(s) && s.epoch < U32_MAX
    ensures forall e, m :: Sent(s, e, m) ==> Sent(ReceiveKey(maxSkip, s, out, n).1, e, m)
  {
    hide Wf, ClearOld, SkipChain;
    if out.Some? && Advance(s, out.value.output, out.value.keyEpoch, out.value.epoch).Ok? {
      var o := out.value;
      AdvanceSent(s, o.output, o.keyEpoch, o.epoch);
      var s1, t := Advance(s, o.output, o.keyEpoch, o.epoch).value, ReceiveKey(maxSkip, s, out, n).1;
      forall e: u32, m: u32 | Sent(s1, e, m)
        ensures Sent(t, e, m)
      {}
    }
  }

  /** Taking in this answer to send with makes the session forget the sending chain of epoch `f`: it is
      the one before the reported epoch, or a new key came and it is older still. */
  predicate Forgets(s: State, o: SendOut, f: u32) {
    && Advance(s, o.output, o.keyEpoch, o.epoch).Ok? && f <= (if o.output.NoKey? then s.epoch else s.epoch + 1)
    && (f + 1 == o.epoch || (f + 1 < o.epoch && !o.output.NoKey?))
  }

  /** What a call to send uses up: its own position, and all of the epochs it forgets. */
  lemma SendAccounts(s: State, out: Option<SendOut>)
    requires Wf(s) && SendInRange(s)
    ensures var (res, t) := SendKey(s, out);
            forall f: u32, m: u32 :: Sent(t, f, m) <==>
              Sent(s, f, m) || (out.Some? && (Forgets(s, out.value, f) || (res.Ok? && f == out.value.epoch && m == res.value.1)))
  {
    hide Wf, ClearOld;
    if out.Some? && Advance(s, out.value.output, out.value.keyEpoch, out.value.epoch).Ok? {
      var o := out.value;
      AdvanceKeeps(s, o.output, o.keyEpoch, o.epoch);
      var s1 := Advance(s, o.output, o.keyEpoch, o.epoch).value;
      AdvanceAccounts(s, o);
      AdvanceSendRange(s, o.output, o.keyEpoch, o.epoch);
      DropAccounts(s1, o.epoch);
      DropKeeps(s1, o.epoch);
      LiveUpTo(DropSend(s1, o.epoch), o.epoch);
      TakeAccounts(DropSend(s1, o.epoch), o.epoch);
    }
  }

  lemma AdvanceAccounts(s: State, o: SendOut)
    requires Wf(s) && SendInRange(s) && Advance(s, o.output, o.keyEpoch, o.epoch).Ok?
    ensures var t := Advance(s, o.output, o.keyEpoch, o.epoch).value;
            forall f: u32, m: u32 :: Sent(t, f, m) <==> Sent(s, f, m) || (Forgets(s, o, f) && f + 1 < o.epoch && !o.output.NoKey?)
  {
    var t := Advance(s, o.output, o.keyEpoch, o.epoch).value;
    forall f: u32, m: u32
      ensures Sent(t, f, m) <==> Sent(s, f, m) || (Forgets(s, o, f) && f + 1 < o.epoch && !o.output.NoKey?)
    {}
  }

  lemma DropAccounts(s: State, sending: u32)
    ensures forall f: u32, m: u32 :: Sent(DropSend(s, sending), f, m) <==> Sent(s, f, m) || (f + 1 == sending && f <= s.epoch)
  {}

  /** Taking the next key of an epoch's sending chain. */
  lemma TakeAccounts(s: State, e: u32)
    requires e in s.chains ==> e <= s.epoch && (s.chains[e].send.Some? ==> s.chains[e].send.value.n < U32_MAX)
    ensures e in s.chains && s.chains[e].send.Some? ==>
              var c := s.chains[e].send.value;
              var t := s.(chains := s.chains[e := s.chains[e].(send := Some(KdfChain(PqNext(c.ck, c.n), Inc(c.n))))]);
              forall f: u32, m: u32 :: Sent(t, f, m) <==> Sent(s, f, m) || (f == e && m == c.n)
  {}

  /** Sending in an epoch forgets all sending keys of the epoch before, used or not; what can still be
      derived afterwards is what could be before, less the key just taken and those of the epochs
      forgotten. */
  lemma SendForgets(s: State, out: SendOut, f: u32, m: u32)
    requires KeyInv(s) && SendInRange(s) && Agreed(out.output, out.keyEpoch)
    ensures var (res, t) := SendKey(s, Some(out));
            && (Derivable(t, MsgKey(s.dir, f, m)) <==>
                  Derivable(s, MsgKey(s.dir, f, m)) && !Forgets(s, out, f) && !(res.Ok? && f == out.epoch && m == res.value.1))
            && (res.Ok? && f + 1 == out.epoch ==> !Derivable(t, MsgKey(s.dir, f, m)))
  {
    hide KeyInv, Derivable, Advance, DropSend, Passed, Wf;
    KeysWf(s);
    SendKeys(s, Some(out));
    SendAccounts(s, Some(out));
    SendableExactly(s, f, m);
    SendableExactly(SendKey(s, Some(out)).1, f, m);
    assert Sent(SendKey(s, Some(out)).1, f, m) <==>
      Sent(s, f, m) || Forgets(s, out, f) || (SendKey(s, Some(out)).0.Ok? && f == out.epoch && m == SendKey(s, Some(out)).0.value.1);
    if SendKey(s, Some(out)).0.Ok? {
      BeforeGone(s, Some(out));
      assert f + 1 == out.epoch ==> Sent(SendKey(s, Some(out)).1, f, m);
    }
  }

  lemma BeforeGone(s: State, out: Option<SendOut>)
    requires Wf(s) && SendInRange(s) && SendKey(s, out).0.Ok?
    ensures out.Some? && forall f: u32, m: u32 :: f + 1 == out.value.epoch ==> Sent(SendKey(s, out).1, f, m)
  {
    hide Wf, Sent, Advance;
    SendAccounts(s, out);
    SentInLive(s, out.value);
  }

  /** The epoch a key is taken in is live. */
  lemma SentInLive(s: State, out: SendOut)
    requires Wf(s) && s.epoch < U32_MAX && SendKey(s, Some(out)).0.Ok?
    ensures Advance(s, out.output, out.keyEpoch, out.epoch).Ok? && out.epoch <= (if out.output.NoKey? then s.epoch else s.epoch + 1)
  {
    hide Wf, Advance;
    AdvanceKeeps(s, out.output, out.keyEpoch, out.epoch);
    var s1 := Advance(s, out.output, out.keyEpoch, out.epoch).value;
    DropKeeps(s1, out.epoch);
    LiveUpTo(DropSend(s1, out.epoch), out.epoch);
  }

  lemma LiveUpTo(s: State, e: u32)
    requires Wf(s)
    ensures e in s.chains ==> e <= s.epoch
  {}

  // ---- Whole runs --------------------------------------------------------------------------

  /** Positions whose keys a run has used, for sending and for receiving. */
  datatype Used = Used(sent: set<(u32, u32)>, got: set<(u32, u32)>)

  ghost predicate Sound(s: State, u: Used) {
    && KeyInv(s)
    && (forall e: u32, n: u32 :: (e, n) in u.sent ==> Sent(s, e, n))
    && (forall e: u32, n: u32 :: (e, n) in u.got ==> !Avail(s, e, n))
    && (forall e: u32, n: u32, f: u32, m: u32 :: (e, n) in u.sent && f + 1 == e ==> Sent(s, f, m))
  }

  ghost predicate Proper(cfg: Config, s: State, v: Event) {
    && InRange(cfg, s, v) && SendInRange(s)
    && (v.Send? && v.sendOut.Some? ==> Agreed(v.sendOut.value.output, v.sendOut.value.keyEpoch))
    && (v.Receive? && v.recvOut.Some? ==> Agreed(v.recvOut.value.output, v.recvOut.value.keyEpoch))
  }

  function Uses(cfg: Config, s: State, u: Used, v: Event): Used {
    match v
    case Send(out, _, _) =>
      if SendKey(s, out).0.Ok? then u.(sent := u.sent + {(out.value.epoch, SendKey(s, out).0.value.1)}) else u
    case Receive(out, h, ct, ad) =>
      if Decrypt(cfg, s, out, h, ct, ad).0.Ok? then u.(got := u.got + {(out.value.epoch, h.n)}) else u
  }

  ghost predicate LeadsUsing(cfg: Config, s: State, u: Used, vs: seq<Event>, t: State, w: Used)
    decreases |vs|
  {
    if vs == [] then s == t && u == w
    else Proper(cfg, s, vs[0]) && LeadsUsing(cfg, After(cfg, s, vs[0]), Uses(cfg, s, u, vs[0]), vs[1..], t, w)
  }

  lemma EventSound(cfg: Config, s: State, u: Used, v: Event)
    requires Sound(s, u) && Proper(cfg, s, v)
    ensures Sound(After(cfg, s, v), Uses(cfg, s, u, v)) && After(cfg, s, v).dir == s.dir
  {
    hide KeyInv, Wf, Avail, Sent, SendKey, ReceiveKey, BuildAD, EncodeSckaHeader;
    KeysWf(s);
    if v.Send? {
      SendKeys(s, v.sendOut);
      SendAccounts(s, v.sendOut);
      if SendKey(s, v.sendOut).0.Ok? {
        BeforeGone(s, v.sendOut);
      }
      SendKeeps(s, v.sendOut);
    } else {
      ReceiveKeys(MaxSkip(cfg), s, v.recvOut, v.header.n);
      ReceiveSent(MaxSkip(cfg), s, v.recvOut, v.header.n);
      ReceiveConsumes(MaxSkip(cfg), s, v.recvOut, v.header.n);
    }
  }

  lemma {:induction false} RunSound(cfg: Config, s: State, u: Used, vs: seq<Event>, t: State, w: Used)
    requires Sound(s, u) && LeadsUsing(cfg, s, u, vs, t, w)
    ensures Sound(t, w) && t.dir == s.dir
    decreases |vs|
  {
    hide Sound, After, Uses, Proper;
    if vs != [] {
      EventSound(cfg, s, u, vs[0]);
      RunSound(cfg, After(cfg, s, vs[0]), Uses(cfg, s, u, vs[0]), vs[1..], t, w);
    }
  }

  /** Key erasure over every run: no message key that was used for sending or for receiving can
      be derived from the session's final memory, and no sending key at all of an epoch before one
      that was sent in. */
  lemma UsedKeysErased(cfg: Config, dir: Direction, vs: seq<Event>, t: State, w: Used, e: u32, n: u32)
    requires LeadsUsing(cfg, Init(SK, dir), Used({}, {}), vs, t, w)
    ensures (e, n) in w.sent ==> !Derivable(t, MsgKey(dir, e, n))
    ensures (e, n) in w.sent ==> forall f: u32, m: u32 :: f + 1 == e ==> !Derivable(t, MsgKey(dir, f, m))
    ensures (e, n) in w.got ==> !Derivable(t, MsgKey(Opposite(dir), e, n))
  {
    hide KeyInv, Derivable, Avail, Passed;
    InitKeys(dir);
    RunSound(cfg, Init(SK, dir), Used({}, {}), vs, t, w);
    if (e, n) in w.sent {
      UsedKeyGone(t, dir, e, n);
      forall f: u32, m: u32 | f + 1 == e
        ensures !Derivable(t, MsgKey(dir, f, m))
      {
        assert Sent(t, f, m);
        UsedKeyGone(t, dir, f, m);
      }
    }
    if (e, n) in w.got {
      ReceivedGone(t, e, n);
    }
  }
}
