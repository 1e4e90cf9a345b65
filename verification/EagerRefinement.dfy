/** The session defers the sending half of a DH step to its next `Encrypt`. The Signal Double
    Ratchet specification, section 3.5, takes both halves on receipt. With the same fresh keys
    the two produce the same messages and accept the same ones. */
module EagerRefinement {
  import opened Bytes
  import opened Terms
  import opened Wire
  import opened SkippedQueue
  import opened RatchetSpec
  import opened History
  import opened BaseRuns
  import opened BaseTheorems

  /** DHRatchet of section 3.5: file the rest of the previous chain, then derive the receiving
      chain, draw a key pair and derive the sending chain. */
  function EagerRatchet(cfg: Config, t: State, h: Header, gen: key32): Result<State> {
    var p := PreviousChain(t);
    if h.pk == ZERO32 then Err(InvalidInput)
    else if h.pk in cfg.lowOrder then Err(LowOrderPoint)
    else if p >= 0 && h.pn > t.chains[p].nr && h.pn - t.chains[p].nr > MaxSkip(cfg) then Err(MaxSkipExceeded)
    else
      var q := if p < 0 then t.skipped
               else StoreRange(MaxSkip(cfg), t.skipped, RatchetLabel(t.dhr), t.chains[p].ck, t.chains[p].nr, h.pn);
      var rk, ckr := RootKey(t.rk, Dh(t.dhs, h.pk)), ChainKey(t.rk, Dh(t.dhs, h.pk));
      Ok(State(RootKey(rk, Dh(gen, h.pk)), Some(ChainKey(rk, Dh(gen, h.pk))), 0, t.ns, gen, h.pk, true, false,
               PushChain(t.chains, Chain(h.pk, ckr, 0)), q))
  }

  function EagerReceiveKey(cfg: Config, t: State, h: Header, gen: key32): Result<(Key, State)> {
    var id := Id(RatchetLabel(h.pk), h.n);
    if Has(t.skipped, id) then Ok((Lookup(t.skipped, id), t.(skipped := Remove(t.skipped, id))))
    else if Known(t, h.pk) then ReceiveOnChain(cfg, t, h)
    else match EagerRatchet(cfg, t, h, gen)
      case Err(e) => Err(e)
      case Ok(t1) => ReceiveOnChain(cfg, t1, h)
  }

  function EagerDecrypt(cfg: Config, t: State, m: Message, ad: bytes, gen: key32): (Result<bytes>, State) {
    match EagerReceiveKey(cfg, t, m.header, gen)
    case Err(e) => (Err(e), t)
    case Ok((mk, t1)) =>
      match Open(mk, m.ct, BuildAD(cfg, EncodeHeader(m.header), ad, false))
      case None => (Err(AuthFailure), t)
      case Some(text) => (Ok(text), t1)
  }

  /** An eager session never owes a sending step, so it needs no key pair to send. */
  function EagerEncrypt(cfg: Config, t: State, text: bytes, ad: bytes): (Result<Message>, State) {
    if t.cks.None? then (Err(SessionNotInitialized), t)
    else
      var h := Header(t.dhs, t.pn, t.ns);
      (Ok(Message(h, Sealed(MessageKey(t.cks.value), BuildAD(cfg, EncodeHeader(h), ad, true), text))),
       t.(cks := Some(NextChain(t.cks.value)), ns := Inc(t.ns)))
  }

  /** The eager state a deferring session stands for, given the key pair it will draw. */
  function Settle(cfg: Config, s: State, k: key32): State {
    if s.pending then RatchetSend(cfg, s, Some(k)).1 else s
  }

  lemma EncryptRefines(cfg: Config, s: State, text: bytes, ad: bytes, k: key32, gen: Option<key32>)
    requires s.pending ==> s.dhr !in cfg.lowOrder && gen == Some(k)
    ensures Encrypt(cfg, s, text, ad, gen) == EagerEncrypt(cfg, Settle(cfg, s, k), text, ad)
    ensures Settle(cfg, Encrypt(cfg, s, text, ad, gen).1, k) == Encrypt(cfg, s, text, ad, gen).1
  {}

  /** Reading a chain touches nothing that the owed sending step reads or writes. */
  lemma ReadSettles(cfg: Config, s: State, h: Header, k: key32)
    requires (s.pending ==> s.dhr !in cfg.lowOrder)
    ensures ReceiveOnChain(cfg, s, h).Ok? == ReceiveOnChain(cfg, Settle(cfg, s, k), h).Ok?
    ensures ReceiveOnChain(cfg, s, h).Err? ==> ReceiveOnChain(cfg, Settle(cfg, s, k), h) == ReceiveOnChain(cfg, s, h)
    ensures ReceiveOnChain(cfg, s, h).Ok? ==>
              ReceiveOnChain(cfg, Settle(cfg, s, k), h) ==
              Ok((ReceiveOnChain(cfg, s, h).value.0, Settle(cfg, ReceiveOnChain(cfg, s, h).value.1, k)))
  {}

  lemma TakeSettles(cfg: Config, s: State, q: seq<Entry>, k: key32)
    requires s.pending ==> s.dhr !in cfg.lowOrder
    ensures Settle(cfg, s.(skipped := q), k) == Settle(cfg, s, k).(skipped := q)
    ensures Settle(cfg, s, k).skipped == s.skipped && Settle(cfg, s, k).chains == s.chains
    ensures forall pk :: Known(Settle(cfg, s, k), pk) == Known(s, pk)
  {}

  /** Both halves at once, or one now and one owed. */
  lemma RatchetSettles(cfg: Config, s: State, h: Header, k: key32)
    requires !s.pending
    ensures RatchetRecv(cfg, s, h).Err? ==> EagerRatchet(cfg, s, h, k) == RatchetRecv(cfg, s, h)
    ensures RatchetRecv(cfg, s, h).Ok? ==>
              EagerRatchet(cfg, s, h, k) == Ok(Settle(cfg, RatchetRecv(cfg, s, h).value, k))
              && RatchetRecv(cfg, s, h).value.dhr !in cfg.lowOrder
  {}

  /** Whether an accepted message starts a new epoch, which is when an eager session draws. */
  predicate Enters(s: State, h: Header) {
    !Has(s.skipped, Id(RatchetLabel(h.pk), h.n)) && !Known(s, h.pk)
  }

  lemma KnownRefines(cfg: Config, s: State, m: Message, ad: bytes, k: key32, next: key32)
    requires !Enters(s, m.header) && (s.pending ==> s.dhr !in cfg.lowOrder)
    ensures EagerDecrypt(cfg, Settle(cfg, s, k), m, ad, next) ==
            (Decrypt(cfg, s, m, ad).0, Settle(cfg, Decrypt(cfg, s, m, ad).1, k))
  {
    hide ReceiveOnChain, Settle, BuildAD, Has, Remove, Known, RatchetRecv, EagerRatchet;
    var h := m.header;
    TakeSettles(cfg, s, Remove(s.skipped, Id(RatchetLabel(h.pk), h.n)), k);
    ReadSettles(cfg, s, h, k);
  }

  lemma EnterRefines(cfg: Config, s: State, m: Message, ad: bytes, next: key32)
    requires Enters(s, m.header) && !s.pending
    ensures var d := Decrypt(cfg, s, m, ad);
            EagerDecrypt(cfg, s, m, ad, next) == (d.0, if d.0.Ok? then Settle(cfg, d.1, next) else s)
  {
    hide ReceiveOnChain, Settle, BuildAD, RatchetRecv, EagerRatchet;
    RatchetSettles(cfg, s, m.header, next);
    if RatchetRecv(cfg, s, m.header).Ok? {
      ReadSettles(cfg, RatchetRecv(cfg, s, m.header).value, m.header, next);
    }
  }

  /** While a sending step is owed, no message can start a new epoch: the eager session, which
      has taken the step, rejects it with the same error. */
  lemma OwedRefines(w: World, s: System, r: Role, m: Message, ad: bytes, k: key32, next: key32)
    requires Proper(w) && Inv(w, s) && Enabled(w, s, Deliver(r, m, ad))
    requires Enters(Party(s, r), m.header) && Party(s, r).pending
    ensures var t := Settle(Cfg(w, r), Party(s, r), k);
            EagerDecrypt(Cfg(w, r), t, m, ad, next) == (Decrypt(Cfg(w, r), Party(s, r), m, ad).0, t)
    ensures Decrypt(Cfg(w, r), Party(s, r), m, ad).0.Err?
  {
    hide PartyInv, KeysOk, LogAt, ReceiveKey, EagerReceiveKey, BuildAD, Returns;
    var cfg, p := Cfg(w, r), Party(s, r);
    var t := Settle(cfg, p, k);
    OwedFails(w, s, r, m, ad);
    OwedSameError(w, s, r, m.header, k, next);
    if EagerReceiveKey(cfg, t, m.header, next).Ok? && m.ct.Sealed? && m.ct.key == EagerReceiveKey(cfg, t, m.header, next).value.0 {
      BeyondSecret(w, s, r, k, m.header.pk, m.header.n);
      var i :| 0 <= i < |s.log| && s.log[i].msg.ct == m.ct;
      LogKey(w, s, i);
      BeyondLog(w, s, r, k, m.header.pk, m.header.n, s.log[i].epoch, s.log[i].msg.header.n);
    }
  }

  lemma DecryptError(cfg: Config, p: State, m: Message, ad: bytes)
    requires Decrypt(cfg, p, m, ad).0.Err?
    ensures ReceiveKey(cfg, p, m.header).Ok? ==> Decrypt(cfg, p, m, ad).0 == Err(AuthFailure)
    ensures ReceiveKey(cfg, p, m.header).Err? ==> Decrypt(cfg, p, m, ad).0 == Err(ReceiveKey(cfg, p, m.header).error)
  {
    hide ReceiveKey, BuildAD;
  }

  lemma OwedFails(w: World, s: System, r: Role, m: Message, ad: bytes)
    requires Proper(w) && Inv(w, s) && Enabled(w, s, Deliver(r, m, ad))
    requires Enters(Party(s, r), m.header) && Party(s, r).pending
    ensures Decrypt(Cfg(w, r), Party(s, r), m, ad).0.Err?
    ensures ReceiveKey(Cfg(w, r), Party(s, r), m.header).Ok? ==> Decrypt(Cfg(w, r), Party(s, r), m, ad).0 == Err(AuthFailure)
    ensures ReceiveKey(Cfg(w, r), Party(s, r), m.header).Err? ==> Decrypt(Cfg(w, r), Party(s, r), m, ad).0 == Err(ReceiveKey(Cfg(w, r), Party(s, r), m.header).error)
  {
    hide PartyInv, KeysOk, LogAt, ReceiveKey, Decrypt, Returns, Enters;
    if Decrypt(Cfg(w, r), Party(s, r), m, ad).0.Ok? {
      var i := DeliverySound(w, s, r, m, ad);
      DeliveredKey(w, s, r, m, ad, i);
      OwedNoKey(Cfg(w, r), s.keys, s.cnt, r, Party(s, r), m.header, s.log[i].epoch);
    }
    DecryptError(Cfg(w, r), Party(s, r), m, ad);
  }

  lemma OwedNoKey(cfg: Config, keys: seq<key32>, cnt: seq<nat>, r: Role, p: State, h: Header, j: nat)
    requires |keys| == |cnt| >= 2 && PartyInv(keys, cnt, r, p) && Enters(p, h) && p.pending && 1 <= j < |keys|
    requires ReceiveKey(cfg, p, h).Ok?
    ensures ReceiveKey(cfg, p, h).value.0 != MK(keys, j, h.n)
  {
    hide StoreInv, ChainsInv, ReceiveKey, RatchetRecv, ReceiveOnChain;
    NewEpochOutcome(cfg, p, h);
    if ReceiveKey(cfg, p, h).value.0 == MK(keys, j, h.n) {
      NextEpochOnly(keys, r, p, h.pk, h.n, j);
    }
  }

  lemma OwedSameError(w: World, s: System, r: Role, h: Header, k: key32, next: key32)
    requires Proper(w) && Inv(w, s) && Enters(Party(s, r), h) && Party(s, r).pending
    ensures var cfg, p := Cfg(w, r), Party(s, r);
            var t := Settle(cfg, p, k);
            && (ReceiveKey(cfg, p, h).Err? ==> EagerReceiveKey(cfg, t, h, next) == ReceiveKey(cfg, p, h))
            && (ReceiveKey(cfg, p, h).Ok? ==>
                 && EagerReceiveKey(cfg, t, h, next).Ok?
                 && EagerReceiveKey(cfg, t, h, next).value.0 ==
                    MessageKey(Adv(ChainKey(RootKey(p.rk, Dh(k, p.dhr)), Dh(k, h.pk)), h.n)))
  {
    hide StoreInv, ChainsInv, LogAt;
    assert Party(s, r).dhr !in Cfg(w, r).lowOrder;
    SameOutcome(Cfg(w, r), Party(s, r), h, k, next);
  }

  lemma SameOutcome(cfg: Config, p: State, h: Header, k: key32, next: key32)
    requires Enters(p, h) && p.pending && p.dhr !in cfg.lowOrder
    ensures var t := Settle(cfg, p, k);
            && (ReceiveKey(cfg, p, h).Err? ==> EagerReceiveKey(cfg, t, h, next) == ReceiveKey(cfg, p, h))
            && (ReceiveKey(cfg, p, h).Ok? ==>
                 && EagerReceiveKey(cfg, t, h, next).Ok?
                 && EagerReceiveKey(cfg, t, h, next).value.0 ==
                    MessageKey(Adv(ChainKey(RootKey(p.rk, Dh(k, p.dhr)), Dh(k, h.pk)), h.n)))
  {
    hide Adv, StoreRange, ReceiveOnChain, RatchetRecv, EagerRatchet;
    var t := Settle(cfg, p, k);
    SettledRatchet(cfg, p, h, k);
    RatchetSettles(cfg, t, h, next);
    NewEpochOutcome(cfg, p, h);
    NewEpochOutcome(cfg, t, h);
    if RatchetRecv(cfg, t, h).Ok? {
      ReadSettles(cfg, RatchetRecv(cfg, t, h).value, h, next);
      SameReadError(cfg, RatchetRecv(cfg, p, h).value, RatchetRecv(cfg, t, h).value, h);
    }
  }

  /** The receiving half fails or succeeds alike before and after the owed step. */
  lemma SettledRatchet(cfg: Config, p: State, h: Header, k: key32)
    requires p.pending && p.dhr !in cfg.lowOrder
    ensures var t := Settle(cfg, p, k);
            var a, b := RatchetRecv(cfg, p, h), RatchetRecv(cfg, t, h);
            && !t.pending && t.skipped == p.skipped && t.dhr == p.dhr && t.dhs == k && t.rk == RootKey(p.rk, Dh(k, p.dhr))
            && t.chains == p.chains && t.dhRSet == p.dhRSet
            && a.Ok? == b.Ok? && (a.Err? ==> a == b) && (a.Ok? ==> SameShape(a.value.chains, b.value.chains))
  {
    hide StoreRange;
  }

  ghost predicate SameShape(a: seq<Chain>, b: seq<Chain>) {
    |a| == |b| && forall i :: 0 <= i < |a| ==> a[i].pk == b[i].pk && a[i].nr == b[i].nr
  }

  lemma SameReadError(cfg: Config, p: State, t: State, h: Header)
    requires SameShape(p.chains, t.chains)
    ensures ReceiveOnChain(cfg, p, h).Ok? == ReceiveOnChain(cfg, t, h).Ok?
    ensures ReceiveOnChain(cfg, p, h).Err? ==> ReceiveOnChain(cfg, p, h) == ReceiveOnChain(cfg, t, h)
  {}

  lemma BeyondSecret(w: World, s: System, r: Role, k: key32, remote: key32, n: nat)
    requires Inv(w, s)
    ensures SecretBased(MessageKey(Adv(ChainKey(RootKey(Party(s, r).rk, Dh(k, Party(s, r).dhr)), Dh(k, remote)), n)))
  {
    hide StoreInv, ChainsInv, LogAt, KeysOk;
    RSecret(s.keys, Level(s.keys, r, Party(s, r)));
    AdvSecretBased(ChainKey(RootKey(Party(s, r).rk, Dh(k, Party(s, r).dhr)), Dh(k, remote)), n);
  }

  /** Nothing was ever sent on a chain derived beyond the last root key. */
  lemma BeyondLog(w: World, s: System, r: Role, k: key32, remote: key32, n: nat, j: nat, m: nat)
    requires Inv(w, s) && Party(s, r).pending && 1 <= j < |s.keys|
    ensures MessageKey(Adv(ChainKey(RootKey(Party(s, r).rk, Dh(k, Party(s, r).dhr)), Dh(k, remote)), n)) != MK(s.keys, j, m)
  {
    hide Adv, MK, Dh, R, C, Inv;
    OwedRoot(w, s, r);
    RootBeyond(s.keys, k);
    DhCommutes(k, Party(s, r).dhr);
    DerivedBeyond(s.keys + [k], k, remote, n, j, m);
    SameMK(s.keys, k, j, m);
  }

  lemma OwedRoot(w: World, s: System, r: Role)
    requires Inv(w, s) && Party(s, r).pending
    ensures |s.keys| >= 2 && Party(s, r).rk == R(s.keys, |s.keys| - 1) && Party(s, r).dhr == s.keys[|s.keys| - 1]
  {
    hide StoreInv, ChainsInv, LogAt, KeysOk, R;
  }

  lemma RootBeyond(keys: seq<key32>, k: key32)
    requires |keys| >= 1
    ensures R(keys + [k], |keys|) == RootKey(R(keys, |keys| - 1), Dh(keys[|keys| - 1], k))
  {
    RExtends(keys, k, |keys| - 1);
  }

  lemma SameMK(keys: seq<key32>, k: key32, j: nat, m: nat)
    requires 1 <= j < |keys|
    ensures MK(keys + [k], j, m) == MK(keys, j, m)
  {
    CExtends(keys, k);
  }

  // ---- Whole runs --------------------------------------------------------------------------

  /** An action, and the key pair an eager session draws if the action starts an epoch. */
  datatype Choice = Choice(act: Action, draw: key32)

  datatype Output = Emitted(msg: Result<Message>) | Accepted(text: Result<bytes>)

  /** The key pair party `r` has in reserve after an action. */
  function Reserve(w: World, s: System, r: Role, k: key32, c: Choice): key32 {
    if c.act.Deliver? && c.act.receiver == r && Decrypt(Cfg(w, r), Party(s, r), c.act.msg, c.act.ad).0.Ok?
       && Enters(Party(s, r), c.act.msg.header) then c.draw
    else k
  }

  /** A run in which party `r`, when it takes an owed step, draws the pair it has in reserve. */
  ghost predicate Run(w: World, s: System, r: Role, k: key32, cs: seq<Choice>)
    decreases |cs|
  {
    cs != [] ==>
      var a := cs[0].act;
      && |s.keys| == |s.cnt| >= 2
      && Enabled(w, s, a)
      && (a.Send? && a.sender == r && Party(s, r).pending ==> a.gen == Some(k))
      && Run(w, Step(w, s, a), r, Reserve(w, s, r, k, cs[0]), cs[1..])
  }

  /** What the deferring party `r` puts out during the run. */
  ghost function Deferred(w: World, s: System, r: Role, k: key32, cs: seq<Choice>): seq<Output>
    requires Run(w, s, r, k, cs)
    decreases |cs|
  {
    if cs == [] then []
    else
      var a := cs[0].act;
      var rest := Deferred(w, Step(w, s, a), r, Reserve(w, s, r, k, cs[0]), cs[1..]);
      if a.Send? && a.sender == r then [Emitted(Encrypt(Cfg(w, r), Party(s, r), a.text, a.ad, a.gen).0)] + rest
      else if a.Deliver? && a.receiver == r then [Accepted(Decrypt(Cfg(w, r), Party(s, r), a.msg, a.ad).0)] + rest
      else rest
  }

  /** What an eager session puts out when it is asked the same things. */
  ghost function Eager(cfg: Config, t: State, r: Role, cs: seq<Choice>): seq<Output>
    decreases |cs|
  {
    if cs == [] then []
    else
      var a := cs[0].act;
      assert cs[0] in cs;
      if a.Send? && a.sender == r then
        var (res, t1) := EagerEncrypt(cfg, t, a.text, a.ad);
        [Emitted(res)] + Eager(cfg, t1, r, cs[1..])
      else if a.Deliver? && a.receiver == r then
        var (res, t1) := EagerDecrypt(cfg, t, a.msg, a.ad, cs[0].draw);
        [Accepted(res)] + Eager(cfg, t1, r, cs[1..])
      else Eager(cfg, t, r, cs[1..])
  }

  lemma SendStepRefines(w: World, s: System, r: Role, k: key32, a: Action)
    requires Proper(w) && Inv(w, s) && Enabled(w, s, a) && a.Send?
    requires a.sender == r && Party(s, r).pending ==> a.gen == Some(k)
    ensures var cfg, p, q := Cfg(w, r), Party(s, r), Party(Step(w, s, a), r);
            && (a.sender == r ==> EagerEncrypt(cfg, Settle(cfg, p, k), a.text, a.ad) ==
                                  (Encrypt(cfg, p, a.text, a.ad, a.gen).0, Settle(cfg, q, k)))
            && (a.sender != r ==> q == p)
  {
    hide StoreInv, ChainsInv, LogAt, BuildAD, Encrypt, Settle, EagerEncrypt;
    if a.sender == r {
      EncryptRefines(Cfg(w, r), Party(s, r), a.text, a.ad, k, a.gen);
    }
  }

  lemma DeliverStepRefines(w: World, s: System, r: Role, k: key32, a: Action, draw: key32)
    requires Proper(w) && Inv(w, s) && Enabled(w, s, a) && a.Deliver? && a.receiver == r
    ensures var cfg, p, q := Cfg(w, r), Party(s, r), Party(Step(w, s, a), r);
            EagerDecrypt(cfg, Settle(cfg, p, k), a.msg, a.ad, draw) ==
            (Decrypt(cfg, p, a.msg, a.ad).0, Settle(cfg, q, Reserve(w, s, r, k, Choice(a, draw))))
  {
    hide StoreInv, ChainsInv, LogAt, BuildAD, EagerDecrypt;
    var cfg, p := Cfg(w, r), Party(s, r);
    RemoteIsGood(w, s, r);
    if !Enters(p, a.msg.header) {
      KnownRefines(cfg, p, a.msg, a.ad, k, draw);
    } else if p.pending {
      OwedRefines(w, s, r, a.msg, a.ad, k, draw);
    } else {
      EnterRefines(cfg, p, a.msg, a.ad, draw);
    }
  }

  lemma RemoteIsGood(w: World, s: System, r: Role)
    requires Proper(w) && Inv(w, s)
    ensures Party(s, r).pending ==> Party(s, r).dhr !in Cfg(w, r).lowOrder
  {
    hide StoreInv, ChainsInv, LogAt;
  }

  /** The deferring session refines the eager one over every run. */
  lemma {:induction false} DeferredRefinesEager(w: World, s: System, r: Role, k: key32, cs: seq<Choice>)
    requires Proper(w) && Inv(w, s) && Run(w, s, r, k, cs)
    ensures Deferred(w, s, r, k, cs) == Eager(Cfg(w, r), Settle(Cfg(w, r), Party(s, r), k), r, cs)
    decreases |cs|
  {
    hide PartyInv, KeysOk, LogAt, Settle, EagerEncrypt, EagerDecrypt, Reserve, Decrypt, Encrypt;
    if cs != [] {
      var a := cs[0].act;
      StepInv(w, s, a);
      DeferredRefinesEager(w, Step(w, s, a), r, Reserve(w, s, r, k, cs[0]), cs[1..]);
      StepRefines(w, s, r, k, cs[0]);
    }
  }

  lemma StepRefines(w: World, s: System, r: Role, k: key32, c: Choice)
    requires Proper(w) && Inv(w, s) && Enabled(w, s, c.act)
    requires c.act.Send? && c.act.sender == r && Party(s, r).pending ==> c.act.gen == Some(k)
    ensures var cfg, p, q, k1, a := Cfg(w, r), Party(s, r), Party(Step(w, s, c.act), r), Reserve(w, s, r, k, c), c.act;
            && (a.Send? && a.sender == r ==> EagerEncrypt(cfg, Settle(cfg, p, k), a.text, a.ad) ==
                                             (Encrypt(cfg, p, a.text, a.ad, a.gen).0, Settle(cfg, q, k1)))
            && (a.Deliver? && a.receiver == r ==> EagerDecrypt(cfg, Settle(cfg, p, k), a.msg, a.ad, c.draw) ==
                                                  (Decrypt(cfg, p, a.msg, a.ad).0, Settle(cfg, q, k1)))
            && (!(a.Send? && a.sender == r) && !(a.Deliver? && a.receiver == r) ==> q == p && k1 == k)
  {
    hide PartyInv, KeysOk, LogAt, Settle, EagerEncrypt, EagerDecrypt, Decrypt, Encrypt;
    if c.act.Send? {
      SendStepRefines(w, s, r, k, c.act);
    } else if c.act.receiver == r {
      DeliverStepRefines(w, s, r, k, c.act, c.draw);
    }
  }
}
