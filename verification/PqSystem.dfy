/** Two post-quantum sessions and the network between them. */
module PqSystem {
  import opened Bytes
  import opened Terms
  import opened Wire
  import opened PqSpec
  import opened PqRuns
  import opened PqKeys

  datatype Sent = Sent(author: Direction, epoch: u32, header: SckaHeader, ad: bytes, text: bytes, ct: Ciphertext)

  /** `a` sends in direction A2B, `b` in direction B2A. */
  datatype System = System(a: State, b: State, log: seq<Sent>)

  datatype World = World(a: Config, b: Config)

  function Cfg(w: World, d: Direction): Config {
    if d == A2B then w.a else w.b
  }

  function Party(s: System, d: Direction): State {
    if d == A2B then s.a else s.b
  }

  function SetParty(s: System, d: Direction, p: State): System {
    if d == A2B then s.(a := p) else s.(b := p)
  }

  const START := System(Init(SK, A2B), Init(SK, B2A), [])

  datatype Action =
    | Send(sender: Direction, sendOut: Option<SendOut>, text: bytes, sendAd: bytes)
    | Deliver(receiver: Direction, recvOut: Option<RecvOut>, header: SckaHeader, ct: Ciphertext, ad: bytes)

  ghost predicate Obtainable(s: System, ct: Ciphertext) {
    ct.Sealed? && SecretBased(ct.key) ==> exists i :: 0 <= i < |s.log| && s.log[i].ct == ct
  }

  /** Sending counters do not start over, the provider's outputs are the agreed keys of their
      epochs, and ciphertexts under secret keys come from the log. */
  ghost predicate Enabled(s: System, v: Action) {
    match v
    case Send(d, out, _, _) =>
      && SendInRange(Party(s, d))
      && (out.Some? ==> Agreed(out.value.output, out.value.keyEpoch))
    case Deliver(d, out, _, ct, _) =>
      && Party(s, d).epoch < U32_MAX
      && (out.Some? ==> Agreed(out.value.output, out.value.keyEpoch))
      && Obtainable(s, ct)
  }

  function Step(w: World, s: System, v: Action): System {
    match v
    case Send(d, out, text, ad) =>
      var (res, p) := Encrypt(Cfg(w, d), Party(s, d), out, text, ad);
      if res.Err? || out.None? then SetParty(s, d, p)
      else SetParty(s, d, p).(log := s.log + [Sent(d, out.value.epoch, res.value.0, ad, text, res.value.1)])
    case Deliver(d, out, h, ct, ad) =>
      SetParty(s, d, Decrypt(Cfg(w, d), Party(s, d), out, h, ct, ad).1)
  }

  ghost predicate LogAt(w: World, e: Sent) {
    && e.header.n < U32_MAX
    && e.ct == Sealed(MsgKey(e.author, e.epoch, e.header.n), BuildAD(Cfg(w, e.author), EncodeSckaHeader(e.header), e.ad, true), e.text)
  }

  ghost predicate Inv(w: World, s: System) {
    && KeyInv(s.a) && s.a.dir == A2B
    && KeyInv(s.b) && s.b.dir == B2A
    && forall i :: 0 <= i < |s.log| ==> LogAt(w, s.log[i])
  }

  lemma StartInv(w: World)
    ensures Inv(w, START)
  {
    InitKeys(A2B);
    InitKeys(B2A);
  }

  lemma {:induction false} KeyAtSecret(d: Direction, e: nat, n: nat)
    requires n <= U32_MAX
    ensures SecretBased(KeyAt(d, e, n))
  {
    if n > 0 {
      KeyAtSecret(d, e, n - 1);
    }
  }

  /** The key of a log entry names its author, epoch and position. */
  lemma EntryNamed(w: World, s: System, i: nat, d: Direction, e: u32, n: u32)
    requires Inv(w, s) && i < |s.log| && s.log[i].ct.Sealed? && s.log[i].ct.key == MsgKey(d, e, n)
    ensures s.log[i].author == d && s.log[i].epoch == e && s.log[i].header.n == n && n < U32_MAX
  {
    hide KeyInv, BuildAD, EncodeSckaHeader;
    assert LogAt(w, s.log[i]);
    KeyAtInjective(d, e, n, s.log[i].author, s.log[i].epoch, s.log[i].header.n);
  }

  /** An accepted ciphertext is one of the peer, and the provider has reported its epoch. */
  lemma Identify(w: World, s: System, d: Direction, out: Option<RecvOut>, h: SckaHeader, ct: Ciphertext, ad: bytes) returns (i: nat)
    requires Inv(w, s) && Enabled(s, Deliver(d, out, h, ct, ad))
    requires Decrypt(Cfg(w, d), Party(s, d), out, h, ct, ad).0.Ok?
    ensures out.Some? && ct.Sealed? && ct.key == MsgKey(Opposite(d), out.value.epoch, h.n)
    ensures i < |s.log| && s.log[i].ct == ct && s.log[i].author == Opposite(d)
    ensures s.log[i].epoch == out.value.epoch && s.log[i].header.n == h.n && h.n < U32_MAX
  {
    hide KeyInv, ReceiveKey, BuildAD, EncodeSckaHeader;
    ReceiveKeys(MaxSkip(Cfg(w, d)), Party(s, d), out, h.n);
    ReceiveNeedsAnswer(MaxSkip(Cfg(w, d)), Party(s, d), out, h.n);
    KeyAtSecret(Opposite(d), out.value.epoch, h.n);
    i :| 0 <= i < |s.log| && s.log[i].ct == ct;
    EntryNamed(w, s, i, Opposite(d), out.value.epoch, h.n);
  }

  /** No delivery makes a receiving counter start over: the peer has not sent that far. */
  lemma DeliveryInRange(w: World, s: System, d: Direction, out: Option<RecvOut>, h: SckaHeader, ct: Ciphertext, ad: bytes)
    requires Inv(w, s) && Enabled(s, Deliver(d, out, h, ct, ad))
    requires ReceiveKey(MaxSkip(Cfg(w, d)), Party(s, d), out, h.n).0.Err? || Decrypt(Cfg(w, d), Party(s, d), out, h, ct, ad).0.Ok?
    ensures !Wraps(MaxSkip(Cfg(w, d)), Party(s, d), out, h.n)
  {
    hide KeyInv, ReceiveKey, BuildAD, EncodeSckaHeader;
    if ReceiveKey(MaxSkip(Cfg(w, d)), Party(s, d), out, h.n).0.Ok? {
      var i := Identify(w, s, d, out, h, ct, ad);
    } else if Wraps(MaxSkip(Cfg(w, d)), Party(s, d), out, h.n) {
      WrapsReceives(MaxSkip(Cfg(w, d)), Party(s, d), out, h.n);
    }
  }

  lemma StepInv(w: World, s: System, v: Action)
    requires Inv(w, s) && Enabled(s, v)
    ensures Inv(w, Step(w, s, v))
  {
    hide KeyInv, SendKey, ReceiveKey, BuildAD, EncodeSckaHeader, MsgKey, Wraps;
    match v
    case Send(d, out, text, ad) => SendKeys(Party(s, d), out);
    case Deliver(d, out, h, ct, ad) =>
      ReceiveKeys(MaxSkip(Cfg(w, d)), Party(s, d), out, h.n);
      if ReceiveKey(MaxSkip(Cfg(w, d)), Party(s, d), out, h.n).0.Err? || Decrypt(Cfg(w, d), Party(s, d), out, h, ct, ad).0.Ok? {
        DeliveryInRange(w, s, d, out, h, ct, ad);
      }
  }

  // ---- Runs, and how often a message is accepted -------------------------------------------

  /** Position in the log of the ciphertext `ct`, or the length of the log. */
  function Index(log: seq<Sent>, ct: Ciphertext): (i: nat)
    ensures i <= |log|
    ensures i < |log| ==> log[i].ct == ct
    ensures forall k :: 0 <= k < i ==> log[k].ct != ct
  {
    if log == [] then 0 else if log[0].ct == ct then 0 else 1 + Index(log[1..], ct)
  }

  /** The log entry whose ciphertext an action gets accepted, if any. */
  function Accepted(w: World, s: System, v: Action): multiset<nat> {
    if v.Deliver? && Decrypt(Cfg(w, v.receiver), Party(s, v.receiver), v.recvOut, v.header, v.ct, v.ad).0.Ok?
    then multiset{Index(s.log, v.ct)}
    else multiset{}
  }

  /** The actions `vs`, each enabled when it is taken, lead from `s` to `t`; `got` counts how often
      each sent message was accepted. */
  ghost predicate Leads(w: World, s: System, vs: seq<Action>, t: System, got: multiset<nat>)
    decreases |vs|
  {
    if vs == [] then s == t && got == multiset{}
    else
      && Enabled(s, vs[0])
      && exists rest :: got == Accepted(w, s, vs[0]) + rest && Leads(w, Step(w, s, vs[0]), vs[1..], t, rest)
  }

  /** The peer of its author can still come to accept log entry `i`. */
  ghost predicate Open(s: System, i: nat) {
    i < |s.log| ==> Avail(Party(s, Opposite(s.log[i].author)), s.log[i].epoch, s.log[i].header.n)
  }

  lemma PartyWf(w: World, s: System, d: Direction)
    requires Inv(w, s)
    ensures Wf(Party(s, d))
  {
    hide LogAt;
  }

  lemma DeliverConsumes(w: World, s: System, d: Direction, out: Option<RecvOut>, h: SckaHeader, ct: Ciphertext, ad: bytes)
    requires Inv(w, s) && Enabled(s, Deliver(d, out, h, ct, ad))
    ensures var v := Deliver(d, out, h, ct, ad);
            && (forall i :: Open(Step(w, s, v), i) ==> Open(s, i))
            && (forall i :: i in Accepted(w, s, v) ==> i < |s.log| && Open(s, i) && !Open(Step(w, s, v), i))
  {
    hide Inv, ReceiveKey, BuildAD, EncodeSckaHeader, Wraps, Avail, MsgKey, Obtainable;
    var cfg, p := Cfg(w, d), Party(s, d);
    if ReceiveKey(MaxSkip(cfg), p, out, h.n).0.Err? || Decrypt(cfg, p, out, h, ct, ad).0.Ok? {
      DeliveryInRange(w, s, d, out, h, ct, ad);
      PartyWf(w, s, d);
      ReceiveConsumes(MaxSkip(cfg), p, out, h.n);
    }
    if Decrypt(cfg, p, out, h, ct, ad).0.Ok? {
      var i := Identify(w, s, d, out, h, ct, ad);
      EntryNamed(w, s, Index(s.log, ct), Opposite(d), out.value.epoch, h.n);
    }
  }

  lemma SendKeepsOpen(w: World, s: System, d: Direction, out: Option<SendOut>, text: bytes, ad: bytes)
    requires Inv(w, s) && Enabled(s, Action.Send(d, out, text, ad))
    ensures forall i :: Open(Step(w, s, Action.Send(d, out, text, ad)), i) ==> Open(s, i)
  {
    hide Inv, SendKey, BuildAD, EncodeSckaHeader, Avail;
    PartyWf(w, s, d);
    SendKeeps(Party(s, d), out);
    var t := Step(w, s, Action.Send(d, out, text, ad));
    assert forall i :: 0 <= i < |s.log| ==> t.log[i] == s.log[i];
  }

  lemma ActionConsumes(w: World, s: System, v: Action)
    requires Inv(w, s) && Enabled(s, v)
    ensures forall i :: Open(Step(w, s, v), i) ==> Open(s, i)
    ensures forall i :: i in Accepted(w, s, v) ==> Open(s, i) && !Open(Step(w, s, v), i)
    ensures forall i :: Accepted(w, s, v)[i] <= 1
  {
    hide Inv, Open, Step, Enabled, Decrypt;
    match v
    case Send(d, out, text, ad) => SendKeepsOpen(w, s, d, out, text, ad);
    case Deliver(d, out, h, ct, ad) => DeliverConsumes(w, s, d, out, h, ct, ad);
  }

  /** At most once over every run: a sent message is accepted no more than once, whichever epoch
      the provider reports with it, and nothing used up becomes available again. */
  lemma {:induction false} AtMostOnce(w: World, s: System, vs: seq<Action>, t: System, got: multiset<nat>)
    requires Inv(w, s) && Leads(w, s, vs, t, got)
    ensures Inv(w, t)
    ensures forall i :: got[i] <= 1
    ensures forall i :: i in got ==> Open(s, i) && !Open(t, i)
    ensures forall i :: Open(t, i) ==> Open(s, i)
    decreases |vs|
  {
    hide Inv, Open, Step, Accepted, Enabled;
    if vs != [] {
      var rest :| got == Accepted(w, s, vs[0]) + rest && Leads(w, Step(w, s, vs[0]), vs[1..], t, rest);
      StepInv(w, s, vs[0]);
      ActionConsumes(w, s, vs[0]);
      AtMostOnce(w, Step(w, s, vs[0]), vs[1..], t, rest);
      forall i
        ensures got[i] <= 1
      {
        assert i in rest ==> i !in Accepted(w, s, vs[0]);
      }
    }
  }

  /** Chain agreement over every run: for an epoch live on both sides, each sending chain and the
      peer's receiving chain are points of one key sequence, and equal epochs mean equal roots. */
  lemma AgreementOverRuns(w: World, vs: seq<Action>, t: System, got: multiset<nat>, e: u32)
    requires Leads(w, START, vs, t, got)
    ensures t.a.epoch == t.b.epoch <==> t.a.rk == t.b.rk
    ensures e in t.a.chains && e in t.b.chains && t.a.chains[e].send.Some? && t.b.chains[e].recv.Some? ==>
              t.a.chains[e].send.value.ck == KeyAt(A2B, e, t.a.chains[e].send.value.n)
              && t.b.chains[e].recv.value.ck == KeyAt(A2B, e, t.b.chains[e].recv.value.n)
    ensures e in t.a.chains && e in t.b.chains && t.b.chains[e].send.Some? && t.a.chains[e].recv.Some? ==>
              t.b.chains[e].send.value.ck == KeyAt(B2A, e, t.b.chains[e].send.value.n)
              && t.a.chains[e].recv.value.ck == KeyAt(B2A, e, t.a.chains[e].recv.value.n)
  {
    hide KeyInv, Leads, LogAt;
    StartInv(w);
    AtMostOnce(w, START, vs, t, got);
    ChainsAgree(t.a, t.b, e);
  }

  /** Delivery soundness: what a session accepts was sealed by its peer at the same epoch and
      position and over the same associated data; and where the caller's data has the length the
      sender's had, header, data and text are the sender's. */
  lemma DeliverySound(w: World, s: System, d: Direction, out: Option<RecvOut>, h: SckaHeader, ct: Ciphertext, ad: bytes) returns (i: nat)
    requires Paired(w.a, w.b) && Inv(w, s) && Enabled(s, Deliver(d, out, h, ct, ad))
    requires Decrypt(Cfg(w, d), Party(s, d), out, h, ct, ad).0.Ok?
    ensures i < |s.log| && s.log[i].ct == ct && s.log[i].author == Opposite(d)
    ensures out.Some? && s.log[i].epoch == out.value.epoch && s.log[i].header.n == h.n
    ensures Decrypt(Cfg(w, d), Party(s, d), out, h, ct, ad).0 == Ok(s.log[i].text)
    ensures h == s.log[i].header && ad == s.log[i].ad <==> |ad| == |s.log[i].ad|
  {
    hide KeyInv, ReceiveKey, BuildAD, EncodeSckaHeader;
    i := Identify(w, s, d, out, h, ct, ad);
    var e := s.log[i];
    assert LogAt(w, e);
    SckaADExact(Cfg(w, d), Cfg(w, e.author), h, e.header, ad, e.ad, false, true);
  }

  lemma ReceiveNeedsAnswer(maxSkip: u32, s: State, out: Option<RecvOut>, n: u32)
    ensures ReceiveKey(maxSkip, s, out, n).0.Ok? ==> out.Some?
  {}

  /** A position of an epoch can be read: its key is filed, or its chain is live and reaches it. */
  ghost predicate Reachable(maxSkip: u32, s: State, e: u32, n: u32) {
    || IsSkipped(s, e, n)
    || (e in s.chains && s.chains[e].recv.Some? && s.chains[e].recv.value.n <= n <= s.chains[e].recv.value.n + maxSkip)
  }

  /** A key is returned exactly for the positions within reach once the provider's output has
      been taken in. */
  lemma ReceiveExactly(maxSkip: u32, s: State, out: Option<RecvOut>, n: u32)
    requires Wf(s)
    ensures ReceiveKey(maxSkip, s, out, n).0.Ok? <==>
              && out.Some?
              && Advance(s, out.value.output, out.value.keyEpoch, out.value.epoch).Ok?
              && Reachable(maxSkip, Advance(s, out.value.output, out.value.keyEpoch, out.value.epoch).value, out.value.epoch, n)
  {
    hide ClearOld;
    if out.Some? && Advance(s, out.value.output, out.value.keyEpoch, out.value.epoch).Ok? {
      var o := out.value;
      var s1 := Advance(s, o.output, o.keyEpoch, o.epoch).value;
      if o.epoch in s1.chains && s1.chains[o.epoch].recv.Some? && s1.chains[o.epoch].recv.value.n <= n {
        SkipChainFacts(s1.chains[o.epoch].recv.value, SkippedOf(s1, o.epoch), n);
      }
    }
  }

  /** The exact delivery window: an honest message of the peer, for whose epoch the provider
      answers, decrypts to its text if and only if its position is within reach. */
  lemma DeliveryWindow(w: World, s: System, i: nat, out: RecvOut)
    requires Paired(w.a, w.b) && Inv(w, s) && i < |s.log|
    requires var e := s.log[i];
             Enabled(s, Deliver(Opposite(e.author), Some(out), e.header, e.ct, e.ad)) && out.epoch == e.epoch
    ensures var e := s.log[i];
            var d := Opposite(e.author);
            var res := Decrypt(Cfg(w, d), Party(s, d), Some(out), e.header, e.ct, e.ad).0;
            && (res.Ok? <==> && Advance(Party(s, d), out.output, out.keyEpoch, out.epoch).Ok?
                             && Reachable(MaxSkip(Cfg(w, d)), Advance(Party(s, d), out.output, out.keyEpoch, out.epoch).value, e.epoch, e.header.n))
            && (res.Ok? ==> res.value == e.text)
  {
    hide KeyInv, ReceiveKey, EncodeSckaHeader, Advance;
    var e := s.log[i];
    var d := Opposite(e.author);
    assert LogAt(w, e);
    KeysWf(Party(s, d));
    ReceiveExactly(MaxSkip(Cfg(w, d)), Party(s, d), Some(out), e.header.n);
    ReceiveKeys(MaxSkip(Cfg(w, d)), Party(s, d), Some(out), e.header.n);
    PairedPrefix(Cfg(w, e.author), Cfg(w, d));
  }
}
