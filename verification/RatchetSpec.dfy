/** The base Double Ratchet session as a function on values: what one call of the session
    computes and what state it leaves. The class `Session` is proved against it. */
module RatchetSpec {
  import opened Bytes
  import opened Terms
  import opened Wire
  import opened SkippedQueue

  const MAX_CHAINS := 5

  datatype Chain = Chain(pk: key32, ck: Key, nr: u32)

  datatype State = State(
    rk: Key,
    cks: Option<Key>,
    ns: u32,
    pn: u32,
    dhs: key32,
    dhr: key32,
    dhRSet: bool,
    pending: bool,          // a received DH step whose sending half is still owed
    chains: seq<Chain>,     // retained receive chains, oldest first
    skipped: seq<Entry>)

  /** Position of the oldest retained chain for `pk`, or -1. */
  function FindChain(chains: seq<Chain>, pk: key32): (i: int)
    ensures -1 <= i < |chains|
    ensures i >= 0 ==> chains[i].pk == pk
    ensures forall k :: 0 <= k < (if i >= 0 then i else |chains|) ==> chains[k].pk != pk
  {
    if chains == [] then -1
    else
      var i := FindChain(chains[..|chains| - 1], pk);
      if i >= 0 then i else if chains[|chains| - 1].pk == pk then |chains| - 1 else -1
  }

  /** Advancing a chain does not move it. */
  lemma FindUpdated(chains: seq<Chain>, c: Chain)
    requires FindChain(chains, c.pk) >= 0
    ensures FindChain(chains[FindChain(chains, c.pk) := c], c.pk) == FindChain(chains, c.pk)
  {
    var i := FindChain(chains, c.pk);
    var updated := chains[i := c];
    assert updated[i].pk == c.pk;
    forall k | 0 <= k < i
      ensures updated[k].pk != c.pk
    {
      assert updated[k] == chains[k];
    }
  }

  function PushChain(chains: seq<Chain>, c: Chain): seq<Chain> {
    (if |chains| >= MAX_CHAINS then chains[1..] else chains) + [c]
  }

  /** A chain for a new ratchet key is found where it was pushed. */
  lemma Pushed(chains: seq<Chain>, c: Chain)
    requires FindChain(chains, c.pk) < 0
    ensures var all := PushChain(chains, c);
            FindChain(all, c.pk) == |all| - 1 >= 0 && all[|all| - 1] == c
  {
    var all := PushChain(chains, c);
    assert all[|all| - 1] == c;
    forall k | 0 <= k < |all| - 1
      ensures all[k].pk != c.pk
    {
      assert all[k] in chains;
    }
  }

  function InitInitiator(sk: Key, bobPK: key32, priv: key32): State {
    var dh := Dh(priv, bobPK);
    State(RootKey(sk, dh), Some(ChainKey(sk, dh)), 0, 0, priv, bobPK, true, false, [], [])
  }

  function InitResponder(sk: Key, priv: key32): State {
    State(sk, None, 0, 0, priv, ZERO32, false, false, [], [])
  }

  /** The sending half of a DH step; `gen` is the fresh key pair, if entropy was available. */
  function RatchetSend(cfg: Config, s: State, gen: Option<key32>): (Option<Error>, State) {
    var s1 := s.(pn := s.ns);
    if gen.None? then (Some(NoEntropy), s1)
    else if s.dhr in cfg.lowOrder then (Some(LowOrderPoint), s1)
    else
      var dh := Dh(gen.value, s.dhr);
      (None, s1.(rk := RootKey(s.rk, dh), cks := Some(ChainKey(s.rk, dh)), dhs := gen.value, ns := 0, pending := false))
  }

  /** Header and message key of the next message to send. */
  function SendKey(cfg: Config, s: State, gen: Option<key32>): (Result<(Header, Key)>, State) {
    var (e, s1) := if s.pending then RatchetSend(cfg, s, gen) else (None, s);
    if e.Some? then (Err(e.value), s1)
    else if s1.cks.None? then (Err(SessionNotInitialized), s1)
    else
      var ck := s1.cks.value;
      (Ok((Header(s1.dhs, s1.pn, s1.ns), MessageKey(ck))), s1.(cks := Some(NextChain(ck)), ns := Inc(s1.ns)))
  }

  datatype Message = Message(header: Header, ct: Ciphertext)

  function Encrypt(cfg: Config, s: State, text: bytes, ad: bytes, gen: Option<key32>): (Result<Message>, State) {
    match SendKey(cfg, s, gen)
    case (Err(e), s1) => (Err(e), s1)
    case (Ok((h, mk)), s1) => (Ok(Message(h, Sealed(mk, BuildAD(cfg, EncodeHeader(h), ad, true), text))), s1)
  }

  /** Sending touches neither the receive chains nor the store nor the remote key. */
  lemma EncryptFrame(cfg: Config, s: State, text: bytes, ad: bytes, gen: Option<key32>)
    ensures var s1 := Encrypt(cfg, s, text, ad, gen).1;
            s1.chains == s.chains && s1.skipped == s.skipped && s1.dhr == s.dhr && s1.dhRSet == s.dhRSet
  {}

  /** The chain whose unread tail a DH step files: that of the current remote key. */
  function PreviousChain(s: State): (i: int)
    ensures -1 <= i < |s.chains|
  {
    if s.dhRSet then FindChain(s.chains, s.dhr) else -1
  }

  /** The receiving half of a DH step. */
  function RatchetRecv(cfg: Config, s: State, h: Header): Result<State> {
    var p := PreviousChain(s);
    if h.pk == ZERO32 then Err(InvalidInput)
    else if h.pk in cfg.lowOrder then Err(LowOrderPoint)
    else if p >= 0 && h.pn > s.chains[p].nr && h.pn - s.chains[p].nr > MaxSkip(cfg) then Err(MaxSkipExceeded)
    else
      var dh := Dh(s.dhs, h.pk);
      var q := if p < 0 then s.skipped
               else StoreRange(MaxSkip(cfg), s.skipped, RatchetLabel(s.dhr), s.chains[p].ck, s.chains[p].nr, h.pn);
      Ok(s.(rk := RootKey(s.rk, dh), chains := PushChain(s.chains, Chain(h.pk, ChainKey(s.rk, dh), 0)),
            skipped := q, dhr := h.pk, dhRSet := true, pending := true))
  }

  // ---- The derivation loop -----------------------------------------------------------------

  /** The 32-bit index of the derivation loop after `k` rounds from `from`. */
  function Index(from: u32, k: nat): u32 {
    (from + k) % 0x1_0000_0000
  }

  /** The loop runs while its index is at most `n`; from `from` up to `n` it comes to an end
      exactly when `n` is not the largest index. */
  lemma LoopEnds(from: u32, n: u32)
    requires from <= n
    ensures (exists k: nat :: Index(from, k) > n) <==> n < U32_MAX
  {
    if n < U32_MAX {
      assert Index(from, n + 1 - from) > n;
    }
  }

  /** Reading position `h.n` of a retained chain, filing the positions it passes over. */
  function ReceiveOnChain(cfg: Config, s: State, h: Header): Result<(Key, State)> {
    var i := FindChain(s.chains, h.pk);
    if i < 0 then Err(InvalidTransition)
    else
      var c := s.chains[i];
      if h.n > c.nr && h.n - c.nr > MaxSkip(cfg) then Err(MaxSkipExceeded)
      else if h.n < c.nr then Err(InvalidTransition)
      else if h.n == U32_MAX then Err(NeverReturns)
      else
        var ck := Adv(c.ck, h.n - c.nr);
        Ok((MessageKey(ck), s.(chains := s.chains[i := Chain(h.pk, NextChain(ck), h.n + 1)],
                               skipped := StoreRange(MaxSkip(cfg), s.skipped, RatchetLabel(h.pk), c.ck, c.nr, h.n))))
  }

  lemma OnChainFacts(cfg: Config, s: State, h: Header)
    requires ReceiveOnChain(cfg, s, h).Ok?
    ensures var i := FindChain(s.chains, h.pk);
            i >= 0 && s.chains[i].nr <= h.n < U32_MAX
            && ReceiveOnChain(cfg, s, h).value.0 == MessageKey(Adv(s.chains[i].ck, h.n - s.chains[i].nr))
  {}

  /** A header names a chain the session already follows. */
  predicate Known(s: State, pk: key32) {
    (s.dhRSet && s.dhr == pk) || FindChain(s.chains, pk) >= 0
  }

  function ReceiveKey(cfg: Config, s: State, h: Header): Result<(Key, State)> {
    var id := Id(RatchetLabel(h.pk), h.n);
    if Has(s.skipped, id) then Ok((Lookup(s.skipped, id), s.(skipped := Remove(s.skipped, id))))
    else if Known(s, h.pk) then ReceiveOnChain(cfg, s, h)
    else match RatchetRecv(cfg, s, h)
      case Err(e) => Err(e)
      case Ok(s1) => ReceiveOnChain(cfg, s1, h)
  }

  lemma TakeOutcome(cfg: Config, s: State, h: Header)
    requires Has(s.skipped, Id(RatchetLabel(h.pk), h.n))
    ensures var id := Id(RatchetLabel(h.pk), h.n);
            ReceiveKey(cfg, s, h) == Ok((Lookup(s.skipped, id), s.(skipped := Remove(s.skipped, id))))
  {}

  /** A failed call leaves the state it found. */
  function Decrypt(cfg: Config, s: State, m: Message, ad: bytes): (Result<bytes>, State) {
    match ReceiveKey(cfg, s, m.header)
    case Err(e) => (Err(e), s)
    case Ok((mk, s1)) =>
      match Open(mk, m.ct, BuildAD(cfg, EncodeHeader(m.header), ad, false))
      case None => (Err(AuthFailure), s)
      case Some(text) => (Ok(text), s1)
  }

  /** Some chain serves the position: it stands at or below it and reaches it. */
  predicate Reaches(cfg: Config, chains: seq<Chain>, h: Header) {
    var i := FindChain(chains, h.pk);
    i >= 0 && chains[i].nr <= h.n <= chains[i].nr + MaxSkip(cfg)
  }

  /** The call comes back: the position is not the largest there is, or its key is filed, or no
      chain that would serve it reaches it. */
  predicate Returns(cfg: Config, s: State, h: Header) {
    || h.n < U32_MAX
    || Has(s.skipped, Id(RatchetLabel(h.pk), h.n))
    || (if Known(s, h.pk) then !Reaches(cfg, s.chains, h)
        else RatchetRecv(cfg, s, h).Err? || !Reaches(cfg, RatchetRecv(cfg, s, h).value.chains, h))
  }

  lemma ReturnsExactly(cfg: Config, s: State, h: Header)
    ensures Returns(cfg, s, h) <==> ReceiveKey(cfg, s, h) != Err(NeverReturns)
  {
    hide RatchetRecv, StoreRange, Adv;
    if !Has(s.skipped, Id(RatchetLabel(h.pk), h.n)) && !Known(s, h.pk) {
      RecvReturns(cfg, s, h);
    }
  }

  /** A session that has read all but the last position of a chain: the call for the last one
      never comes back. */
  lemma LastPosition(cfg: Config, s: State, pk: key32, ck: Key, pn: u32)
    requires s.chains == [Chain(pk, ck, U32_MAX)] && s.skipped == []
    ensures !Returns(cfg, s, Header(pk, pn, U32_MAX)) && ReceiveKey(cfg, s, Header(pk, pn, U32_MAX)) == Err(NeverReturns)
  {
    var chains := s.chains;
    assert chains[..0] == [] && FindChain(chains, pk) == 0;
  }

  lemma RecvReturns(cfg: Config, s: State, h: Header)
    ensures RatchetRecv(cfg, s, h) != Err(NeverReturns)
  {}

  /** When a header starts a new epoch, and which key it then yields. */
  lemma NewEpochOutcome(cfg: Config, p: State, h: Header)
    requires !Has(p.skipped, Id(RatchetLabel(h.pk), h.n)) && !Known(p, h.pk)
    ensures ReceiveKey(cfg, p, h).Ok? <==>
              && h.pk != ZERO32 && h.pk !in cfg.lowOrder && h.n <= MaxSkip(cfg) && h.n < U32_MAX
              && (PreviousChain(p) >= 0 ==> h.pn <= p.chains[PreviousChain(p)].nr + MaxSkip(cfg))
    ensures ReceiveKey(cfg, p, h).Ok? ==>
              && ReceiveKey(cfg, p, h).value.0 == MessageKey(Adv(ChainKey(p.rk, Dh(p.dhs, h.pk)), h.n))
              && RatchetRecv(cfg, p, h).Ok?
              && ReceiveKey(cfg, p, h) == ReceiveOnChain(cfg, RatchetRecv(cfg, p, h).value, h)
              && FindChain(RatchetRecv(cfg, p, h).value.chains, h.pk) == |RatchetRecv(cfg, p, h).value.chains| - 1
  {
    hide StoreRange, PushChain, Adv;
    if RatchetRecv(cfg, p, h).Ok? {
      Pushed(p.chains, Chain(h.pk, ChainKey(p.rk, Dh(p.dhs, h.pk)), 0));
    }
  }
}
