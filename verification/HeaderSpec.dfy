/** The header-encryption session as a function on values. Which header key opens a header
    decides what the session does with the message. */
module HeaderSpec {
  import opened Bytes
  import opened Terms
  import opened Wire
  import opened SkippedQueue
  import Ec = RatchetSpec

  const NONCE_MAX: nat := 0xFFFF_FFFF_FFFF_FFFF

  /** A header key and the number of headers sealed under it so far. */
  datatype HeaderKey = HeaderKey(key: Key, nonce: nat)

  datatype State = State(dr: Ec.State, hks: HeaderKey, hkr: HeaderKey, nhks: HeaderKey, nhkr: HeaderKey)

  datatype HeMessage = HeMessage(header: SealedHeader, ct: Ciphertext)

  const NO_KEY := HeaderKey(Zeroed, 0)

  function InitInitiator(sk: Key, hka: Key, nhkb: Key, bobPK: key32, priv: key32): State {
    State(Ec.InitInitiator(sk, bobPK, priv), HeaderKey(hka, 0), NO_KEY,
          HeaderKey(NextHeaderKey(sk, Dh(priv, bobPK)), 0), HeaderKey(nhkb, 0))
  }

  function InitResponder(sk: Key, hka: Key, nhkb: Key, priv: key32): State {
    State(Ec.InitResponder(sk, priv), NO_KEY, NO_KEY, HeaderKey(nhkb, 0), HeaderKey(hka, 0))
  }

  /** Identity prefix and caller data, followed by the sealed header. */
  function HeaderAD(cfg: Config, header: SealedHeader, ad: bytes, sending: bool): AuthData {
    WithHeader(IdentityPrefix(cfg, sending) + ad, header)
  }

  // ---- Sending -----------------------------------------------------------------------------

  function SealHeader(hk: HeaderKey, header: bytes): Result<(SealedHeader, HeaderKey)> {
    if hk.key == Zeroed then Err(InvalidHeaderKey)
    else if hk.nonce == NONCE_MAX then Err(InvalidNonceCounter)
    else Ok((SealedHeader(hk.key, hk.nonce, header), hk.(nonce := hk.nonce + 1)))
  }

  /** The sending half of a DH step, which also brings the next header key into use. */
  function RatchetSend(cfg: Config, s: State, gen: Option<key32>): (Option<Error>, State) {
    if !s.dr.dhRSet then (Some(SessionNotInitialized), s)
    else
      var s1 := s.(dr := s.dr.(pn := s.dr.ns, ns := 0), hks := s.nhks);
      if gen.None? then (Some(NoEntropy), s1)
      else if s.dr.dhr in cfg.lowOrder then (Some(LowOrderPoint), s1)
      else
        var dh := Dh(gen.value, s.dr.dhr);
        (None, s1.(dr := s1.dr.(rk := RootKey(s.dr.rk, dh), cks := Some(ChainKey(s.dr.rk, dh)), dhs := gen.value, pending := false),
                   nhks := HeaderKey(NextHeaderKey(s.dr.rk, dh), 0)))
  }

  function Encrypt(cfg: Config, s: State, text: bytes, ad: bytes, gen: Option<key32>): (Result<HeMessage>, State) {
    var (e, s1) := if s.dr.pending || s.dr.cks.None? then RatchetSend(cfg, s, gen) else (None, s);
    if e.Some? then (Err(e.value), s1)
    else if s1.dr.cks.None? then (Err(InvalidTransition), s1)
    else
      var ck := s1.dr.cks.value;
      var s2 := s1.(dr := s1.dr.(cks := Some(NextChain(ck)), ns := Inc(s1.dr.ns)));
      match SealHeader(s2.hks, EncodeHeader(Header(s1.dr.dhs, s1.dr.pn, s1.dr.ns)))
      case Err(e) => (Err(e), s2)
      case Ok((header, hks)) =>
        (Ok(HeMessage(header, Sealed(MessageKey(ck), HeaderAD(cfg, header, ad, true), text))), s2.(hks := hks))
  }

  // ---- Receiving ---------------------------------------------------------------------------

  /** A header opens only under the key it was sealed with; an unset key opens nothing. */
  predicate Opens(hk: Key, header: SealedHeader) {
    hk != Zeroed && header.SealedHeader? && header.hk == hk
  }

  /** A filed key serves a header that opens under its label and announces its position. */
  predicate Serves(e: Entry, header: SealedHeader) {
    && e.id.lab.HeaderLabel?
    && Opens(e.id.lab.hk, header)
    && DecodeHeader(header.header).Ok?
    && DecodeHeader(header.header).value.n == e.id.n
  }

  /** The identifier a filed key must have to serve a header. */
  function ServingId(header: SealedHeader): Option<Id> {
    if header.SealedHeader? && header.hk != Zeroed && DecodeHeader(header.header).Ok?
    then Some(Id(HeaderLabel(header.hk), DecodeHeader(header.header).value.n))
    else None
  }

  /** Whatever the order in which the filed keys are tried, the same one is found. */
  lemma ServingEntry(q: seq<Entry>, e: Entry, header: SealedHeader)
    requires Distinct(q) && e in q
    ensures Serves(e, header) <==>
              ServingId(header).Some? && Has(q, ServingId(header).value) && q[Find(q, ServingId(header).value)] == e
  {
    HasMember(q, e);
  }

  predicate Filed(q: seq<Entry>, header: SealedHeader) {
    ServingId(header).Some? && Has(q, ServingId(header).value)
  }

  datatype Opened = Opened(header: Header, viaNext: bool)

  /** The current receiving header key is tried first, then the next one. */
  function OpenHeader(s: State, header: SealedHeader): Result<Opened> {
    if !Opens(s.hkr.key, header) && !Opens(s.nhkr.key, header) then Err(AuthFailure)
    else match DecodeHeader(header.header)
      case Err(e) => Err(e)
      case Ok(h) => Ok(Opened(h, !Opens(s.hkr.key, header)))
  }

  /** The receiving half of a DH step; `promote` takes the next header key into use. */
  function RatchetRecv(cfg: Config, s: State, h: Header, promote: bool): Result<State> {
    var p := Ec.PreviousChain(s.dr);
    if h.pk == ZERO32 then Err(InvalidInput)
    else if h.pk in cfg.lowOrder then Err(LowOrderPoint)
    else if p >= 0 && h.pn > s.dr.chains[p].nr && h.pn - s.dr.chains[p].nr > MaxSkip(cfg) then Err(MaxSkipExceeded)
    else
      var dh := Dh(s.dr.dhs, h.pk);
      var q := if p < 0 then s.dr.skipped
               else StoreRange(MaxSkip(cfg), s.dr.skipped, HeaderLabel(s.hkr.key), s.dr.chains[p].ck, s.dr.chains[p].nr, h.pn);
      Ok(s.(dr := s.dr.(rk := RootKey(s.dr.rk, dh), chains := Ec.PushChain(s.dr.chains, Ec.Chain(h.pk, ChainKey(s.dr.rk, dh), 0)),
                        skipped := q, dhr := h.pk, dhRSet := true, cks := None, pending := true),
            hkr := if promote then s.nhkr else s.hkr,
            nhkr := HeaderKey(NextHeaderKey(s.dr.rk, dh), 0)))
  }

  /** Reading position `n` of the current receive chain, filing the positions passed over. */
  function ReceiveOnChain(cfg: Config, s: State, n: u32): Result<(Key, State)> {
    var i := Ec.FindChain(s.dr.chains, s.dr.dhr);
    if i < 0 then Err(InvalidTransition)
    else
      var c := s.dr.chains[i];
      if n > c.nr && n - c.nr > MaxSkip(cfg) then Err(MaxSkipExceeded)
      else if n < c.nr then Err(InvalidTransition)
      else if n == U32_MAX then Err(NeverReturns)
      else
        var ck := Adv(c.ck, n - c.nr);
        Ok((MessageKey(ck),
            s.(dr := s.dr.(chains := s.dr.chains[i := Ec.Chain(c.pk, NextChain(ck), n + 1)],
                           skipped := StoreRange(MaxSkip(cfg), s.dr.skipped, HeaderLabel(s.hkr.key), c.ck, c.nr, n)))))
  }

  function ReceiveOpened(cfg: Config, s: State, h: Header, viaNext: bool): Result<(Key, State)> {
    var newRemote := !s.dr.dhRSet || s.dr.dhr != h.pk;
    if newRemote && !viaNext && s.dr.dhRSet then Err(InvalidTransition)
    else if !newRemote && !viaNext then ReceiveOnChain(cfg, s, h.n)
    else match RatchetRecv(cfg, s, h, viaNext)
      case Err(e) => Err(e)
      case Ok(s1) => ReceiveOnChain(cfg, s1, h.n)
  }

  function ReceiveKey(cfg: Config, s: State, header: SealedHeader): Result<(Key, State)> {
    if Filed(s.dr.skipped, header) then
      var id := ServingId(header).value;
      Ok((Lookup(s.dr.skipped, id), s.(dr := s.dr.(skipped := Remove(s.dr.skipped, id)))))
    else match OpenHeader(s, header)
      case Err(e) => Err(e)
      case Ok(o) => ReceiveOpened(cfg, s, o.header, o.viaNext)
  }

  /** A failed call leaves the state it found. */
  function Decrypt(cfg: Config, s: State, m: HeMessage, ad: bytes): (Result<bytes>, State) {
    match ReceiveKey(cfg, s, m.header)
    case Err(e) => (Err(e), s)
    case Ok((mk, s1)) =>
      match Open(mk, m.ct, HeaderAD(cfg, m.header, ad, false))
      case None => (Err(AuthFailure), s)
      case Some(text) => (Ok(text), s1)
  }

  /** The current chain stands at or below a position and reaches it. */
  predicate Reaches(cfg: Config, s: State, n: u32) {
    var i := Ec.FindChain(s.dr.chains, s.dr.dhr);
    i >= 0 && s.dr.chains[i].nr <= n <= s.dr.chains[i].nr + MaxSkip(cfg)
  }

  /** A header that opened leads to a call that comes back: it is rejected before a chain is read,
      or its position is not the largest there is, or the chain does not reach it. */
  predicate OpenedReturns(cfg: Config, s: State, h: Header, viaNext: bool) {
    var newRemote := !s.dr.dhRSet || s.dr.dhr != h.pk;
    || h.n < U32_MAX
    || (newRemote && !viaNext && s.dr.dhRSet)
    || (if newRemote || viaNext
        then RatchetRecv(cfg, s, h, viaNext).Err? || !Reaches(cfg, RatchetRecv(cfg, s, h, viaNext).value, h.n)
        else !Reaches(cfg, s, h.n))
  }

  predicate Returns(cfg: Config, s: State, header: SealedHeader) {
    || Filed(s.dr.skipped, header)
    || OpenHeader(s, header).Err?
    || OpenedReturns(cfg, s, OpenHeader(s, header).value.header, OpenHeader(s, header).value.viaNext)
  }

  lemma ReturnsExactly(cfg: Config, s: State, header: SealedHeader)
    ensures Returns(cfg, s, header) <==> ReceiveKey(cfg, s, header) != Err(NeverReturns)
  {
    hide RatchetRecv, ReceiveOnChain, Reaches, Filed, Opens;
    DecodeReturns(s, header);
    if OpenHeader(s, header).Ok? {
      var o := OpenHeader(s, header).value;
      RecvReturns(cfg, s, o.header, o.viaNext);
      OnChainReturns(cfg, s, o.header.n);
      if RatchetRecv(cfg, s, o.header, o.viaNext).Ok? {
        OnChainReturns(cfg, RatchetRecv(cfg, s, o.header, o.viaNext).value, o.header.n);
      }
    }
  }

  lemma DecodeReturns(s: State, header: SealedHeader)
    ensures OpenHeader(s, header) != Err(NeverReturns)
  {}

  lemma RecvReturns(cfg: Config, s: State, h: Header, promote: bool)
    ensures RatchetRecv(cfg, s, h, promote) != Err(NeverReturns)
  {}

  lemma OnChainReturns(cfg: Config, s: State, n: u32)
    ensures ReceiveOnChain(cfg, s, n) == Err(NeverReturns) <==> n == U32_MAX && Reaches(cfg, s, n)
  {
    hide StoreRange, Adv;
  }
}
