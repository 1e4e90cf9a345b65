/** The Triple Ratchet session as a function on values: the base ratchet and the post-quantum
    ratchet side by side, one message key from both, and nothing kept of a failed call. */
module TripleSpec {
  import opened Bytes
  import opened Terms
  import opened Wire
  import Ec = RatchetSpec
  import Pq = PqSpec

  datatype State = State(ec: Ec.State, pq: Pq.State)

  /** The post-quantum header may be missing from what the network delivers. */
  datatype TripleHeader = TripleHeader(ec: Header, pq: Option<SckaHeader>)

  datatype TripleMessage = TripleMessage(header: TripleHeader, ct: Ciphertext)

  function TripleAD(cfg: Config, ec: Header, pq: SckaHeader, ad: bytes, sending: bool): AuthData {
    BuildAD(cfg, EncodeTripleHeader(ec, pq), ad, sending)
  }

  function Encrypt(cfg: Config, s: State, text: bytes, ad: bytes, gen: Option<key32>, out: Option<Pq.SendOut>): (Result<TripleMessage>, State) {
    match Ec.SendKey(cfg, s.ec, gen)
    case (Err(e), _) => (Err(e), s)
    case (Ok((h, ecKey)), ec1) =>
      match Pq.SendKey(s.pq, out)
      case (Err(e), _) => (Err(e), s)
      case (Ok((msg, n, pqKey)), pq1) =>
        var hs := SckaHeader(msg, n);
        (Ok(TripleMessage(TripleHeader(h, Some(hs)), Sealed(Hybrid(pqKey, ecKey), TripleAD(cfg, h, hs, ad, true), text))),
         State(ec1, pq1))
  }

  function Decrypt(cfg: Config, s: State, m: TripleMessage, ad: bytes, out: Option<Pq.RecvOut>): (Result<bytes>, State) {
    if m.header.pq.None? then (Err(NilHeader), s)
    else
      var hs := m.header.pq.value;
      match Ec.ReceiveKey(cfg, s.ec, m.header.ec)
      case Err(e) => (Err(e), s)
      case Ok((ecKey, ec1)) =>
        match Pq.ReceiveKey(MaxSkip(cfg), s.pq, out, hs.n)
        case (Err(e), _) => (Err(e), s)
        case (Ok((_, pqKey)), pq1) =>
          match Open(Hybrid(pqKey, ecKey), m.ct, TripleAD(cfg, m.header.ec, hs, ad, false))
          case None => (Err(AuthFailure), s)
          case Some(text) => (Ok(text), State(ec1, pq1))
  }
}
