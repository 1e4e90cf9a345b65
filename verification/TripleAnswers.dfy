/** What every call of a Triple Ratchet session answers, for every state and input. */
module TripleAnswers {
  import opened Bytes
  import opened Terms
  import opened Wire
  import opened TripleSpec
  import Ec = RatchetSpec
  import Pq = PqSpec

  /** When a message goes out: under both halves' keys and both headers; the elliptic-curve half is
      asked first, and what either refuses leaves both as they were. */
  lemma SendAnswer(cfg: Config, s: State, text: bytes, ad: bytes, gen: Option<key32>, out: Option<Pq.SendOut>)
    ensures var (res, t) := Encrypt(cfg, s, text, ad, gen, out);
            var (ec, ec1), (pq, pq1) := Ec.SendKey(cfg, s.ec, gen), Pq.SendKey(s.pq, out);
            && (res.Ok? <==> ec.Ok? && pq.Ok?)
            && (res.Err? ==> t == s && res.error == if ec.Err? then ec.error else pq.error)
            && (res.Ok? ==>
                 && t == State(ec1, pq1) && res.value.header.pq.Some? && res.value.header.ec == ec.value.0
                 && res.value.header.pq.value == SckaHeader(pq.value.0, pq.value.1)
                 && res.value.ct == Sealed(Hybrid(pq.value.2, ec.value.1),
                      BuildAD(cfg, EncodeHeader(res.value.header.ec) + EncodeSckaHeader(res.value.header.pq.value), ad, true), text))
  {
    hide BuildAD, EncodeHeader, EncodeSckaHeader, Ec.SendKey, Pq.SendKey;
  }

  /** When a message is accepted: both halves derive a key, and the two together open it. A missing
      header is noticed first, then what the elliptic-curve half refuses, then the post-quantum half,
      then the tag; whatever it is, both halves stay as they were. */
  lemma ReceiveAnswer(cfg: Config, s: State, m: TripleMessage, ad: bytes, out: Option<Pq.RecvOut>, text: bytes)
    ensures var (res, t) := Decrypt(cfg, s, m, ad, out);
            && (m.header.pq.None? ==> res == Err(NilHeader))
            && (res.Err? ==> t == s)
            && (m.header.pq.Some? ==>
                 var ec, (pq, pq1) := Ec.ReceiveKey(cfg, s.ec, m.header.ec), Pq.ReceiveKey(MaxSkip(cfg), s.pq, out, m.header.pq.value.n);
                 && (ec.Err? ==> res == Err(ec.error))
                 && (ec.Ok? && pq.Err? ==> res == Err(pq.error))
                 && (ec.Ok? && pq.Ok? ==>
                      var opens := m.ct.Sealed? && m.ct.key == Hybrid(pq.value.1, ec.value.0)
                        && m.ct.ad == BuildAD(cfg, EncodeHeader(m.header.ec) + EncodeSckaHeader(m.header.pq.value), ad, false);
                      && (res == Ok(text) <==> opens && m.ct.text == text)
                      && (!opens ==> res == Err(AuthFailure))
                      && (res.Ok? ==> t == State(ec.value.1, pq1))))
  {
    hide BuildAD, EncodeHeader, EncodeSckaHeader, Ec.ReceiveKey, Pq.ReceiveKey;
  }

  /** What one session sends, delivered unaltered to any session whose halves derive its two keys: it is
      accepted exactly if each of the two names the other. */
  lemma BoundToIdentities(a: Config, b: Config, s: State, p: State, text: bytes, ad: bytes, gen: Option<key32>, out: Option<Pq.SendOut>, answer: Option<Pq.RecvOut>)
    requires Encrypt(a, s, text, ad, gen, out).0.Ok?
    requires var m := Encrypt(a, s, text, ad, gen, out).0.value;
             && m.header.pq.Some? && m.ct.Sealed?
             && var ec, pq := Ec.ReceiveKey(b, p.ec, m.header.ec), Pq.ReceiveKey(MaxSkip(b), p.pq, answer, m.header.pq.value.n).0;
             ec.Ok? && pq.Ok? && m.ct.key == Hybrid(pq.value.1, ec.value.0)
    ensures var m := Encrypt(a, s, text, ad, gen, out).0.value;
            var (res, t) := Decrypt(b, p, m, ad, answer);
            && res == (if a.local == b.remote && a.remote == b.local then Ok(text) else Err(AuthFailure))
            && (res.Err? ==> t == p)
  {
    hide Ec.ReceiveKey, Pq.ReceiveKey, Ec.SendKey, Pq.SendKey, IdentityPrefix, EncodeHeader, EncodeSckaHeader;
    var m := Encrypt(a, s, text, ad, gen, out).0.value;
    OtherIdentities(a, b, EncodeTripleHeader(m.header.ec, m.header.pq.value), ad);
  }
}
