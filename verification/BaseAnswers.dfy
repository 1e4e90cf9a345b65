/** What every call of a base session answers, for every state, configuration and input, in the
    configuration's own numbers. */
module BaseAnswers {
  import opened Bytes
  import opened Terms
  import opened Wire
  import opened SkippedQueue
  import opened RatchetSpec

  // ---- Receiving ---------------------------------------------------------------------------

  /** A key that is not filed, of a chain the session follows: it must be ahead and no further than
      the configured number of messages, or 1000 where none is configured. */
  lemma KnownAnswer(cfg: Config, p: State, h: Header)
    requires !Has(p.skipped, Id(RatchetLabel(h.pk), h.n)) && ((p.dhRSet && p.dhr == h.pk) || FindChain(p.chains, h.pk) >= 0)
    ensures var limit, i, res := if cfg.maxSkip > 0 then cfg.maxSkip else 1000, FindChain(p.chains, h.pk), ReceiveKey(cfg, p, h);
            && (res.Ok? <==> i >= 0 && p.chains[i].nr <= h.n <= p.chains[i].nr + limit && h.n != 0xFFFF_FFFF)
            && (res.Ok? ==> res.value.0 == MessageKey(Adv(p.chains[i].ck, h.n - p.chains[i].nr)))
            && (res == Err(MaxSkipExceeded) <==> i >= 0 && h.n > p.chains[i].nr + limit)
            && (res == Err(InvalidTransition) <==> i < 0 || h.n < p.chains[i].nr)
            && (res == Err(NeverReturns) <==> i >= 0 && p.chains[i].nr <= h.n <= p.chains[i].nr + limit && h.n == 0xFFFF_FFFF)
  {
    hide StoreRange, Adv;
  }

  /** A header with a ratchet key not followed so far: the key must be valid, and neither the unread
      rest of the epoch that is left nor the new epoch's positions passed over may exceed the limit. */
  lemma NewAnswer(cfg: Config, p: State, h: Header)
    requires !Has(p.skipped, Id(RatchetLabel(h.pk), h.n)) && !(p.dhRSet && p.dhr == h.pk) && FindChain(p.chains, h.pk) < 0
    ensures var limit, res := if cfg.maxSkip > 0 then cfg.maxSkip else 1000, ReceiveKey(cfg, p, h);
            var left := if p.dhRSet then FindChain(p.chains, p.dhr) else -1;
            var far := (left >= 0 && h.pn > p.chains[left].nr + limit) || h.n > limit;
            && (res == Err(InvalidInput) <==> h.pk == 0)
            && (res == Err(LowOrderPoint) <==> h.pk != 0 && h.pk in cfg.lowOrder)
            && (res == Err(MaxSkipExceeded) <==> h.pk != 0 && h.pk !in cfg.lowOrder && far)
            && (res == Err(NeverReturns) <==> h.pk != 0 && h.pk !in cfg.lowOrder && !far && h.n == 0xFFFF_FFFF)
            && (res.Ok? <==> h.pk != 0 && h.pk !in cfg.lowOrder && !far && h.n != 0xFFFF_FFFF)
            && (res.Ok? ==> res.value.0 == MessageKey(Adv(ChainKey(p.rk, Dh(p.dhs, h.pk)), h.n)))
  {
    hide StoreRange, ReceiveOnChain, PushChain, Adv;
    NewEpochOutcome(cfg, p, h);
    if RatchetRecv(cfg, p, h).Ok? {
      Pushed(p.chains, Chain(h.pk, ChainKey(p.rk, Dh(p.dhs, h.pk)), 0));
      ReadFromZero(cfg, RatchetRecv(cfg, p, h).value, h);
    }
  }

  lemma ReadFromZero(cfg: Config, p: State, h: Header)
    requires FindChain(p.chains, h.pk) >= 0 && p.chains[FindChain(p.chains, h.pk)].nr == 0
    ensures var res := ReceiveOnChain(cfg, p, h);
            && (res == Err(MaxSkipExceeded) <==> h.n > MaxSkip(cfg))
            && (res == Err(NeverReturns) <==> h.n <= MaxSkip(cfg) && h.n == U32_MAX)
            && (res.Ok? <==> h.n <= MaxSkip(cfg) && h.n != U32_MAX)
  {
    hide StoreRange, Adv;
  }

  /** A responder that has heard nothing follows any valid ratchet key, up to the limit. */
  lemma FreshResponder(cfg: Config, sk: Key, priv: key32, h: Header)
    requires Validate(cfg).None?
    ensures ReceiveKey(cfg, InitResponder(sk, priv), h).Ok? <==>
              h.pk != 0 && h.pk !in cfg.lowOrder && h.n <= (if cfg.maxSkip > 0 then cfg.maxSkip else 1000)
  {
    NewAnswer(cfg, InitResponder(sk, priv), h);
  }

  /** What is derived opens the ciphertext, or the call fails and leaves the session as it was. */
  lemma Authenticated(cfg: Config, p: State, m: Message, ad: bytes, text: bytes)
    requires ReceiveKey(cfg, p, m.header).Ok?
    ensures var (res, t), (mk, p1) := Decrypt(cfg, p, m, ad), ReceiveKey(cfg, p, m.header).value;
            && (res == Ok(text) <==> m.ct == Sealed(mk, BuildAD(cfg, EncodeHeader(m.header), ad, false), text))
            && (res.Err? ==> res == Err(AuthFailure) && t == p) && (res.Ok? ==> t == p1)
  {
    hide ReceiveKey, BuildAD;
  }

  // ---- Sending -----------------------------------------------------------------------------

  /** When a message goes out, under which header and key, and why not. */
  lemma SendAnswer(cfg: Config, s: State, text: bytes, ad: bytes, gen: Option<key32>)
    ensures var (res, t) := Encrypt(cfg, s, text, ad, gen);
            && (res.Ok? <==> if s.pending then gen.Some? && s.dhr !in cfg.lowOrder else s.cks.Some?)
            && (res == Err(NoEntropy) <==> s.pending && gen.None?)
            && (res == Err(LowOrderPoint) <==> s.pending && gen.Some? && s.dhr in cfg.lowOrder)
            && (res == Err(SessionNotInitialized) <==> !s.pending && s.cks.None?)
            && (res.Err? ==> t == if s.pending then s.(pn := s.ns) else s)
            && (res.Ok? ==>
                 var h := res.value.header;
                 && h == (if s.pending then Header(gen.value, s.ns, 0) else Header(s.dhs, s.pn, s.ns))
                 && res.value.ct == Sealed(MessageKey(if s.pending then ChainKey(s.rk, Dh(gen.value, s.dhr)) else s.cks.value),
                                           BuildAD(cfg, EncodeHeader(h), ad, true), text)
                 && t.ns == (if h.n == 0xFFFF_FFFF then 0 else h.n + 1) && t.pn == h.pn && t.dhs == h.pk && !t.pending)
  {
    hide BuildAD, EncodeHeader;
  }

  /** A call that failed can be made again: the outcome is the same as if it had not been made. */
  lemma SendAgain(cfg: Config, s: State, text: bytes, ad: bytes, gen: Option<key32>, text': bytes, ad': bytes, gen': Option<key32>)
    requires Encrypt(cfg, s, text, ad, gen).0.Err?
    ensures Encrypt(cfg, Encrypt(cfg, s, text, ad, gen).1, text', ad', gen') == Encrypt(cfg, s, text', ad', gen')
  {
    hide BuildAD, EncodeHeader;
  }

  // ---- Identities --------------------------------------------------------------------------

  /** What one session sends, delivered unaltered to any session that derives its key: it is accepted
      exactly if each of the two names the other. */
  lemma BoundToIdentities(a: Config, b: Config, s: State, p: State, text: bytes, ad: bytes, gen: Option<key32>)
    requires Encrypt(a, s, text, ad, gen).0.Ok?
    requires var m := Encrypt(a, s, text, ad, gen).0.value;
             m.ct.Sealed? && ReceiveKey(b, p, m.header).Ok? && ReceiveKey(b, p, m.header).value.0 == m.ct.key
    ensures var m := Encrypt(a, s, text, ad, gen).0.value;
            var (res, t) := Decrypt(b, p, m, ad);
            && res == (if a.local == b.remote && a.remote == b.local then Ok(text) else Err(AuthFailure))
            && (res.Err? ==> t == p)
  {
    hide ReceiveKey, SendKey, IdentityPrefix, EncodeHeader;
    OtherIdentities(a, b, EncodeHeader(Encrypt(a, s, text, ad, gen).0.value.header), ad);
  }

  /** So from the first message on: two parties that share the secret but expect other identities do
      not understand each other. */
  lemma Strangers(a: Config, b: Config, sk: Key, bob: key32, alice: key32, text: bytes, ad: bytes)
    requires bob != ZERO32 && alice != ZERO32 && alice !in b.lowOrder
    ensures var sent := Encrypt(a, InitInitiator(sk, bob, alice), text, ad, None).0;
            && sent.Ok?
            && Decrypt(b, InitResponder(sk, bob), sent.value, ad).0 ==
                 (if a.local == b.remote && a.remote == b.local then Ok(text) else Err(AuthFailure))
  {
    hide StoreRange, ReceiveKey, Encrypt;
    var s, p := InitInitiator(sk, bob, alice), InitResponder(sk, bob);
    SendAnswer(a, s, text, ad, None);
    var m := Encrypt(a, s, text, ad, None).0.value;
    NewAnswer(b, p, m.header);
    DhCommutes(bob, alice);
    BoundToIdentities(a, b, s, p, text, ad, None);
  }
}
