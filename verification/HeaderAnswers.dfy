/** What every call of a header-encryption session answers, for every state, configuration and input,
    in the configuration's own numbers. */
module HeaderAnswers {
  import opened Bytes
  import opened Terms
  import opened Wire
  import opened SkippedQueue
  import opened HeaderSpec
  import Ec = RatchetSpec

  // ---- Receiving ---------------------------------------------------------------------------

  /** A header that neither a stored key nor either header key opens, or that opens to fewer than
      40 bytes. */
  lemma UnopenedAnswer(cfg: Config, p: State, header: SealedHeader)
    requires !Filed(p.dr.skipped, header)
    ensures var res, opens := ReceiveKey(cfg, p, header), Opens(p.hkr.key, header) || Opens(p.nhkr.key, header);
            && (!opens ==> res == Err(AuthFailure))
            && (opens && |header.header| < 40 ==> res == Err(InvalidInput))
  {
    hide Filed;
  }

  /** A header under the current header key belongs to the current chain: it must carry that chain's
      ratchet key, be ahead, and be within the configured limit, or 1000 where none is configured. */
  lemma CurrentAnswer(cfg: Config, p: State, header: SealedHeader)
    requires !Filed(p.dr.skipped, header) && Opens(p.hkr.key, header) && p.dr.dhRSet && |header.header| >= 40
    ensures var limit, i, res := if cfg.maxSkip > 0 then cfg.maxSkip else 1000, Ec.FindChain(p.dr.chains, p.dr.dhr), ReceiveKey(cfg, p, header);
            var h := DecodeHeader(header.header).value;
            var current := h.pk == p.dr.dhr && i >= 0;
            && (res.Ok? <==> current && p.dr.chains[i].nr <= h.n <= p.dr.chains[i].nr + limit && h.n != 0xFFFF_FFFF)
            && (res.Ok? ==> res.value.0 == MessageKey(Adv(p.dr.chains[i].ck, h.n - p.dr.chains[i].nr)) && res.value.1.hkr == p.hkr && res.value.1.nhkr == p.nhkr)
            && (res == Err(MaxSkipExceeded) <==> current && h.n > p.dr.chains[i].nr + limit)
            && (res == Err(InvalidTransition) <==> !current || h.n < p.dr.chains[i].nr)
            && (res == Err(NeverReturns) <==> current && p.dr.chains[i].nr <= h.n <= p.dr.chains[i].nr + limit && h.n == 0xFFFF_FFFF)
  {
    hide StoreRange, Adv, Filed, DecodeHeader;
    EncodeDecodeHeader(header.header);
  }

  /** A header under the next header key, or the first one of all, begins an epoch: its ratchet key
      must be valid, and neither the unread rest of the epoch that is left nor the positions passed
      over in the new one may exceed the limit. The header key that opened it is the current one
      afterwards. A ratchet key whose chain is still there leads to
      that chain. */
  lemma NextAnswer(cfg: Config, p: State, header: SealedHeader)
    requires header.SealedHeader? && |header.header| >= 40 && !Filed(p.dr.skipped, header)
    requires (!Opens(p.hkr.key, header) && Opens(p.nhkr.key, header)) || (Opens(p.hkr.key, header) && !p.dr.dhRSet)
    ensures var h := DecodeHeader(header.header).value; Ec.FindChain(Entered(p.dr, h.pk), h.pk) >= 0
    ensures var limit, res, h := if cfg.maxSkip > 0 then cfg.maxSkip else 1000, ReceiveKey(cfg, p, header), DecodeHeader(header.header).value;
            var left := if p.dr.dhRSet then Ec.FindChain(p.dr.chains, p.dr.dhr) else -1;
            var c := Entered(p.dr, h.pk)[Ec.FindChain(Entered(p.dr, h.pk), h.pk)];
            var far := (left >= 0 && h.pn > p.dr.chains[left].nr + limit) || h.n > c.nr + limit;
            && (Ec.FindChain(p.dr.chains, h.pk) < 0 ==> c.nr == 0 && c.ck == ChainKey(p.dr.rk, Dh(p.dr.dhs, h.pk)))
            && (res == Err(InvalidInput) <==> h.pk == 0)
            && (res == Err(LowOrderPoint) <==> h.pk != 0 && h.pk in cfg.lowOrder)
            && (res == Err(MaxSkipExceeded) <==> h.pk != 0 && h.pk !in cfg.lowOrder && far)
            && (res == Err(InvalidTransition) <==> h.pk != 0 && h.pk !in cfg.lowOrder && !far && h.n < c.nr)
            && (res == Err(NeverReturns) <==> h.pk != 0 && h.pk !in cfg.lowOrder && !far && c.nr <= h.n == 0xFFFF_FFFF)
            && (res.Ok? <==> h.pk != 0 && h.pk !in cfg.lowOrder && !far && c.nr <= h.n != 0xFFFF_FFFF)
            && (res.Ok? ==>
                 && res.value.0 == MessageKey(Adv(c.ck, h.n - c.nr))
                 && res.value.1.hkr == (if Opens(p.hkr.key, header) then p.hkr else p.nhkr)
                 && res.value.1.nhkr == HeaderKey(NextHeaderKey(p.dr.rk, Dh(p.dr.dhs, h.pk)), 0))
  {
    hide StoreRange, ReceiveOnChain, Ec.PushChain, Adv, Filed, DecodeHeader, Opens;
    EncodeDecodeHeader(header.header);
    var h, promote := DecodeHeader(header.header).value, !Opens(p.hkr.key, header);
    EntersChain(p.dr, h.pk);
    if RatchetRecv(cfg, p, h, promote).Ok? {
      ReadOutcome(cfg, RatchetRecv(cfg, p, h, promote).value, h.n);
    }
  }

  /** The retained chains after the step. */
  function Entered(p: Ec.State, pk: key32): seq<Ec.Chain> {
    Ec.PushChain(p.chains, Ec.Chain(pk, ChainKey(p.rk, Dh(p.dhs, pk)), 0))
  }

  lemma EntersChain(p: Ec.State, pk: key32)
    ensures Ec.FindChain(Entered(p, pk), pk) >= 0
    ensures Ec.FindChain(p.chains, pk) < 0 ==>
              Entered(p, pk)[Ec.FindChain(Entered(p, pk), pk)] == Ec.Chain(pk, ChainKey(p.rk, Dh(p.dhs, pk)), 0)
  {
    var chains := Entered(p, pk);
    assert chains[|chains| - 1].pk == pk;
    if Ec.FindChain(p.chains, pk) < 0 {
      Ec.Pushed(p.chains, Ec.Chain(pk, ChainKey(p.rk, Dh(p.dhs, pk)), 0));
    }
  }

  lemma ReadOutcome(cfg: Config, p: State, n: u32)
    requires Ec.FindChain(p.dr.chains, p.dr.dhr) >= 0
    ensures var res, c := ReceiveOnChain(cfg, p, n), p.dr.chains[Ec.FindChain(p.dr.chains, p.dr.dhr)];
            && (res == Err(MaxSkipExceeded) <==> n > c.nr + MaxSkip(cfg))
            && (res == Err(InvalidTransition) <==> n < c.nr)
            && (res == Err(NeverReturns) <==> c.nr <= n <= c.nr + MaxSkip(cfg) && n == U32_MAX)
            && (res.Ok? <==> c.nr <= n <= c.nr + MaxSkip(cfg) && n != U32_MAX)
            && (res.Ok? ==> res.value.0 == MessageKey(Adv(c.ck, n - c.nr)) && res.value.1.hkr == p.hkr && res.value.1.nhkr == p.nhkr)
            && res != Err(InvalidInput) && res != Err(LowOrderPoint)
  {
    hide StoreRange, Adv;
  }

  /** What is derived opens the ciphertext over the caller's data and the sealed header, or the call
      fails and leaves session and header keys as they were. */
  lemma Authenticated(cfg: Config, p: State, m: HeMessage, ad: bytes, text: bytes)
    requires ReceiveKey(cfg, p, m.header).Ok?
    ensures var (res, t), (mk, p1) := Decrypt(cfg, p, m, ad), ReceiveKey(cfg, p, m.header).value;
            && (res == Ok(text) <==> m.ct == Sealed(mk, WithHeader(IdentityPrefix(cfg, false) + ad, m.header), text))
            && (res.Err? ==> res == Err(AuthFailure) && t == p) && (res.Ok? ==> t == p1)
  {
    hide ReceiveKey, IdentityPrefix;
  }

  // ---- Sending -----------------------------------------------------------------------------

  /** When a message goes out, under which header key, header and key, and why not. */
  lemma SendAnswer(cfg: Config, s: State, text: bytes, ad: bytes, gen: Option<key32>)
    ensures var (res, t) := Encrypt(cfg, s, text, ad, gen);
            var step := s.dr.pending || s.dr.cks.None?;
            var ready := step ==> s.dr.dhRSet && gen.Some? && s.dr.dhr !in cfg.lowOrder;
            var hk := if step then s.nhks else s.hks;
            && (res == Err(SessionNotInitialized) <==> step && !s.dr.dhRSet)
            && (res == Err(NoEntropy) <==> step && s.dr.dhRSet && gen.None?)
            && (res == Err(LowOrderPoint) <==> step && s.dr.dhRSet && gen.Some? && s.dr.dhr in cfg.lowOrder)
            && (res == Err(InvalidHeaderKey) <==> ready && hk.key == Zeroed)
            && (res == Err(InvalidNonceCounter) <==> ready && hk.key != Zeroed && hk.nonce == 0xFFFF_FFFF_FFFF_FFFF)
            && (res == Err(SessionNotInitialized) ==> t == s)
            && (res == Err(NoEntropy) || res == Err(LowOrderPoint) ==> t == s.(dr := s.dr.(pn := s.dr.ns, ns := 0), hks := s.nhks))
            && (res == Err(InvalidHeaderKey) || res == Err(InvalidNonceCounter) ==>
                 t.hks == hk && t.dr.ns == (if step then 1 else if s.dr.ns == 0xFFFF_FFFF then 0 else s.dr.ns + 1) && t.dr.cks.Some? && t.dr.cks.value.NextChain?)
            && (res.Ok? <==> ready && hk.key != Zeroed && hk.nonce != 0xFFFF_FFFF_FFFF_FFFF)
            && (res.Ok? ==>
                 var h := if step then Header(gen.value, s.dr.ns, 0) else Header(s.dr.dhs, s.dr.pn, s.dr.ns);
                 && res.value.header == SealedHeader(hk.key, hk.nonce, EncodeHeader(h))
                 && res.value.ct == Sealed(MessageKey(if step then ChainKey(s.dr.rk, Dh(gen.value, s.dr.dhr)) else s.dr.cks.value),
                                           WithHeader(IdentityPrefix(cfg, true) + ad, res.value.header), text)
                 && t.dr.ns == (if h.n == 0xFFFF_FFFF then 0 else h.n + 1) && t.dr.pn == h.pn && t.dr.dhs == h.pk && !t.dr.pending
                 && t.hks == HeaderKey(hk.key, hk.nonce + 1))
  {
    hide IdentityPrefix, EncodeHeader;
  }

  /** Without entropy, or towards a remote key of low order, the call has already reset the counter and
      taken the next header key into use: made again, it has the outcome it would have had exactly if
      the counter stood at 0 before. Otherwise the message announces a previous length of 0. */
  lemma SendAgainExactly(cfg: Config, s: State, text: bytes, ad: bytes, gen: Option<key32>, text': bytes, ad': bytes, gen': Option<key32>)
    requires Encrypt(cfg, s, text, ad, gen).0 == Err(NoEntropy) || Encrypt(cfg, s, text, ad, gen).0 == Err(LowOrderPoint)
    ensures Encrypt(cfg, Encrypt(cfg, s, text, ad, gen).1, text', ad', gen') == Encrypt(cfg, s, text', ad', gen') <==> s.dr.ns == 0
    ensures var again := Encrypt(cfg, Encrypt(cfg, s, text, ad, gen).1, text', ad', gen').0;
            again.Ok? ==> again.value.header.header == EncodeHeader(Header(gen'.value, 0, 0))
  {
    hide IdentityPrefix, EncodeHeader;
    AgainPn(cfg, s, text, ad, gen, text', ad', gen');
    SendAnswer(cfg, s, text, ad, gen);
  }

  /** The length that is announced afterwards tells the two apart. */
  lemma AgainPn(cfg: Config, s: State, text: bytes, ad: bytes, gen: Option<key32>, text': bytes, ad': bytes, gen': Option<key32>)
    requires Encrypt(cfg, s, text, ad, gen).0 == Err(NoEntropy) || Encrypt(cfg, s, text, ad, gen).0 == Err(LowOrderPoint)
    ensures Encrypt(cfg, s, text', ad', gen').1.dr.pn == s.dr.ns
    ensures Encrypt(cfg, Encrypt(cfg, s, text, ad, gen).1, text', ad', gen').1.dr.pn == 0
  {
    hide IdentityPrefix, EncodeHeader;
  }

  // ---- Identities --------------------------------------------------------------------------

  /** What one session sends, delivered unaltered to any session that derives its key: it is accepted
      exactly if each of the two names the other. */
  lemma BoundToIdentities(a: Config, b: Config, s: State, p: State, text: bytes, ad: bytes, gen: Option<key32>)
    requires Encrypt(a, s, text, ad, gen).0.Ok?
    requires var m := Encrypt(a, s, text, ad, gen).0.value;
             m.ct.Sealed? && ReceiveKey(b, p, m.header).Ok? && ReceiveKey(b, p, m.header).value.0 == m.ct.key
    ensures var m := Encrypt(a, s, text, ad, gen).0.value;
            var (res, t) := Decrypt(b, p, m, ad);
            && res == (if a.local == b.remote && a.remote == b.local then Ok(text) else Err(AuthFailure))
            && (res.Err? ==> t == p)
  {
    hide ReceiveKey, RatchetSend, IdentityPrefix, EncodeHeader;
    OtherIdentities(a, b, [], ad);
  }

  /** So from the first message on. */
  lemma Strangers(a: Config, b: Config, sk: Key, hka: Key, nhkb: Key, bob: key32, alice: key32, text: bytes, ad: bytes)
    requires bob != ZERO32 && alice != ZERO32 && alice !in b.lowOrder && hka != Zeroed
    ensures var sent := Encrypt(a, InitInitiator(sk, hka, nhkb, bob, alice), text, ad, None).0;
            && sent.Ok?
            && Decrypt(b, InitResponder(sk, hka, nhkb, bob), sent.value, ad).0 ==
                 (if a.local == b.remote && a.remote == b.local then Ok(text) else Err(AuthFailure))
  {
    hide ReceiveKey, Encrypt, EncodeHeader, IdentityPrefix;
    var s, p := InitInitiator(sk, hka, nhkb, bob, alice), InitResponder(sk, hka, nhkb, bob);
    SendAnswer(a, s, text, ad, None);
    FirstKey(b, sk, hka, nhkb, bob, alice);
    BoundToIdentities(a, b, s, p, text, ad, None);
  }

  lemma FirstKey(b: Config, sk: Key, hka: Key, nhkb: Key, bob: key32, alice: key32)
    requires bob != ZERO32 && alice != ZERO32 && alice !in b.lowOrder && hka != Zeroed
    ensures var header := SealedHeader(hka, 0, EncodeHeader(Header(alice, 0, 0)));
            var res := ReceiveKey(b, InitResponder(sk, hka, nhkb, bob), header);
            res.Ok? && res.value.0 == MessageKey(ChainKey(sk, Dh(alice, bob)))
  {
    hide ReceiveKey, EncodeHeader, DecodeHeader, ServingId;
    var p, header := InitResponder(sk, hka, nhkb, bob), SealedHeader(hka, 0, EncodeHeader(Header(alice, 0, 0)));
    DecodeEncodeHeader(Header(alice, 0, 0));
    NextAnswer(b, p, header);
    DhCommutes(bob, alice);
    ZeroSteps(ChainKey(sk, Dh(bob, alice)));
  }
}
