/** A header that both a stored key and the current header key serve. */
module HeaderExample {
  import opened Bytes
  import opened Terms
  import opened Wire
  import opened SkippedQueue
  import opened History
  import opened HeaderSpec
  import opened HeaderRuns
  import Base = BaseRuns
  import HeaderTheorems

  /** The stored key and the current header key can both serve one header: the responder has
      received the second message ahead of the first, whose key is filed under the header key in
      use. */
  lemma FiledForCurrent(w: Base.World, bob: key32, alice: key32)
    requires Base.Proper(w) && KeysOk([bob, alice], w.init.lowOrder) && MaxSkip(w.resp) >= 1
    ensures Enabled(w, Start(bob, alice), Send(Initiator, [], [], None))
    ensures var s1 := Step(w, Start(bob, alice), Send(Initiator, [], [], None));
            && |s1.keys| == |s1.cnt| >= 2 && Enabled(w, s1, Send(Initiator, [], [], None))
            && var s2 := Step(w, s1, Send(Initiator, [], [], None));
            && |s2.keys| == |s2.cnt| >= 2 && |s2.log| == 2
            && Enabled(w, s2, Deliver(Responder, s2.log[1].msg, []))
            && var p := Step(w, s2, Deliver(Responder, s2.log[1].msg, [])).resp;
            && Filed(p.dr.skipped, s2.log[0].msg.header) && Opens(p.hkr.key, s2.log[0].msg.header)
  {
    hide Inv, KeysOk, HonestHeader, Decrypt, Encrypt;
    var s := Start(bob, alice);
    InvStart(w, bob, alice);
    SentFirst(w, s, 0);
    var s1 := Step(w, s, Send(Initiator, [], [], None));
    SentFirst(w, s1, 1);
    var s2 := Step(w, s1, Send(Initiator, [], [], None));
    assert s2.log[0] == s2.log[..1][0] && s2.resp == s.resp;
    LogHonest(w, s2, 0);
    LogHonest(w, s2, 1);
    ReadAhead(w, s2);
  }

  /** The initiator's sends from the start, one after the other. */
  lemma SentFirst(w: Base.World, s: System, n: nat)
    requires Base.Proper(w) && Inv(w, s) && |s.keys| == |s.cnt| == 2 && n <= 1 && |s.log| == n && s.cnt[1] == n
    requires !s.init.dr.pending && s.init.dr.ns == n && s.init.dr.cks.Some?
    ensures var t := Step(w, s, Send(Initiator, [], [], None));
            && Inv(w, t) && t.keys == s.keys && |t.cnt| == 2 && t.cnt[1] == n + 1 && t.resp == s.resp
            && |t.log| == n + 1 && t.log[..n] == s.log
            && t.log[n].epoch == 1 && t.log[n].header.n == n && t.log[n].ad == []
            && !t.init.dr.pending && t.init.dr.ns == n + 1 && t.init.dr.cks.Some?
  {
    hide Inv, Encrypt, Step, LogAt;
    SentEntry(w, s, Initiator, [], [], None);
    SendOnChainInv(w, s, Initiator, [], [], None);
    SendMoves(w, s);
    assert Owner(1).Initiator?;
  }

  lemma SendMoves(w: Base.World, s: System)
    requires !s.init.dr.pending && s.init.dr.ns <= 1 && s.init.dr.cks.Some?
    ensures var p := Encrypt(w.init, s.init, [], [], None).1;
            !p.dr.pending && p.dr.ns == s.init.dr.ns + 1 && p.dr.cks.Some?
    ensures |s.keys| == |s.cnt| >= 2 && |Step(w, s, Send(Initiator, [], [], None)).log| == |s.log| + 1 ==>
              Step(w, s, Send(Initiator, [], [], None)).log[|s.log|].ad == []
  {
    hide EncodeHeader, DecodeHeader;
  }

  /** What the responder makes of the second message when it comes first. */
  lemma ReadAhead(w: Base.World, s: System)
    requires Base.Proper(w) && Inv(w, s) && |s.keys| == |s.cnt| == 2 && |s.log| == 2 && MaxSkip(w.resp) >= 1
    requires s.log[0].epoch == 1 && s.log[1].epoch == 1 && s.log[0].header.n == 0 && s.log[1].header.n == 1 && s.log[1].ad == []
    requires s.resp.dr.chains == [] && s.resp.dr.skipped == [] && !s.resp.dr.pending && !s.resp.dr.dhRSet
    ensures var m := s.log[1].msg;
            && Obtainable(s, m) && Decrypt(w.resp, s.resp, m, []).0.Ok?
            && var p := Decrypt(w.resp, s.resp, m, []).1;
            && Filed(p.dr.skipped, s.log[0].msg.header) && Opens(p.hkr.key, s.log[0].msg.header)
  {
    hide PartyInv, KeysOk, LogAt, HonestHeader, ReceiveKey, HK, Filed, Opens;
    var m := s.log[1].msg;
    LogHonest(w, s, 0);
    LogHonest(w, s, 1);
    NothingFiled(s.resp, m.header);
    HeaderTheorems.DeliveryWindow(w, s, Responder, 1);
    ReadKey(w.resp, s.keys, s.cnt, s.resp, m.header, s.log[1].header, s.log[0].msg.header, s.log[0].header);
  }

  lemma NothingFiled(p: HeaderSpec.State, header: SealedHeader)
    requires p.dr.skipped == []
    ensures !Filed(p.dr.skipped, header)
  {}

  lemma ReadKey(cfg: Config, keys: seq<key32>, cnt: seq<nat>, p: HeaderSpec.State,
                header: SealedHeader, h: Header, header0: SealedHeader, h0: Header)
    requires |keys| == |cnt| == 2 && PartyInv(keys, cnt, Responder, p) && KeysOk(keys, cfg.lowOrder) && MaxSkip(cfg) >= 1
    requires p.dr.chains == [] && p.dr.skipped == [] && !p.dr.pending && !p.dr.dhRSet
    requires HonestHeader(keys, header, 1, h) && h.n == 1 && HonestHeader(keys, header0, 1, h0) && h0.n == 0
    requires ReceiveKey(cfg, p, header).Ok?
    ensures var p1 := ReceiveKey(cfg, p, header).value.1;
            Filed(p1.dr.skipped, header0) && Opens(p1.hkr.key, header0)
  {
    hide StoreInv, RatchetInv, KeysOk, ReceiveKey, ReceiveOnChain, RatchetRecv, HK, Filed, Opens, Has, StoreRange, Adv, C, EncodeHeader, DecodeHeader;
    HonestOpens(keys, header, 1, h);
    HonestOpens(keys, header0, 1, h0);
    OpenedBy(keys, 0, -1, p, header, 1, h);
    NothingFiled(p, header);
    NextOutcome(cfg, p, header, h);
    RatchetRecvKeepsParty(cfg, keys, cnt, Responder, p, h);
    var p1 := RatchetRecv(cfg, p, h, true).value;
    FirstEpoch(cfg, p, h);
    assert PartyInv(keys, cnt, Responder, p1);
    ReaderFacts(keys, cnt, p1);
    OnChainOutcome(cfg, keys, 1, p1, 1);
    FilesOne(MaxSkip(cfg), HeaderLabel(HK(keys, 1)), Adv(C(keys, 1), 0));
    FiledAvail(keys, 1, ReceiveOnChain(cfg, p1, 1).value.1, header0, 1, h0);
  }

  lemma FirstEpoch(cfg: Config, p: HeaderSpec.State, h: Header)
    requires p.dr.skipped == [] && !p.dr.dhRSet && RatchetRecv(cfg, p, h, true).Ok?
    ensures var p1 := RatchetRecv(cfg, p, h, true).value;
            p1.dr.skipped == [] && p1.dr.pending
  {}

  lemma ReaderFacts(keys: seq<key32>, cnt: seq<nat>, p: HeaderSpec.State)
    requires |keys| == |cnt| == 2 && PartyInv(keys, cnt, Responder, p) && p.dr.pending
    ensures Base.ChainsInv(keys, 1, p.dr.chains) && p.dr.dhr == keys[1] && p.hkr.key == HK(keys, 1)
  {
    hide StoreInv, HK, Base.ChainsInv;
  }

  lemma FilesOne(cap: nat, lab: Label, ck: Key)
    requires cap >= 1
    ensures Has(StoreRange(cap, [], lab, ck, 0, 1), Id(lab, 0))
  {
    var q := Put(cap, [], Entry(Id(lab, 0), MessageKey(ck)));
    assert q == [Entry(Id(lab, 0), MessageKey(ck))];
    HasMember(q, q[0]);
    assert StoreRange(cap, q, lab, NextChain(ck), 1, 1) == q;
  }
}
