/** How far a Triple Ratchet session has come, against what its peer has sent: the peer's next message
    is within reach exactly when the numbers of unread messages are, in both halves. The length of
    the previous epoch that a header announces may be altered on the way without notice, so that
    keys of positions that were never sent can be on file; but only of epochs that are over. */
module TripleGaps {
  import opened Bytes
  import opened Terms
  import opened Wire
  import opened SkippedQueue
  import opened History
  import opened TripleSpec
  import opened TripleRuns
  import opened TripleTheorems
  import Ec = RatchetSpec
  import Base = BaseRuns
  import Window = BaseTheorems
  import BaseReplay
  import BaseGaps
  import Pq = PqSpec
  import PqRuns
  import PqKeys
  import PqSystem
  import PqGaps

  // ---- The elliptic-curve half -------------------------------------------------------------

  /** No chain stands past the messages sent in its epoch, and no key of an unsent message of the
      epoch that the peer sends in is filed. */
  ghost predicate EcBounded(keys: seq<key32>, cnt: seq<nat>, r: Role, p: Ec.State)
    requires |keys| == |cnt| >= 2
  {
    var own := Base.OwnEpoch(keys, Peer(r));
    && (forall i, j :: 0 <= i < |p.chains| && 0 <= j < |keys| && p.chains[i].pk == keys[j] ==> p.chains[i].nr <= cnt[j])
    && (forall e :: e in p.skipped && e.id.lab == RatchetLabel(keys[own]) ==> e.id.n < cnt[own])
  }

  lemma EcRead(cfg: Config, keys: seq<key32>, cnt: seq<nat>, r: Role, p: Ec.State, h: Header, j: nat)
    requires |keys| == |cnt| >= 2 && EcBounded(keys, cnt, r, p) && KeysOk(keys, cfg.lowOrder) && Distinct(p.skipped)
    requires j < |keys| && h.pk == keys[j] && h.n < cnt[j] && Ec.ReceiveOnChain(cfg, p, h).Ok?
    ensures EcBounded(keys, cnt, r, Ec.ReceiveOnChain(cfg, p, h).value.1)
  {
    hide StoreRange, Adv, Distinct;
    var c := p.chains[Ec.FindChain(p.chains, h.pk)];
    StoreRangeFacts(MaxSkip(cfg), p.skipped, RatchetLabel(h.pk), c.ck, c.nr, h.n);
    var own := Base.OwnEpoch(keys, Peer(r));
    forall e | e in Ec.ReceiveOnChain(cfg, p, h).value.1.skipped && e.id.lab == RatchetLabel(keys[own])
      ensures e.id.n < cnt[own]
    {
      assert e in p.skipped || own == j;
    }
  }

  lemma EcLeave(cfg: Config, keys: seq<key32>, cnt: seq<nat>, r: Role, p: Ec.State, h: Header, pe: int)
    requires |keys| == |cnt| >= 2 && EcBounded(keys, cnt, r, p) && KeysOk(keys, cfg.lowOrder) && Distinct(p.skipped)
    requires -1 <= pe < |keys| && pe != Base.OwnEpoch(keys, Peer(r)) && p.dhRSet == (pe >= 0) && (pe >= 0 ==> p.dhr == keys[pe])
    requires Ec.RatchetRecv(cfg, p, h).Ok?
    ensures EcBounded(keys, cnt, r, Ec.RatchetRecv(cfg, p, h).value) && Distinct(Ec.RatchetRecv(cfg, p, h).value.skipped)
  {
    hide StoreRange, Distinct;
    var p1, i := Ec.RatchetRecv(cfg, p, h).value, Ec.PreviousChain(p);
    if i >= 0 {
      StoreRangeFacts(MaxSkip(cfg), p.skipped, RatchetLabel(p.dhr), p.chains[i].ck, p.chains[i].nr, h.pn);
    }
    forall k, l | 0 <= k < |p1.chains| && 0 <= l < |keys| && p1.chains[k].pk == keys[l]
      ensures p1.chains[k].nr <= cnt[l]
    {
      assert p1.chains[k] in p.chains || p1.chains[k].nr == 0;
    }
    var own := Base.OwnEpoch(keys, Peer(r));
    forall e | e in p1.skipped && e.id.lab == RatchetLabel(keys[own])
      ensures e.id.n < cnt[own]
    {
      assert e in p.skipped;
    }
  }

  lemma EcTake(keys: seq<key32>, cnt: seq<nat>, r: Role, p: Ec.State, id: Id)
    requires |keys| == |cnt| >= 2 && EcBounded(keys, cnt, r, p) && Distinct(p.skipped)
    ensures EcBounded(keys, cnt, r, p.(skipped := Remove(p.skipped, id)))
  {
    RemoveFacts(p.skipped, id);
  }

  /** Whatever previous length the header announces. */
  lemma EcKey(cfg: Config, keys: seq<key32>, cnt: seq<nat>, r: Role, p: Ec.State, h: Header, j: nat)
    requires |keys| == |cnt| >= 2 && Base.PartyInv(keys, cnt, r, p) && KeysOk(keys, cfg.lowOrder) && EcBounded(keys, cnt, r, p)
    requires Ec.ReceiveKey(cfg, p, h).Ok? && 1 <= j < |keys| && Ec.ReceiveKey(cfg, p, h).value.0 == MK(keys, j, h.n)
    requires h.pk == keys[j] && h.n < cnt[j]
    ensures EcBounded(keys, cnt, r, Ec.ReceiveKey(cfg, p, h).value.1)
  {
    hide Base.StoreInv, Base.ChainsInv, KeysOk, Ec.ReceiveOnChain, Ec.RatchetRecv, EcBounded;
    var pe := Base.PeerEpoch(keys, r, p);
    BaseReplay.StoreDistinct(keys, pe, p.skipped);
    if Window.InStore(p, h) {
      EcTake(keys, cnt, r, p, Id(RatchetLabel(h.pk), h.n));
    } else if Ec.Known(p, h.pk) {
      EcRead(cfg, keys, cnt, r, p, h, j);
    } else {
      Ec.NewEpochOutcome(cfg, p, h);
      Base.NextEpochOnly(keys, r, p, h.pk, h.n, j);
      EcLeave(cfg, keys, cnt, r, p, h, pe);
      EcRead(cfg, keys, cnt, r, Ec.RatchetRecv(cfg, p, h).value, h, j);
    }
  }

  /** More messages sent, and perhaps a new ratchet key of either party. */
  lemma EcSent(keys: seq<key32>, cnt: seq<nat>, keys': seq<key32>, cnt': seq<nat>, r: Role, p: Ec.State, q: Ec.State)
    requires |keys| == |cnt| >= 2 && Base.PartyInv(keys, cnt, r, p) && EcBounded(keys, cnt, r, p)
    requires q.chains == p.chains && q.skipped == p.skipped
    requires keys <= keys' && |keys'| == |cnt'| <= |keys| + 1 && forall j :: 0 <= j < |keys| ==> cnt[j] <= cnt'[j]
    requires forall j :: |keys| <= j < |keys'| ==> keys'[j] !in keys
    ensures EcBounded(keys', cnt', r, q)
  {
    hide R, C, Adv, MK;
    forall i, j | 0 <= i < |q.chains| && 0 <= j < |keys'| && q.chains[i].pk == keys'[j]
      ensures q.chains[i].nr <= cnt'[j]
    {
      assert Base.ChainAt(keys, Base.EpochAt(Base.PeerEpoch(keys, r, p), |p.chains|, i), p.chains[i]);
      assert keys'[j] in keys;
    }
    var own := Base.OwnEpoch(keys', Peer(r));
    forall e | e in q.skipped && e.id.lab == RatchetLabel(keys'[own])
      ensures e.id.n < cnt'[own]
    {
      var l :| Base.FiledAt(keys, l, e);
      assert keys'[own] in keys;
      SameOwn(keys, keys', Peer(r));
    }
  }

  lemma SameOwn(keys: seq<key32>, keys': seq<key32>, r: Role)
    requires |keys| >= 2 && keys <= keys' && |keys'| <= |keys| + 1
    ensures Base.OwnEpoch(keys', r) < |keys| ==> Base.OwnEpoch(keys', r) == Base.OwnEpoch(keys, r)
  {}

  /** The elliptic-curve half reaches the next message exactly when few enough are unread. */
  lemma EcReachExactly(cfg: Config, keys: seq<key32>, cnt: seq<nat>, cnt': seq<nat>, q: Role, p: Ec.State, h: Header)
    requires |keys| == |cnt| == |cnt'| >= 2 && Base.PartyInv(keys, cnt', q, p) && KeysOk(keys, cfg.lowOrder) && EcBounded(keys, cnt, q, p)
    requires var j := Base.OwnEpoch(keys, Peer(q));
             j >= 1 && h.pk == keys[j] && h.n == cnt[j] && h.pn == (if j >= 2 then cnt[j - 2] else 0)
    ensures var j, pe := Base.OwnEpoch(keys, Peer(q)), Base.PeerEpoch(keys, q, p);
            && pe < |cnt| && 0 <= BaseGaps.Unread(cnt, pe, p)
            && (EcReach(cfg, keys, q, p, h) <==> BaseGaps.NextInReach(cfg, cnt, pe, p, j))
  {
    hide Base.StoreInv, Base.ChainsInv, R, C, Adv;
    var j, pe := Base.OwnEpoch(keys, Peer(q)), Base.PeerEpoch(keys, q, p);
    Window.CurrentChain(keys, cfg.lowOrder, pe, p);
    Window.ChainsDistinct(keys, cfg.lowOrder, pe, p.chains);
    NotFiled(keys, cnt, q, p, h);
    if pe + 2 == j && Ec.Known(p, keys[j]) {
      Window.KnownIsReceived(keys, cnt', cfg.lowOrder, q, p, j);
    }
  }

  lemma NotFiled(keys: seq<key32>, cnt: seq<nat>, r: Role, p: Ec.State, h: Header)
    requires |keys| == |cnt| >= 2 && EcBounded(keys, cnt, r, p)
    requires var j := Base.OwnEpoch(keys, Peer(r)); h.pk == keys[j] && h.n >= cnt[j]
    ensures !Window.InStore(p, h)
  {}

  // ---- Both halves over a run --------------------------------------------------------------

  /** The post-quantum halves and what was sent, seen as a system of their own. */
  ghost function PqPart(s: Net): PqSystem.System {
    PqSystem.System(s.init.pq, s.resp.pq, PqLog(s.entries))
  }

  ghost function PqLog(entries: seq<TripleRuns.Entry>): seq<PqSystem.Sent> {
    seq(|entries|, i requires 0 <= i < |entries| =>
      PqSystem.Sent(Dir(entries[i].author), entries[i].pqEpoch, entries[i].pq, entries[i].ad, entries[i].text, entries[i].ct))
  }

  ghost predicate Within(s: Net) {
    && |s.keys| == |s.cnt| >= 2
    && EcBounded(s.keys, s.cnt, Initiator, s.init.ec) && EcBounded(s.keys, s.cnt, Responder, s.resp.ec)
    && PqGaps.AllBehind(PqPart(s))
  }

  lemma BeginWithin(bob: key32, alice: key32)
    ensures Within(Begin(bob, alice))
  {}

  // ---- Sending -----------------------------------------------------------------------------

  /** The counts and keys of the history once a send has gone out. */
  lemma EcTransmitted(w: Base.World, s: Net, v: Move)
    requires NetInv(w, s) && v.Transmit? && Allowed(w, s, v) && |s.keys| == |s.cnt| >= 2
    requires EcBounded(s.keys, s.cnt, Initiator, s.init.ec) && EcBounded(s.keys, s.cnt, Responder, s.resp.ec)
    requires Encrypt(Base.Cfg(w, v.sender), Side(s, v.sender), v.text, v.sendAd, v.gen, v.sendOut).0.Ok?
    ensures var t := Next(w, s, v);
            && |t.keys| == |t.cnt| >= 2
            && EcBounded(t.keys, t.cnt, Initiator, t.init.ec) && EcBounded(t.keys, t.cnt, Responder, t.resp.ec)
  {
    hide Base.StoreInv, Base.ChainsInv, KeysOk, PqKeys.KeyInv, EntryAt, EcBounded, Encrypt, Next, Ec.SendKey, Pq.SendKey, TripleAD, BuildAD;
    var t := Next(w, s, v);
    EcSize(w, s);
    TransmitParts(w, s, v);
    HistoryGrows(w, s, v.sender, v.gen);
    SendFrame(Base.Cfg(w, v.sender), Side(s, v.sender).ec, v.gen);
    EcSent(s.keys, s.cnt, t.keys, t.cnt, Initiator, s.init.ec, t.init.ec);
    EcSent(s.keys, s.cnt, t.keys, t.cnt, Responder, s.resp.ec, t.resp.ec);
  }

  lemma SendFrame(cfg: Config, p: Ec.State, gen: Option<key32>)
    ensures Ec.SendKey(cfg, p, gen).1.chains == p.chains && Ec.SendKey(cfg, p, gen).1.skipped == p.skipped
  {}

  lemma PqTransmitted(w: Base.World, s: Net, v: Move)
    requires NetInv(w, s) && v.Transmit? && Allowed(w, s, v) && |s.keys| == |s.cnt| >= 2 && PqGaps.AllBehind(PqPart(s))
    requires Encrypt(Base.Cfg(w, v.sender), Side(s, v.sender), v.text, v.sendAd, v.gen, v.sendOut).0.Ok?
    ensures PqGaps.AllBehind(PqPart(Next(w, s, v)))
  {
    hide Base.Inv, PqKeys.KeyInv, PqRuns.Wf, EntryAt, Encrypt, Next, Ec.SendKey, Pq.SendKey, TripleAD, BuildAD, PqGaps.Behind, PqGaps.Logged;
    var r, t, log := v.sender, Next(w, s, v), PqLog(s.entries);
    TransmitParts(w, s, v);
    PqKeys.KeysWf(Side(s, r).pq);
    PqGaps.SendKeyBehind(log, Dir(r), Side(s, r).pq, v.sendOut, Side(s, Peer(r)).pq);
    var entry := PqLog(t.entries)[|log|];
    assert PqLog(t.entries) == log + [entry];
    PqGaps.OtherLogged(log, Dir(Peer(r)), Side(s, Peer(r)).pq, entry);
  }

  // ---- Receiving ---------------------------------------------------------------------------

  lemma EcArrived(w: Base.World, s: Net, v: Move)
    requires Base.Proper(w) && NetInv(w, s) && Within(s) && v.Arrive? && Allowed(w, s, v)
    requires Decrypt(Base.Cfg(w, v.receiver), Side(s, v.receiver), v.msg, v.ad, v.recvOut).0.Ok?
    ensures EcBounded(s.keys, s.cnt, v.receiver, Next(w, s, v).init.ec) || v.receiver.Responder?
    ensures EcBounded(s.keys, s.cnt, v.receiver, Next(w, s, v).resp.ec) || v.receiver.Initiator?
  {
    hide Base.PartyInv, KeysOk, PqKeys.KeyInv, EntryAt, EcBounded, Decrypt, Ec.ReceiveKey, Pq.ReceiveKey, Ec.Returns, PqGaps.AllBehind, MK, PqKeys.MsgKey;
    var r, m := v.receiver, v.msg;
    var cfg := Base.Cfg(w, r);
    var i := Identify(w, s, r, m, v.ad, v.recvOut);
    ArriveParts(cfg, Side(s, r), m, v.ad, v.recvOut);
    EcNames(w, s, r, m.header.ec, s.entries[i].ecEpoch, s.entries[i].ec.n);
    EntryNumbered(w, s.keys, s.cnt, s.entries[i]);
    EcKey(cfg, s.keys, s.cnt, r, Side(s, r).ec, m.header.ec, s.entries[i].ecEpoch);
  }

  lemma PqArrived(w: Base.World, s: Net, v: Move)
    requires Base.Proper(w) && NetInv(w, s) && Within(s) && v.Arrive? && Allowed(w, s, v)
    requires Decrypt(Base.Cfg(w, v.receiver), Side(s, v.receiver), v.msg, v.ad, v.recvOut).0.Ok?
    ensures PqGaps.AllBehind(PqPart(Next(w, s, v)))
  {
    hide Base.Inv, PqKeys.KeyInv, PqRuns.Wf, EntryAt, EcBounded, Decrypt, Ec.ReceiveKey, Pq.ReceiveKey, Ec.Returns, PqGaps.Behind, PqGaps.Logged;
    var r, m, log := v.receiver, v.msg, PqLog(s.entries);
    var cfg, p, peer := Base.Cfg(w, r), Side(s, r).pq, Side(s, Peer(r)).pq;
    var i := Identify(w, s, r, m, v.ad, v.recvOut);
    ArriveParts(cfg, Side(s, r), m, v.ad, v.recvOut);
    PqKeys.KeysWf(p);
    assert log[i].author == Dir(Peer(r)) && log[i].epoch == s.entries[i].pqEpoch && log[i].header == s.entries[i].pq;
    PqGaps.LoggedAt(log, Dir(Peer(r)), peer, i);
    PqGaps.ReceiveKeyBehind(log, Dir(r), MaxSkip(cfg), p, v.recvOut, m.header.pq.value.n, peer);
  }

  lemma MoveWithin(w: Base.World, s: Net, v: Move)
    requires Base.Proper(w) && NetInv(w, s) && Within(s) && Allowed(w, s, v)
    ensures Within(Next(w, s, v))
  {
    hide Base.Inv, PqKeys.KeyInv, EntryAt, EcBounded, Encrypt, Decrypt, Ec.Returns, PqGaps.AllBehind, PqLog;
    if v.Transmit? {
      if Encrypt(Base.Cfg(w, v.sender), Side(s, v.sender), v.text, v.sendAd, v.gen, v.sendOut).0.Ok? {
        EcTransmitted(w, s, v);
        PqTransmitted(w, s, v);
      } else {
        EncryptAllOrNothing(Base.Cfg(w, v.sender), Side(s, v.sender), v.text, v.sendAd, v.gen, v.sendOut);
        NothingSent(w, s, v);
      }
    } else if Decrypt(Base.Cfg(w, v.receiver), Side(s, v.receiver), v.msg, v.ad, v.recvOut).0.Ok? {
      EcArrived(w, s, v);
      PqArrived(w, s, v);
    } else {
      FailedDecrypt(Base.Cfg(w, v.receiver), Side(s, v.receiver), v.msg, v.ad, v.recvOut);
    }
  }

  // ---- Over every run ----------------------------------------------------------------------

  lemma {:induction false} RunWithin(w: Base.World, s: Net, vs: seq<Move>, t: Net, got: multiset<nat>)
    requires Base.Proper(w) && NetInv(w, s) && Within(s) && TripleTheorems.Leads(w, s, vs, t, got)
    ensures NetInv(w, t) && Within(t)
    decreases |vs|
  {
    hide NetInv, Next, Allowed, Accepted, EcBounded, PqGaps.AllBehind, PqLog;
    if vs != [] {
      var rest :| got == Accepted(w, s, vs[0]) + rest && TripleTheorems.Leads(w, Next(w, s, vs[0]), vs[1..], t, rest);
      MoveInv(w, s, vs[0]);
      MoveWithin(w, s, vs[0]);
      RunWithin(w, Next(w, s, vs[0]), vs[1..], t, rest);
    }
  }

  lemma FromStart(w: Base.World, bob: key32, alice: key32, vs: seq<Move>, t: Net, got: multiset<nat>)
    requires Base.Proper(w) && KeysOk([bob, alice], w.init.lowOrder)
    requires TripleTheorems.Leads(w, Begin(bob, alice), vs, t, got)
    ensures NetInv(w, t) && Within(t)
  {
    hide NetInv, KeysOk, Within, TripleTheorems.Leads;
    BeginInv(w, bob, alice);
    BeginWithin(bob, alice);
    RunWithin(w, Begin(bob, alice), vs, t, got);
  }

  // ---- The next message --------------------------------------------------------------------

  /** The post-quantum half takes the provider's answer, still has the epoch, and is no more than
      the skip limit behind in it. */
  ghost predicate PqNextInReach(cfg: Config, p: Pq.State, answer: Pq.RecvOut, n: u32) {
    var advanced := Pq.Advance(p, answer.output, answer.keyEpoch, answer.epoch);
    && advanced.Ok? && PqGaps.Receives(advanced.value, answer.epoch)
    && n - advanced.value.chains[answer.epoch].recv.value.n <= MaxSkip(cfg)
  }

  /** The message counts before entry `e` was sent. */
  function Before(cnt: seq<nat>, e: TripleRuns.Entry): seq<nat>
    requires e.ecEpoch < |cnt|
  {
    cnt[e.ecEpoch := e.ec.n]
  }

  /** Whatever the network and the provider did before, the message that a party sends next, with a
      provider answer for its epoch, decrypts to its text exactly when few enough messages are
      unread in both halves. */
  lemma NextDecrypts(w: Base.World, s: Net, v: Move, answer: Pq.RecvOut)
    requires Base.Proper(w) && NetInv(w, s) && Within(s) && v.Transmit? && Allowed(w, s, v)
    requires Encrypt(Base.Cfg(w, v.sender), Side(s, v.sender), v.text, v.sendAd, v.gen, v.sendOut).0.Ok?
    requires v.sendOut.Some? && answer.epoch == v.sendOut.value.epoch
    requires PqKeys.Agreed(answer.output, answer.keyEpoch) && Side(s, Peer(v.sender)).pq.epoch < U32_MAX
    ensures var t, q := Next(w, s, v), Peer(v.sender);
            && |t.entries| == |s.entries| + 1 && |t.keys| == |t.cnt| >= 2
            && var e, p, cfg := t.entries[|s.entries|], Side(s, q), Base.Cfg(w, q);
            var pe := Base.PeerEpoch(t.keys, q, p.ec);
            && e.ecEpoch < |t.cnt| && pe < |t.cnt| && 0 <= BaseGaps.Unread(Before(t.cnt, e), pe, p.ec)
            && var res := Decrypt(cfg, Side(t, q), MessageOf(e), v.sendAd, Some(answer)).0;
            && (res.Ok? <==> BaseGaps.NextInReach(cfg, Before(t.cnt, e), pe, p.ec, e.ecEpoch) && PqNextInReach(cfg, p.pq, answer, e.pq.n))
            && (res.Ok? ==> res.value == v.text)
  {
    hide NetInv, Within, Encrypt, Decrypt, Next, Allowed, EcReach, PqReach, BaseGaps.Unread, BaseGaps.NextInReach, PqNextInReach, EntryAt;
    SentTogether(w, s, v);
    var t, q := Next(w, s, v), Peer(v.sender);
    EntryShape(w, s, v);
    MoveInv(w, s, v);
    PeerStays(w, s, v);
    EcNextReach(w, s, v);
    PqNextReach(w, s, v, answer);
    NewArrives(w, t, |s.entries|, answer);
    DeliveryWindow(w, t, |s.entries|, answer);
  }

  lemma PeerStays(w: Base.World, s: Net, v: Move)
    requires v.Transmit? && |s.keys| == |s.cnt| >= 2
    ensures Side(Next(w, s, v), Peer(v.sender)) == Side(s, Peer(v.sender))
  {
    hide Encrypt;
  }

  /** What is delivered unaltered right after it was sent is an allowed move. */
  lemma NewArrives(w: Base.World, t: Net, i: nat, answer: Pq.RecvOut)
    requires |t.keys| == |t.cnt| && i < |t.entries| && EntryAt(w, t.keys, t.cnt, t.entries[i])
    requires PqKeys.Agreed(answer.output, answer.keyEpoch) && Side(t, Peer(t.entries[i].author)).pq.epoch < U32_MAX
    ensures Allowed(w, t, Arrive(Peer(t.entries[i].author), MessageOf(t.entries[i]), t.entries[i].ad, Some(answer)))
  {
    hide TripleAD, MK, PqKeys.MsgKey, SecretBased;
    assert t.entries[i].ec.n < U32_MAX;
  }

  lemma EcNextReach(w: Base.World, s: Net, v: Move)
    requires Base.Proper(w) && NetInv(w, s) && Within(s) && v.Transmit? && Allowed(w, s, v)
    requires Encrypt(Base.Cfg(w, v.sender), Side(s, v.sender), v.text, v.sendAd, v.gen, v.sendOut).0.Ok?
    ensures var t, q := Next(w, s, v), Peer(v.sender);
            && |t.entries| == |s.entries| + 1 && |t.keys| == |t.cnt| >= 2
            && var e, p, cfg := t.entries[|s.entries|], Side(s, q).ec, Base.Cfg(w, q);
            var pe := Base.PeerEpoch(t.keys, q, p);
            && e.ecEpoch < |t.cnt| && pe < |t.cnt| && 0 <= BaseGaps.Unread(Before(t.cnt, e), pe, p)
            && (EcReach(cfg, t.keys, q, p, e.ec) <==> BaseGaps.NextInReach(cfg, Before(t.cnt, e), pe, p, e.ecEpoch))
  {
    hide NetInv, Within, EntryAt, EcBounded, Encrypt, Next, Allowed, Base.PartyInv, KeysOk, EcReach, BaseGaps.Unread, BaseGaps.NextInReach;
    SentTogether(w, s, v);
    var t, q := Next(w, s, v), Peer(v.sender);
    var e := t.entries[|s.entries|];
    EntryNumbered(w, t.keys, t.cnt, e);
    MoveInv(w, s, v);
    PeerStays(w, s, v);
    PartyOf(w, t, q);
    BoundedBefore(w, s, v);
    EcReachExactly(Base.Cfg(w, q), t.keys, Before(t.cnt, e), t.cnt, q, Side(s, q).ec, e.ec);
  }

  lemma PartyOf(w: Base.World, s: Net, r: Role)
    requires Base.Proper(w) && NetInv(w, s) && |s.keys| == |s.cnt| >= 2
    ensures Base.PartyInv(s.keys, s.cnt, r, Side(s, r).ec) && KeysOk(s.keys, Base.Cfg(w, r).lowOrder)
  {
    hide Base.PartyInv, KeysOk, PqKeys.KeyInv, EntryAt;
  }

  /** The peer of the sender is within the counts before the message. */
  lemma BoundedBefore(w: Base.World, s: Net, v: Move)
    requires Base.Proper(w) && NetInv(w, s) && Within(s) && v.Transmit? && Allowed(w, s, v)
    requires Encrypt(Base.Cfg(w, v.sender), Side(s, v.sender), v.text, v.sendAd, v.gen, v.sendOut).0.Ok?
    ensures var t := Next(w, s, v);
            && |t.entries| == |s.entries| + 1 && |t.keys| == |t.cnt| >= 2
            && var e := t.entries[|s.entries|];
            e.ecEpoch < |t.cnt| && EcBounded(t.keys, Before(t.cnt, e), Peer(v.sender), Side(s, Peer(v.sender)).ec)
  {
    hide NetInv, EntryAt, EcBounded, Encrypt, Next, Base.PartyInv, KeysOk, PqGaps.AllBehind, PqKeys.SendInRange, Ec.SendKey, Pq.SendKey, TripleAD;
    SentTogether(w, s, v);
    var t, q := Next(w, s, v), Peer(v.sender);
    EntryNumbered(w, t.keys, t.cnt, t.entries[|s.entries|]);
    PartyOf(w, s, q);
    TransmitParts(w, s, v);
    HistoryGrows(w, s, v.sender, v.gen);
    OwesWithFresh(w, s, v);
    EcSent(s.keys, s.cnt, t.keys, Before(t.cnt, t.entries[|s.entries|]), q, Side(s, q).ec, Side(s, q).ec);
  }

  lemma OwesWithFresh(w: Base.World, s: Net, v: Move)
    requires v.Transmit? && Allowed(w, s, v)
    ensures Side(s, v.sender).ec.pending ==> v.gen.Some? && v.gen.value !in s.keys
  {}

  lemma EntryNumbered(w: Base.World, keys: seq<key32>, cnt: seq<nat>, e: TripleRuns.Entry)
    requires |keys| == |cnt| && EntryAt(w, keys, cnt, e)
    ensures 1 <= e.ecEpoch < |cnt| && e.ec.pk == keys[e.ecEpoch] && e.ec.n < cnt[e.ecEpoch]
    ensures e.ec.pn == (if e.ecEpoch >= 2 then cnt[e.ecEpoch - 2] else 0)
  {
    hide TripleAD, MK, PqKeys.MsgKey;
  }

  lemma PqNextReach(w: Base.World, s: Net, v: Move, answer: Pq.RecvOut)
    requires Base.Proper(w) && NetInv(w, s) && Within(s) && v.Transmit? && Allowed(w, s, v)
    requires Encrypt(Base.Cfg(w, v.sender), Side(s, v.sender), v.text, v.sendAd, v.gen, v.sendOut).0.Ok?
    requires v.sendOut.Some? && answer.epoch == v.sendOut.value.epoch && Side(s, Peer(v.sender)).pq.epoch < U32_MAX
    ensures var t, q := Next(w, s, v), Peer(v.sender);
            && |t.entries| == |s.entries| + 1
            && var e, p, cfg := t.entries[|s.entries|], Side(s, q).pq, Base.Cfg(w, q);
            PqReach(cfg, p, answer, e.pqEpoch, e.pq.n) <==> PqNextInReach(cfg, p, answer, e.pq.n)
  {
    hide Base.Inv, PqKeys.KeyInv, PqRuns.Wf, EntryAt, EcBounded, Encrypt, Next, Ec.SendKey, Pq.SendKey, Pq.Advance, PqGaps.Behind, PqGaps.Logged, PqGaps.Sending;
    var r, q := v.sender, Peer(v.sender);
    var p, reader := Side(s, r).pq, Side(s, q).pq;
    EcSize(w, s);
    TransmitParts(w, s, v);
    SendShape(p, v.sendOut.value);
    PqKeys.KeysWf(p);
    PqKeys.KeysWf(reader);
    if Pq.Advance(reader, answer.output, answer.keyEpoch, answer.epoch).Ok? {
      PqGaps.NextAhead(PqLog(s.entries), Dir(r), p, reader, v.sendOut.value, answer);
    }
  }

  lemma SendShape(p: Pq.State, out: Pq.SendOut)
    requires Pq.SendKey(p, Some(out)).0.Ok?
    ensures Pq.Advance(p, out.output, out.keyEpoch, out.epoch).Ok?
    ensures var t := PqGaps.Sending(p, out);
            PqGaps.Sends(t, out.epoch) && Pq.SendKey(p, Some(out)).0.value.1 == t.chains[out.epoch].send.value.n
  {
    hide Pq.Advance, Pq.DropSend;
  }
}
