/** What every run of two Triple Ratchet sessions satisfies. */
module TripleTheorems {
  import opened Bytes
  import opened Terms
  import opened Wire
  import opened History
  import opened TripleSpec
  import opened TripleRuns
  import Ec = RatchetSpec
  import Base = BaseRuns
  import Window = BaseTheorems
  import Replay = BaseReplay
  import Pq = PqSpec
  import PqRuns
  import PqKeys
  import PqSystem

  // ---- All or nothing ----------------------------------------------------------------------

  /** A failed `Encrypt` leaves both halves as they were; a successful one has taken the step of
      either half that the two headers it sends together announce. */
  lemma EncryptAllOrNothing(cfg: Config, p: State, text: bytes, ad: bytes, gen: Option<key32>, out: Option<Pq.SendOut>)
    ensures var (res, t) := Encrypt(cfg, p, text, ad, gen, out);
            && (res.Err? <==> Ec.SendKey(cfg, p.ec, gen).0.Err? || Pq.SendKey(p.pq, out).0.Err?)
            && (res.Err? ==> t == p)
            && (res.Ok? ==> t == State(Ec.SendKey(cfg, p.ec, gen).1, Pq.SendKey(p.pq, out).1)
                            && t.ec.ns == Inc(res.value.header.ec.n)
                            && res.value.header.pq.Some?
                            && out.value.epoch in t.pq.chains && t.pq.chains[out.value.epoch].send.Some?
                            && t.pq.chains[out.value.epoch].send.value.n == Inc(res.value.header.pq.value.n))
  {
    hide BuildAD, EncodeTripleHeader;
  }

  /** The elliptic-curve half can still come to accept a position, and so can the post-quantum half. */
  ghost predicate EcUsable(s: Net, r: Role, p: State, pk: key32, n: u32)
    requires |s.keys| >= 2
  {
    Replay.Usable(s.keys, r, p.ec, pk, n)
  }

  ghost predicate PqUsable(p: State, e: u32, n: u32) {
    PqRuns.Avail(p.pq, e, n)
  }

  /** The accounts of one delivery. A failed call changes neither. A successful one spends a
      position of both halves and makes none usable; the post-quantum position is gone for good,
      and the elliptic-curve one stays usable exactly if it was filed and its chain still covers
      it, so that it is the post-quantum half that stops a repetition. */
  lemma DecryptAccounts(w: Base.World, s: Net, r: Role, m: TripleMessage, ad: bytes, out: Option<Pq.RecvOut>)
    requires Base.Proper(w) && NetInv(w, s) && Allowed(w, s, Arrive(r, m, ad, out))
    ensures |s.keys| == |s.cnt| >= 2
    ensures var p := Side(s, r);
            var (res, t) := Decrypt(Base.Cfg(w, r), p, m, ad, out);
            && (res.Err? ==> t == p)
            && (forall pk: key32, n: u32 :: EcUsable(s, r, t, pk, n) ==> EcUsable(s, r, p, pk, n))
            && (forall e: u32, n: u32 :: PqUsable(t, e, n) ==> PqUsable(p, e, n))
            && (res.Ok? ==>
                 && m.header.pq.Some? && out.Some?
                 && var h, e, n := m.header.ec, out.value.epoch, m.header.pq.value.n;
                 && PqUsable(p, e, n) && !PqUsable(t, e, n)
                 && EcUsable(s, r, p, h.pk, h.n)
                 && (EcUsable(s, r, t, h.pk, h.n) <==> Window.InStore(p.ec, h) && Replay.OnChain(p.ec, h.pk, h.n)))
  {
    hide Base.Inv, PqKeys.KeyInv, EntryAt, Ec.ReceiveKey, Pq.ReceiveKey, Decrypt, EcUsable, PqUsable, Allowed;
    var cfg, p := Base.Cfg(w, r), Side(s, r);
    EcSize(w, s);
    if Decrypt(cfg, p, m, ad, out).0.Ok? {
      ArriveParts(cfg, p, m, ad, out);
      EcAccount(w, s, r, m, ad, out);
      PqAccount(w, s, r, m, ad, out);
    } else {
      FailedDecrypt(cfg, p, m, ad, out);
    }
  }

  lemma EcAccount(w: Base.World, s: Net, r: Role, m: TripleMessage, ad: bytes, out: Option<Pq.RecvOut>)
    requires Base.Proper(w) && NetInv(w, s) && Allowed(w, s, Arrive(r, m, ad, out)) && |s.keys| == |s.cnt| >= 2
    requires Decrypt(Base.Cfg(w, r), Side(s, r), m, ad, out).0.Ok?
    ensures var p, t, h := Side(s, r), Decrypt(Base.Cfg(w, r), Side(s, r), m, ad, out).1, m.header.ec;
            && (forall pk: key32, n: u32 :: EcUsable(s, r, t, pk, n) ==> EcUsable(s, r, p, pk, n))
            && EcUsable(s, r, p, h.pk, h.n)
            && (EcUsable(s, r, t, h.pk, h.n) <==> Window.InStore(p.ec, h) && Replay.OnChain(p.ec, h.pk, h.n))
  {
    hide Base.PartyInv, KeysOk, PqKeys.KeyInv, EntryAt, Ec.ReceiveKey, Pq.ReceiveKey, Decrypt, Allowed, Replay.Usable, MK;
    var cfg, p, h := Base.Cfg(w, r), Side(s, r), m.header.ec;
    var i := Identify(w, s, r, m, ad, out);
    ArriveParts(cfg, p, m, ad, out);
    EcNames(w, s, r, h, s.entries[i].ecEpoch, s.entries[i].ec.n);
    Replay.KeyUses(cfg, s.keys, s.cnt, r, p.ec, h, s.entries[i].ecEpoch);
  }

  lemma PqAccount(w: Base.World, s: Net, r: Role, m: TripleMessage, ad: bytes, out: Option<Pq.RecvOut>)
    requires NetInv(w, s) && Allowed(w, s, Arrive(r, m, ad, out))
    requires Decrypt(Base.Cfg(w, r), Side(s, r), m, ad, out).0.Ok?
    ensures m.header.pq.Some? && out.Some?
    ensures var p, t := Side(s, r), Decrypt(Base.Cfg(w, r), Side(s, r), m, ad, out).1;
            && (forall e: u32, n: u32 :: PqUsable(t, e, n) ==> PqUsable(p, e, n))
            && PqUsable(p, out.value.epoch, m.header.pq.value.n) && !PqUsable(t, out.value.epoch, m.header.pq.value.n)
  {
    hide Base.Inv, PqKeys.KeyInv, PqRuns.Avail, PqRuns.Wf, EntryAt, Ec.ReceiveKey, Pq.ReceiveKey, Decrypt, Ec.Returns;
    var cfg, p := Base.Cfg(w, r), Side(s, r);
    var i := Identify(w, s, r, m, ad, out);
    ArriveParts(cfg, p, m, ad, out);
    PqKeys.KeysWf(p.pq);
    PqRuns.ReceiveConsumes(MaxSkip(cfg), p.pq, out, m.header.pq.value.n);
  }

  // ---- Runs --------------------------------------------------------------------------------

  /** Position in the log of the ciphertext `ct`, or the length of the log. */
  function Index(entries: seq<Entry>, ct: Ciphertext): (i: nat)
    ensures i <= |entries|
    ensures i < |entries| ==> entries[i].ct == ct
    ensures forall k :: 0 <= k < i ==> entries[k].ct != ct
  {
    if entries == [] then 0 else if entries[0].ct == ct then 0 else 1 + Index(entries[1..], ct)
  }

  /** The sent message that a move gets accepted, if any. */
  function Accepted(w: Base.World, s: Net, v: Move): multiset<nat> {
    if v.Arrive? && Decrypt(Base.Cfg(w, v.receiver), Side(s, v.receiver), v.msg, v.ad, v.recvOut).0.Ok?
    then multiset{Index(s.entries, v.msg.ct)}
    else multiset{}
  }

  /** The moves `vs`, each allowed when it is made, lead from `s` to `t`; `got` counts how often
      each sent message was accepted. */
  ghost predicate Leads(w: Base.World, s: Net, vs: seq<Move>, t: Net, got: multiset<nat>)
    decreases |vs|
  {
    if vs == [] then s == t && got == multiset{}
    else
      && |s.keys| == |s.cnt| >= 2
      && Allowed(w, s, vs[0])
      && exists rest :: got == Accepted(w, s, vs[0]) + rest && Leads(w, Next(w, s, vs[0]), vs[1..], t, rest)
  }

  lemma MoveInv(w: Base.World, s: Net, v: Move)
    requires Base.Proper(w) && NetInv(w, s) && Allowed(w, s, v)
    ensures |s.keys| == |s.cnt| >= 2 && NetInv(w, Next(w, s, v))
  {
    hide Base.Inv, PqKeys.KeyInv, EntryAt, Allowed, Next;
    EcSize(w, s);
    if v.Transmit? {
      TransmitInv(w, s, v);
    } else {
      ArriveInv(w, s, v);
    }
  }

  /** A send that fails changes nothing in the system. One that succeeds logs one entry: its two
      headers are the next positions of the sender's elliptic-curve epoch and of the reported
      post-quantum epoch, its key is made of the history's key and the agreed key at just those
      positions, and both counters have moved past them. */
  lemma SentTogether(w: Base.World, s: Net, v: Move)
    requires Base.Proper(w) && NetInv(w, s) && v.Transmit? && Allowed(w, s, v)
    ensures |s.keys| == |s.cnt| >= 2
    ensures var r, t := v.sender, Next(w, s, v);
            var res := Encrypt(Base.Cfg(w, r), Side(s, r), v.text, v.sendAd, v.gen, v.sendOut).0;
            && (res.Err? ==> t == s)
            && (res.Ok? ==>
                 && |t.entries| == |s.entries| + 1 && t.entries[..|s.entries|] == s.entries && |t.keys| == |t.cnt| >= 2
                 && var e, p := t.entries[|s.entries|], Side(t, r);
                 && EntryAt(w, t.keys, t.cnt, e) && e.author == r && e.ecEpoch == Base.OwnEpoch(t.keys, r)
                 && res.value == MessageOf(e) && e.ad == v.sendAd && e.text == v.text
                 && t.cnt[e.ecEpoch] == p.ec.ns == e.ec.n + 1
                 && e.pqEpoch in p.pq.chains && p.pq.chains[e.pqEpoch].send.Some?
                 && p.pq.chains[e.pqEpoch].send.value.n == e.pq.n + 1)
  {
    hide Base.Inv, PqKeys.KeyInv, EntryAt, Encrypt, Next, TripleAD;
    var r := v.sender;
    var cfg := Base.Cfg(w, r);
    EcSize(w, s);
    EncryptAllOrNothing(cfg, Side(s, r), v.text, v.sendAd, v.gen, v.sendOut);
    if Encrypt(cfg, Side(s, r), v.text, v.sendAd, v.gen, v.sendOut).0.Ok? {
      TransmitInv(w, s, v);
      NewEntry(w, s, v);
      EntryShape(w, s, v);
      EcSize(w, Next(w, s, v));
      CountIsNs(w, Next(w, s, v), r);
      EntryRange(w, Next(w, s, v), |s.entries|);
    } else {
      NothingSent(w, s, v);
    }
  }

  lemma EntryShape(w: Base.World, s: Net, v: Move)
    requires v.Transmit? && |s.keys| == |s.cnt| >= 2
    requires Encrypt(Base.Cfg(w, v.sender), Side(s, v.sender), v.text, v.sendAd, v.gen, v.sendOut).0.Ok?
    ensures var r, t := v.sender, Next(w, s, v);
            var (res, p) := Encrypt(Base.Cfg(w, r), Side(s, r), v.text, v.sendAd, v.gen, v.sendOut);
            && |t.entries| == |s.entries| + 1 && t.entries[..|s.entries|] == s.entries && |t.keys| == |t.cnt| >= 2
            && var e := t.entries[|s.entries|];
            && e.author == r && e.ecEpoch == Base.OwnEpoch(t.keys, r) && res.value == MessageOf(e) && e.ad == v.sendAd && e.text == v.text
            && v.sendOut.Some? && e.pqEpoch == v.sendOut.value.epoch && Side(t, r) == p
  {
    hide TripleAD, Ec.SendKey, Pq.SendKey;
    SendNeedsAnswer(Side(s, v.sender).pq, v.sendOut);
  }

  lemma NothingSent(w: Base.World, s: Net, v: Move)
    requires v.Transmit? && |s.keys| == |s.cnt| >= 2
    requires var (res, p) := Encrypt(Base.Cfg(w, v.sender), Side(s, v.sender), v.text, v.sendAd, v.gen, v.sendOut);
             res.Err? && p == Side(s, v.sender)
    ensures Next(w, s, v) == s
  {
    hide Encrypt;
  }

  lemma CountIsNs(w: Base.World, s: Net, r: Role)
    requires Base.Inv(w, EcPart(s))
    ensures |s.keys| == |s.cnt| >= 2 && Side(s, r).ec.ns == s.cnt[Base.OwnEpoch(s.keys, r)]
  {
    hide Base.StoreInv, Base.ChainsInv, KeysOk;
  }

  lemma EntryRange(w: Base.World, s: Net, i: nat)
    requires |s.keys| == |s.cnt| && i < |s.entries| && EntryAt(w, s.keys, s.cnt, s.entries[i])
    ensures s.entries[i].ec.n < U32_MAX && s.entries[i].pq.n < U32_MAX
  {
    hide TripleAD, MK, PqKeys.MsgKey;
  }

  // ---- At most once ------------------------------------------------------------------------

  /** The peer of its author can still come to accept entry `i`. */
  ghost predicate Open(s: Net, i: nat) {
    i < |s.entries| ==> PqUsable(Side(s, Peer(s.entries[i].author)), s.entries[i].pqEpoch, s.entries[i].pq.n)
  }

  lemma TransmitKeepsOpen(w: Base.World, s: Net, v: Move)
    requires NetInv(w, s) && v.Transmit? && Allowed(w, s, v) && |s.keys| == |s.cnt| >= 2
    ensures forall i :: Open(Next(w, s, v), i) ==> Open(s, i)
  {
    hide Base.Inv, PqKeys.KeyInv, PqRuns.Avail, EntryAt, Ec.SendKey, Pq.SendKey, BuildAD, PqRuns.Wf;
    PqKeys.KeysWf(Side(s, v.sender).pq);
    PqRuns.SendKeeps(Side(s, v.sender).pq, v.sendOut);
    var t := Next(w, s, v);
    assert forall i :: 0 <= i < |s.entries| ==> t.entries[i] == s.entries[i];
  }

  lemma ArriveConsumes(w: Base.World, s: Net, v: Move)
    requires Base.Proper(w) && NetInv(w, s) && v.Arrive? && Allowed(w, s, v) && |s.keys| == |s.cnt| >= 2
    ensures forall i :: Open(Next(w, s, v), i) ==> Open(s, i)
    ensures forall i :: i in Accepted(w, s, v) ==> Open(s, i) && !Open(Next(w, s, v), i)
  {
    hide Allowed, NetInv, PqUsable, EcUsable, EntryAt, Decrypt;
    var r, m := v.receiver, v.msg;
    DecryptAccounts(w, s, r, m, v.ad, v.recvOut);
    if Decrypt(Base.Cfg(w, r), Side(s, r), m, v.ad, v.recvOut).0.Ok? {
      var i := Identify(w, s, r, m, v.ad, v.recvOut);
      EntryNamed(w, s, Index(s.entries, m.ct), Peer(r), v.recvOut.value.epoch, m.header.pq.value.n);
    }
  }

  lemma MoveConsumes(w: Base.World, s: Net, v: Move)
    requires Base.Proper(w) && NetInv(w, s) && Allowed(w, s, v) && |s.keys| == |s.cnt| >= 2
    ensures forall i :: Open(Next(w, s, v), i) ==> Open(s, i)
    ensures forall i :: i in Accepted(w, s, v) ==> Open(s, i) && !Open(Next(w, s, v), i)
    ensures forall i :: Accepted(w, s, v)[i] <= 1
  {
    hide NetInv, Open, Next, Allowed, Decrypt;
    if v.Transmit? {
      TransmitKeepsOpen(w, s, v);
    } else {
      ArriveConsumes(w, s, v);
    }
  }

  /** At most once over every run: a sent message is accepted no more than once, whichever epoch
      the provider reports with it, and none that was used up becomes acceptable again. */
  lemma {:induction false} AtMostOnce(w: Base.World, s: Net, vs: seq<Move>, t: Net, got: multiset<nat>)
    requires Base.Proper(w) && NetInv(w, s) && Leads(w, s, vs, t, got)
    ensures NetInv(w, t)
    ensures forall i :: got[i] <= 1
    ensures forall i :: i in got ==> Open(s, i) && !Open(t, i)
    ensures forall i :: Open(t, i) ==> Open(s, i)
    decreases |vs|
  {
    hide NetInv, Open, Next, Allowed, Accepted;
    if vs != [] {
      var rest :| got == Accepted(w, s, vs[0]) + rest && Leads(w, Next(w, s, vs[0]), vs[1..], t, rest);
      MoveInv(w, s, vs[0]);
      MoveConsumes(w, s, vs[0]);
      AtMostOnce(w, Next(w, s, vs[0]), vs[1..], t, rest);
      forall i
        ensures got[i] <= 1
      {
        assert i in rest ==> i !in Accepted(w, s, vs[0]);
      }
    }
  }

  // ---- Both ratchets stay in step ----------------------------------------------------------

  /** In every run the elliptic-curve roots are in lock step and the post-quantum chains agree,
      in both directions. */
  lemma HalvesInStep(w: Base.World, bob: key32, alice: key32, vs: seq<Move>, t: Net, got: multiset<nat>, e: u32) returns (a: nat, b: nat)
    requires Base.Proper(w) && KeysOk([bob, alice], w.init.lowOrder)
    requires Leads(w, Begin(bob, alice), vs, t, got)
    ensures Window.LockStep(EcPart(t), a, b)
    ensures t.init.pq.epoch == t.resp.pq.epoch <==> t.init.pq.rk == t.resp.pq.rk
    ensures e in t.init.pq.chains && e in t.resp.pq.chains && t.init.pq.chains[e].send.Some? && t.resp.pq.chains[e].recv.Some? ==>
              t.init.pq.chains[e].send.value.ck == PqKeys.KeyAt(Pq.A2B, e, t.init.pq.chains[e].send.value.n)
              && t.resp.pq.chains[e].recv.value.ck == PqKeys.KeyAt(Pq.A2B, e, t.resp.pq.chains[e].recv.value.n)
    ensures e in t.init.pq.chains && e in t.resp.pq.chains && t.resp.pq.chains[e].send.Some? && t.init.pq.chains[e].recv.Some? ==>
              t.resp.pq.chains[e].send.value.ck == PqKeys.KeyAt(Pq.B2A, e, t.resp.pq.chains[e].send.value.n)
              && t.init.pq.chains[e].recv.value.ck == PqKeys.KeyAt(Pq.B2A, e, t.init.pq.chains[e].recv.value.n)
  {
    hide Base.Inv, PqKeys.KeyInv, EntryAt, KeysOk, Leads;
    BeginInv(w, bob, alice);
    AtMostOnce(w, Begin(bob, alice), vs, t, got);
    a, b := Window.InvLockStep(w, EcPart(t));
    PqKeys.ChainsAgree(t.init.pq, t.resp.pq, e);
  }

  // ---- The delivery window -----------------------------------------------------------------

  /** The elliptic-curve half reaches a header's position. */
  ghost predicate EcReach(cfg: Config, keys: seq<key32>, r: Role, p: Ec.State, h: Header)
    requires |keys| >= 2
  {
    Window.InStore(p, h) || Window.InChain(cfg, p, h) || Window.InNextEpoch(cfg, keys, r, p, h)
  }

  /** So does the post-quantum half, after taking in the provider's answer. */
  ghost predicate PqReach(cfg: Config, p: Pq.State, out: Pq.RecvOut, e: u32, n: u32) {
    && Pq.Advance(p, out.output, out.keyEpoch, out.epoch).Ok?
    && PqSystem.Reachable(MaxSkip(cfg), Pq.Advance(p, out.output, out.keyEpoch, out.epoch).value, e, n)
  }

  function MessageOf(e: Entry): TripleMessage {
    TripleMessage(TripleHeader(e.ec, Some(e.pq)), e.ct)
  }

  lemma EcWindow(w: Base.World, s: Net, r: Role, h: Header, j: nat)
    requires Base.Inv(w, EcPart(s)) && Base.Proper(w) && h.n < U32_MAX && 1 <= j < |s.keys| && h.pk == s.keys[j]
    ensures |s.keys| >= 2
    ensures Ec.ReceiveKey(Base.Cfg(w, r), Side(s, r).ec, h).Ok? && Ec.ReceiveKey(Base.Cfg(w, r), Side(s, r).ec, h).value.0 == MK(s.keys, j, h.n)
            <==> EcReach(Base.Cfg(w, r), s.keys, r, Side(s, r).ec, h)
  {
    hide Base.PartyInv, KeysOk, Ec.ReceiveKey, Window.InStore, Window.InChain, Window.InNextEpoch;
    Window.KeyWindow(Base.Cfg(w, r), s.keys, s.cnt, r, Side(s, r).ec, h, j);
  }

  /** The exact delivery window: an honest message decrypts to its text if and only if both
      halves reach it. */
  lemma DeliveryWindow(w: Base.World, s: Net, i: nat, out: Pq.RecvOut)
    requires Base.Proper(w) && NetInv(w, s) && i < |s.entries| && |s.keys| >= 2
    requires Allowed(w, s, Arrive(Peer(s.entries[i].author), MessageOf(s.entries[i]), s.entries[i].ad, Some(out)))
    requires out.epoch == s.entries[i].pqEpoch
    ensures var e := s.entries[i];
            var r := Peer(e.author);
            var cfg, p := Base.Cfg(w, r), Side(s, r);
            var res := Decrypt(cfg, p, MessageOf(e), e.ad, Some(out)).0;
            && (res.Ok? <==> EcReach(cfg, s.keys, r, p.ec, e.ec) && PqReach(cfg, p.pq, out, e.pqEpoch, e.pq.n))
            && (res.Ok? ==> res.value == e.text)
  {
    hide Base.Inv, PqKeys.KeyInv, PqRuns.Wf, Ec.ReceiveKey, Pq.ReceiveKey, EcReach, Pq.Advance, PqSystem.Reachable, MK, PqKeys.MsgKey, EncodeTripleHeader;
    var e := s.entries[i];
    var r := Peer(e.author);
    var cfg, p := Base.Cfg(w, r), Side(s, r);
    EcSize(w, s);
    assert EntryAt(w, s.keys, s.cnt, e);
    EcWindow(w, s, r, e.ec, e.ecEpoch);
    PqKeys.KeysWf(p.pq);
    PqSystem.ReceiveExactly(MaxSkip(cfg), p.pq, Some(out), e.pq.n);
    PqKeys.ReceiveKeys(MaxSkip(cfg), p.pq, Some(out), e.pq.n);
    PairedPrefix(Base.Cfg(w, e.author), cfg);
  }
}
