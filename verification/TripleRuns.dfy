/** Two Triple Ratchet sessions and the network between them. */
module TripleRuns {
  import opened Bytes
  import opened Terms
  import opened Wire
  import opened History
  import opened TripleSpec
  import Ec = RatchetSpec
  import Base = BaseRuns
  import opened BaseTheorems
  import Pq = PqSpec
  import opened PqKeys
  import opened PqSystem

  datatype Entry = Entry(author: Role, ecEpoch: nat, pqEpoch: u32, ec: Header, pq: SckaHeader, ad: bytes, text: bytes, ct: Ciphertext)

  datatype Net = Net(init: TripleSpec.State, resp: TripleSpec.State, keys: seq<key32>, cnt: seq<nat>, entries: seq<Entry>)

  function Side(s: Net, r: Role): TripleSpec.State {
    if r.Initiator? then s.init else s.resp
  }

  function SetSide(s: Net, r: Role, p: TripleSpec.State): Net {
    if r.Initiator? then s.(init := p) else s.(resp := p)
  }

  function Dir(r: Role): Pq.Direction {
    if r.Initiator? then Pq.A2B else Pq.B2A
  }

  /** The elliptic-curve halves, seen as a system of their own. */
  function EcPart(s: Net): Base.System {
    Base.System(s.init.ec, s.resp.ec, s.keys, s.cnt, [])
  }

  function Begin(bob: key32, alice: key32): Net {
    Net(State(Ec.InitInitiator(History.SK, bob, alice), Pq.Init(PqKeys.SK, Pq.A2B)),
        State(Ec.InitResponder(History.SK, bob), Pq.Init(PqKeys.SK, Pq.B2A)), [bob, alice], [0, 0], [])
  }

  datatype Move =
    | Transmit(sender: Role, text: bytes, sendAd: bytes, gen: Option<key32>, sendOut: Option<Pq.SendOut>)
    | Arrive(receiver: Role, msg: TripleMessage, ad: bytes, recvOut: Option<Pq.RecvOut>)

  ghost predicate Available(s: Net, ct: Ciphertext) {
    ct.Sealed? && SecretBased(ct.key) ==> exists i :: 0 <= i < |s.entries| && s.entries[i].ct == ct
  }

  ghost predicate Allowed(w: Base.World, s: Net, v: Move) {
    match v
    case Transmit(r, _, _, gen, out) =>
      && Side(s, r).ec.ns < U32_MAX && SendInRange(Side(s, r).pq)
      && (Side(s, r).ec.pending ==> gen.Some? && Fresh(s.keys, w.init.lowOrder, gen.value))
      && (out.Some? ==> Agreed(out.value.output, out.value.keyEpoch))
    case Arrive(r, m, _, out) =>
      && (m.header.pq.Some? ==> Ec.Returns(Base.Cfg(w, r), Side(s, r).ec, m.header.ec))
      && Side(s, r).pq.epoch < U32_MAX
      && (out.Some? ==> Agreed(out.value.output, out.value.keyEpoch))
      && Available(s, m.ct)
  }

  function Next(w: Base.World, s: Net, v: Move): Net
    requires |s.keys| == |s.cnt| >= 2
  {
    match v
    case Transmit(r, text, ad, gen, out) =>
      var (res, p) := Encrypt(Base.Cfg(w, r), Side(s, r), text, ad, gen, out);
      if res.Err? || out.None? || res.value.header.pq.None? then SetSide(s, r, p)
      else
        var (keys, cnt) := if Side(s, r).ec.pending && gen.Some? then (s.keys + [gen.value], s.cnt + [0]) else (s.keys, s.cnt);
        var j := Base.OwnEpoch(keys, r);
        var h := res.value.header;
        SetSide(s, r, p).(keys := keys, cnt := cnt[j := cnt[j] + 1],
                          entries := s.entries + [Entry(r, j, out.value.epoch, h.ec, h.pq.value, ad, text, res.value.ct)])
    case Arrive(r, m, ad, out) =>
      SetSide(s, r, Decrypt(Base.Cfg(w, r), Side(s, r), m, ad, out).1)
  }

  /** The elliptic-curve header of a sent message is the `h.n`-th of epoch `j`. */
  ghost predicate EcAt(keys: seq<key32>, cnt: seq<nat>, j: nat, h: Header)
    requires |keys| == |cnt|
  {
    && 1 <= j < |keys|
    && h.pk == keys[j] && h.n < cnt[j] && h.n < U32_MAX
    && h.pn == (if j >= 2 then cnt[j - 2] else 0)
  }

  ghost predicate EntryAt(w: Base.World, keys: seq<key32>, cnt: seq<nat>, e: Entry)
    requires |keys| == |cnt|
  {
    && EcAt(keys, cnt, e.ecEpoch, e.ec)
    && Owner(e.ecEpoch) == e.author && e.pq.n < U32_MAX
    && e.ct == Sealed(Hybrid(MsgKey(Dir(e.author), e.pqEpoch, e.pq.n), MK(keys, e.ecEpoch, e.ec.n)),
                      TripleAD(Base.Cfg(w, e.author), e.ec, e.pq, e.ad, true), e.text)
  }

  ghost predicate NetInv(w: Base.World, s: Net) {
    && Base.Inv(w, EcPart(s))
    && KeyInv(s.init.pq) && s.init.pq.dir == Pq.A2B
    && KeyInv(s.resp.pq) && s.resp.pq.dir == Pq.B2A
    && forall i :: 0 <= i < |s.entries| ==> EntryAt(w, s.keys, s.cnt, s.entries[i])
  }

  lemma BeginInv(w: Base.World, bob: key32, alice: key32)
    requires Base.Proper(w) && KeysOk([bob, alice], w.init.lowOrder)
    ensures NetInv(w, Begin(bob, alice))
  {
    hide KeyInv, KeysOk;
    Base.InvStart(w, bob, alice);
    InitKeys(Pq.A2B);
    InitKeys(Pq.B2A);
  }

  // ---- Sending -----------------------------------------------------------------------------

  /** The elliptic-curve half of a send is a send of the base ratchet, whose log is dropped. */
  lemma EcSend(w: Base.World, s: Net, r: Role, gen: Option<key32>)
    requires Base.Proper(w) && Base.Inv(w, EcPart(s)) && Base.Enabled(w, EcPart(s), Base.Send(r, [], [], gen))
    ensures var t := Base.Step(w, EcPart(s), Base.Send(r, [], [], gen));
            && Base.Inv(w, t.(log := []))
            && (Ec.SendKey(Base.Cfg(w, r), Side(s, r).ec, gen).0.Ok? ==>
                 var (h, mk) := Ec.SendKey(Base.Cfg(w, r), Side(s, r).ec, gen).0.value;
                 var j := Base.OwnEpoch(t.keys, r);
                 && EcAt(t.keys, t.cnt, j, h) && mk == MK(t.keys, j, h.n) && Owner(j) == r)
  {
    hide Base.Inv, Base.Step, Base.Enabled, Ec.SendKey, EcAt;
    var a := Base.Send(r, [], [], gen);
    EcSize(w, s);
    Base.StepInv(w, EcPart(s), a);
    EcLogged(w, s, r, gen);
    InvWithoutLog(w, Base.Step(w, EcPart(s), a));
  }

  lemma InvWithoutLog(w: Base.World, t: Base.System)
    requires Base.Inv(w, t)
    ensures Base.Inv(w, t.(log := []))
  {
    hide Base.PartyInv, KeysOk, Base.LogAt;
  }

  lemma EcLogged(w: Base.World, s: Net, r: Role, gen: Option<key32>)
    requires |s.keys| == |s.cnt| >= 2
    requires Base.Inv(w, Base.Step(w, EcPart(s), Base.Send(r, [], [], gen)))
    ensures var t := Base.Step(w, EcPart(s), Base.Send(r, [], [], gen));
            Ec.SendKey(Base.Cfg(w, r), Side(s, r).ec, gen).0.Ok? ==>
              var (h, mk) := Ec.SendKey(Base.Cfg(w, r), Side(s, r).ec, gen).0.value;
              var j := Base.OwnEpoch(t.keys, r);
              && EcAt(t.keys, t.cnt, j, h) && mk == MK(t.keys, j, h.n) && Owner(j) == r
  {
    hide Base.PartyInv, KeysOk, BuildAD, Ec.SendKey, R, Dh;
    var t := Base.Step(w, EcPart(s), Base.Send(r, [], [], gen));
    if Ec.SendKey(Base.Cfg(w, r), Side(s, r).ec, gen).0.Ok? {
      assert Base.LogAt(w, t.keys, t.cnt, t.log[0]);
    }
  }

  /** History only grows: the entries made so far stay what they were. */
  lemma EntryStays(w: Base.World, s: Net, r: Role, gen: Option<key32>, e: Entry)
    requires |s.keys| == |s.cnt| >= 2 && EntryAt(w, s.keys, s.cnt, e)
    requires Side(s, r).ec.pending ==> gen.Some? && Owner(|s.keys| - 1) != r
    ensures var (keys, cnt) := if Side(s, r).ec.pending && gen.Some? then (s.keys + [gen.value], s.cnt + [0]) else (s.keys, s.cnt);
            var j := Base.OwnEpoch(keys, r);
            EntryAt(w, keys, cnt[j := cnt[j] + 1], e)
  {
    hide TripleAD, MsgKey;
    if Side(s, r).ec.pending && gen.Some? {
      CExtends(s.keys, gen.value);
    }
  }

  /** What a successful send computes, half by half. */
  lemma TransmitParts(w: Base.World, s: Net, v: Move)
    requires |s.keys| == |s.cnt| >= 2 && v.Transmit?
    requires Encrypt(Base.Cfg(w, v.sender), Side(s, v.sender), v.text, v.sendAd, v.gen, v.sendOut).0.Ok?
    ensures var r, cfg := v.sender, Base.Cfg(w, v.sender);
            var ec, pq := Ec.SendKey(cfg, Side(s, r).ec, v.gen), Pq.SendKey(Side(s, r).pq, v.sendOut);
            var t, t1 := Base.Step(w, EcPart(s), Base.Send(r, [], [], v.gen)), Next(w, s, v);
            && ec.0.Ok? && pq.0.Ok? && v.sendOut.Some?
            && EcPart(t1) == t.(log := []) && Side(t1, r).pq == pq.1 && Side(t1, Peer(r)) == Side(s, Peer(r))
            && t1.entries == s.entries + [Entry(r, Base.OwnEpoch(t.keys, r), v.sendOut.value.epoch, ec.0.value.0,
                 SckaHeader(pq.0.value.0, pq.0.value.1), v.sendAd, v.text,
                 Sealed(Hybrid(pq.0.value.2, ec.0.value.1),
                        TripleAD(cfg, ec.0.value.0, SckaHeader(pq.0.value.0, pq.0.value.1), v.sendAd, true), v.text))]
  {
    hide TripleAD, BuildAD, Ec.SendKey, Pq.SendKey;
    SendNeedsAnswer(Side(s, v.sender).pq, v.sendOut);
  }

  lemma SendNeedsAnswer(s: Pq.State, out: Option<Pq.SendOut>)
    ensures Pq.SendKey(s, out).0.Ok? ==> out.Some?
  {}

  lemma HistoryGrows(w: Base.World, s: Net, r: Role, gen: Option<key32>)
    requires |s.keys| == |s.cnt| >= 2 && Ec.SendKey(Base.Cfg(w, r), Side(s, r).ec, gen).0.Ok?
    ensures var t := Base.Step(w, EcPart(s), Base.Send(r, [], [], gen));
            var (keys, cnt) := if Side(s, r).ec.pending && gen.Some? then (s.keys + [gen.value], s.cnt + [0]) else (s.keys, s.cnt);
            var j := Base.OwnEpoch(keys, r);
            t.keys == keys && t.cnt == cnt[j := cnt[j] + 1]
  {
    hide Ec.SendKey, BuildAD;
  }

  lemma TransmitInv(w: Base.World, s: Net, v: Move)
    requires Base.Proper(w) && NetInv(w, s) && v.Transmit? && Allowed(w, s, v)
    ensures NetInv(w, Next(w, s, v))
  {
    hide Base.Inv, KeyInv, EntryAt, Base.Step, TripleAD, Ec.SendKey, Pq.SendKey, SendInRange;
    var r, cfg := v.sender, Base.Cfg(w, v.sender);
    EcSize(w, s);
    if Encrypt(cfg, Side(s, r), v.text, v.sendAd, v.gen, v.sendOut).0.Ok? {
      EcSend(w, s, r, v.gen);
      TransmitParts(w, s, v);
      SendKeys(Side(s, r).pq, v.sendOut);
      TransmitEntries(w, s, v);
    }
  }

  lemma EcSize(w: Base.World, s: Net)
    requires Base.Inv(w, EcPart(s))
    ensures |s.keys| == |s.cnt| >= 2
    ensures forall r :: Side(s, r).ec.pending ==> Owner(|s.keys| - 1) != r
  {
    hide Base.StoreInv, Base.ChainsInv;
    forall r | Side(s, r).ec.pending
      ensures Owner(|s.keys| - 1) != r
    {
      Base.PartyOwner(w, EcPart(s), r);
    }
  }

  lemma TransmitEntries(w: Base.World, s: Net, v: Move)
    requires Base.Proper(w) && NetInv(w, s) && v.Transmit? && Allowed(w, s, v) && |s.keys| == |s.cnt| >= 2
    requires Encrypt(Base.Cfg(w, v.sender), Side(s, v.sender), v.text, v.sendAd, v.gen, v.sendOut).0.Ok?
    ensures var t := Next(w, s, v);
            |t.keys| == |t.cnt| && forall i :: 0 <= i < |t.entries| ==> EntryAt(w, t.keys, t.cnt, t.entries[i])
  {
    hide Base.Inv, KeyInv, Base.Step, TripleAD, Ec.SendKey, Pq.SendKey, SendInRange, EntryAt, Encrypt, Next;
    var r, t := v.sender, Next(w, s, v);
    EcSize(w, s);
    TransmitParts(w, s, v);
    HistoryGrows(w, s, r, v.gen);
    forall i | 0 <= i < |s.entries|
      ensures EntryAt(w, t.keys, t.cnt, s.entries[i])
    {
      EntryStays(w, s, r, v.gen, s.entries[i]);
    }
    NewEntry(w, s, v);
  }

  lemma NewEntry(w: Base.World, s: Net, v: Move)
    requires Base.Proper(w) && NetInv(w, s) && v.Transmit? && Allowed(w, s, v) && |s.keys| == |s.cnt| >= 2
    requires Encrypt(Base.Cfg(w, v.sender), Side(s, v.sender), v.text, v.sendAd, v.gen, v.sendOut).0.Ok?
    ensures var t := Next(w, s, v);
            |t.keys| == |t.cnt| && |t.entries| == |s.entries| + 1 && EntryAt(w, t.keys, t.cnt, t.entries[|s.entries|])
  {
    hide Base.Inv, KeyInv, Base.Step, TripleAD, Ec.SendKey, Pq.SendKey, SendInRange, Encrypt, Next, EcAt, MK, MsgKey;
    var r := v.sender;
    EcSize(w, s);
    EcSend(w, s, r, v.gen);
    TransmitParts(w, s, v);
    HistoryGrows(w, s, r, v.gen);
    SendKeys(Side(s, r).pq, v.sendOut);
  }

  // ---- Receiving ---------------------------------------------------------------------------

  /** What a successful delivery computes, half by half. */
  lemma ArriveParts(cfg: Config, p: TripleSpec.State, m: TripleMessage, ad: bytes, out: Option<Pq.RecvOut>)
    requires Decrypt(cfg, p, m, ad, out).0.Ok?
    ensures m.header.pq.Some? && out.Some?
    ensures var hs := m.header.pq.value;
            var ec, pq := Ec.ReceiveKey(cfg, p.ec, m.header.ec), Pq.ReceiveKey(MaxSkip(cfg), p.pq, out, hs.n);
            && ec.Ok? && pq.0.Ok?
            && m.ct == Sealed(Hybrid(pq.0.value.1, ec.value.0), TripleAD(cfg, m.header.ec, hs, ad, false), Decrypt(cfg, p, m, ad, out).0.value)
            && Decrypt(cfg, p, m, ad, out).1 == State(ec.value.1, pq.1)
  {
    hide TripleAD, Ec.ReceiveKey, Pq.ReceiveKey;
    if m.header.pq.Some? {
      ReceiveNeedsAnswer(MaxSkip(cfg), p.pq, out, m.header.pq.value.n);
    }
  }

  /** Which entry a delivered message is, and what its two keys then are. */
  lemma Identify(w: Base.World, s: Net, r: Role, m: TripleMessage, ad: bytes, out: Option<Pq.RecvOut>) returns (i: nat)
    requires NetInv(w, s) && Allowed(w, s, Arrive(r, m, ad, out))
    requires Decrypt(Base.Cfg(w, r), Side(s, r), m, ad, out).0.Ok?
    ensures m.header.pq.Some? && out.Some?
    ensures i < |s.entries| && EntryAt(w, s.keys, s.cnt, s.entries[i]) && 1 <= s.entries[i].ecEpoch < |s.keys|
    ensures s.entries[i].ct == m.ct && s.entries[i].author == Peer(r)
    ensures s.entries[i].pqEpoch == out.value.epoch && s.entries[i].pq.n == m.header.pq.value.n < U32_MAX
    ensures m.ct.Sealed? && m.ct.key.Hybrid? && m.ct.key.pq == MsgKey(Dir(Peer(r)), out.value.epoch, m.header.pq.value.n)
    ensures Ec.ReceiveKey(Base.Cfg(w, r), Side(s, r).ec, m.header.ec).Ok?
    ensures Ec.ReceiveKey(Base.Cfg(w, r), Side(s, r).ec, m.header.ec).value.0 == MK(s.keys, s.entries[i].ecEpoch, s.entries[i].ec.n)
  {
    hide Base.Inv, KeyInv, TripleAD, Ec.ReceiveKey, Pq.ReceiveKey, Decrypt, EntryAt, Ec.Returns;
    var cfg, p := Base.Cfg(w, r), Side(s, r);
    EcSize(w, s);
    ArriveParts(cfg, p, m, ad, out);
    var hs := m.header.pq.value;
    ReceiveKeys(MaxSkip(cfg), p.pq, out, hs.n);
    KeyAtSecret(Opposite(Dir(r)), out.value.epoch, hs.n);
    i := Copied(s, m.ct);
    EntryKeys(w, s.keys, s.cnt, s.entries[i]);
    KeyAtInjective(Opposite(Dir(r)), out.value.epoch, hs.n, Dir(s.entries[i].author), s.entries[i].pqEpoch, s.entries[i].pq.n);
  }

  lemma Copied(s: Net, ct: Ciphertext) returns (i: nat)
    requires Available(s, ct) && ct.Sealed? && SecretBased(ct.key)
    ensures i < |s.entries| && s.entries[i].ct == ct
  {
    i :| 0 <= i < |s.entries| && s.entries[i].ct == ct;
  }

  lemma EntryKeys(w: Base.World, keys: seq<key32>, cnt: seq<nat>, e: Entry)
    requires |keys| == |cnt| && EntryAt(w, keys, cnt, e)
    ensures 1 <= e.ecEpoch < |keys| && Owner(e.ecEpoch) == e.author && e.ct.Sealed? && e.pq.n < U32_MAX
    ensures e.ct.key == Hybrid(MsgKey(Dir(e.author), e.pqEpoch, e.pq.n), MK(keys, e.ecEpoch, e.ec.n))
  {}

  /** The post-quantum key of an entry names its author, epoch and position. */
  lemma EntryNamed(w: Base.World, s: Net, i: nat, r: Role, e: u32, n: u32)
    requires NetInv(w, s) && i < |s.entries| && s.entries[i].ct.Sealed? && s.entries[i].ct.key.Hybrid?
    requires s.entries[i].ct.key.pq == MsgKey(Dir(r), e, n)
    ensures s.entries[i].author == r && s.entries[i].pqEpoch == e && s.entries[i].pq.n == n
  {
    hide Base.Inv, KeyInv, TripleAD, EntryAt, MK;
    EcSize(w, s);
    EntryKeys(w, s.keys, s.cnt, s.entries[i]);
    KeyAtInjective(Dir(r), e, n, Dir(s.entries[i].author), s.entries[i].pqEpoch, s.entries[i].pq.n);
  }

  lemma EcNames(w: Base.World, s: Net, r: Role, h: Header, j: nat, n: nat)
    requires Base.Inv(w, EcPart(s))
    requires Ec.ReceiveKey(Base.Cfg(w, r), Side(s, r).ec, h).Ok?
    requires 1 <= j < |s.keys| && Ec.ReceiveKey(Base.Cfg(w, r), Side(s, r).ec, h).value.0 == MK(s.keys, j, n)
    ensures h.pk == s.keys[j] && h.n == n
    ensures |s.keys| == |s.cnt| >= 2 && Base.PartyInv(s.keys, s.cnt, r, Ec.ReceiveKey(Base.Cfg(w, r), Side(s, r).ec, h).value.1)
  {
    hide Base.PartyInv, KeysOk, Ec.ReceiveKey;
    KeyNames(Base.Cfg(w, r), s.keys, s.cnt, r, Side(s, r).ec, h, j, n);
    Base.DeliverKeepsParty(Base.Cfg(w, r), s.keys, s.cnt, r, Side(s, r).ec, h, j);
  }

  /** Delivery soundness: what a session accepts is an entry of its peer, with the same ratchet
      key, the same two positions and the same epoch; and with caller data of the sender's length
      it is that entry entirely, so both headers are the pair that was sent together. */
  lemma TripleSound(w: Base.World, s: Net, r: Role, m: TripleMessage, ad: bytes, out: Option<Pq.RecvOut>) returns (i: nat)
    requires Base.Proper(w) && NetInv(w, s) && Allowed(w, s, Arrive(r, m, ad, out))
    requires Decrypt(Base.Cfg(w, r), Side(s, r), m, ad, out).0.Ok?
    ensures m.header.pq.Some? && out.Some?
    ensures i < |s.entries| && s.entries[i].author == Peer(r) && s.entries[i].ct == m.ct
    ensures Decrypt(Base.Cfg(w, r), Side(s, r), m, ad, out).0 == Ok(s.entries[i].text)
    ensures m.header.ec.pk == s.entries[i].ec.pk && m.header.ec.n == s.entries[i].ec.n
    ensures s.entries[i].pqEpoch == out.value.epoch && m.header.pq.value.n == s.entries[i].pq.n
    ensures m.header.ec == s.entries[i].ec && m.header.pq.value == s.entries[i].pq && ad == s.entries[i].ad <==> |ad| == |s.entries[i].ad|
  {
    hide Base.Inv, KeyInv, Ec.ReceiveKey, Pq.ReceiveKey, Decrypt, BuildAD, Ec.Returns, MsgKey;
    i := Identify(w, s, r, m, ad, out);
    var e, cfg := s.entries[i], Base.Cfg(w, r);
    ArriveParts(cfg, Side(s, r), m, ad, out);
    EcNames(w, s, r, m.header.ec, e.ecEpoch, e.ec.n);
    TripleADExact(cfg, Base.Cfg(w, e.author), m.header.ec, m.header.pq.value, e.ec, e.pq, ad, e.ad, false, true);
  }

  lemma ArriveInv(w: Base.World, s: Net, v: Move)
    requires Base.Proper(w) && NetInv(w, s) && v.Arrive? && Allowed(w, s, v) && |s.keys| == |s.cnt| >= 2
    ensures NetInv(w, Next(w, s, v))
  {
    hide Base.PartyInv, KeysOk, KeyInv, EntryAt, Ec.ReceiveKey, Pq.ReceiveKey, Decrypt, Ec.Returns, MsgKey, MK;
    var r, cfg, m := v.receiver, Base.Cfg(w, v.receiver), v.msg;
    if Decrypt(cfg, Side(s, r), m, v.ad, v.recvOut).0.Ok? {
      var i := Identify(w, s, r, m, v.ad, v.recvOut);
      ArriveParts(cfg, Side(s, r), m, v.ad, v.recvOut);
      EcNames(w, s, r, m.header.ec, s.entries[i].ecEpoch, s.entries[i].ec.n);
      ReceiveKeys(MaxSkip(cfg), Side(s, r).pq, v.recvOut, m.header.pq.value.n);
    } else {
      FailedDecrypt(cfg, Side(s, r), m, v.ad, v.recvOut);
    }
  }

  /** All or nothing: a failed call leaves both halves as they were. */
  lemma FailedDecrypt(cfg: Config, p: TripleSpec.State, m: TripleMessage, ad: bytes, out: Option<Pq.RecvOut>)
    requires Decrypt(cfg, p, m, ad, out).0.Err?
    ensures Decrypt(cfg, p, m, ad, out).1 == p
  {}
}
