/** How far a base session has come, against what its peer has sent: over every run a session has
    read no position that was not sent, so the peer's next message is within reach exactly when
    the number of unread messages is. */
module BaseGaps {
  import opened Bytes
  import opened Terms
  import opened Wire
  import opened SkippedQueue
  import opened RatchetSpec
  import opened History
  import opened BaseRuns
  import opened BaseTheorems
  import BaseReplay

  /** No chain stands past the messages sent in its epoch, and no key of an unsent one is filed. */
  ghost predicate Bounded(keys: seq<key32>, cnt: seq<nat>, p: State)
    requires |keys| == |cnt|
  {
    && (forall i, j :: 0 <= i < |p.chains| && 0 <= j < |keys| && p.chains[i].pk == keys[j] ==> p.chains[i].nr <= cnt[j])
    && (forall e, j :: e in p.skipped && 0 <= j < |keys| && e.id.lab == RatchetLabel(keys[j]) ==> e.id.n < cnt[j])
  }

  ghost predicate AllBounded(s: System) {
    && |s.keys| == |s.cnt| >= 2
    && Bounded(s.keys, s.cnt, s.init) && Bounded(s.keys, s.cnt, s.resp)
  }

  // ---- Every step keeps the bound ----------------------------------------------------------

  lemma ReadBounded(cfg: Config, keys: seq<key32>, cnt: seq<nat>, p: State, h: Header, j: nat)
    requires |keys| == |cnt| && Bounded(keys, cnt, p) && KeysOk(keys, cfg.lowOrder) && Distinct(p.skipped)
    requires j < |keys| && h.pk == keys[j] && h.n < cnt[j] && ReceiveOnChain(cfg, p, h).Ok?
    ensures Bounded(keys, cnt, ReceiveOnChain(cfg, p, h).value.1)
  {
    hide StoreRange, Adv, Distinct;
    var c := p.chains[FindChain(p.chains, h.pk)];
    StoreRangeFacts(MaxSkip(cfg), p.skipped, RatchetLabel(h.pk), c.ck, c.nr, h.n);
    forall e, l | e in ReceiveOnChain(cfg, p, h).value.1.skipped && 0 <= l < |keys| && e.id.lab == RatchetLabel(keys[l])
      ensures e.id.n < cnt[l]
    {
      assert e in p.skipped || l == j;
    }
  }

  lemma LeaveBounded(cfg: Config, keys: seq<key32>, cnt: seq<nat>, p: State, h: Header, pe: int)
    requires |keys| == |cnt| && Bounded(keys, cnt, p) && KeysOk(keys, cfg.lowOrder) && Distinct(p.skipped)
    requires -1 <= pe < |keys| && p.dhRSet == (pe >= 0) && (pe >= 0 ==> p.dhr == keys[pe] && h.pn <= cnt[pe])
    requires RatchetRecv(cfg, p, h).Ok?
    ensures Bounded(keys, cnt, RatchetRecv(cfg, p, h).value) && Distinct(RatchetRecv(cfg, p, h).value.skipped)
  {
    hide StoreRange, Distinct;
    var p1, i := RatchetRecv(cfg, p, h).value, PreviousChain(p);
    if i >= 0 {
      StoreRangeFacts(MaxSkip(cfg), p.skipped, RatchetLabel(p.dhr), p.chains[i].ck, p.chains[i].nr, h.pn);
    }
    forall k, l | 0 <= k < |p1.chains| && 0 <= l < |keys| && p1.chains[k].pk == keys[l]
      ensures p1.chains[k].nr <= cnt[l]
    {
      assert p1.chains[k] in p.chains || p1.chains[k].nr == 0;
    }
    forall e, l | e in p1.skipped && 0 <= l < |keys| && e.id.lab == RatchetLabel(keys[l])
      ensures e.id.n < cnt[l]
    {
      assert e in p.skipped || (l == pe && e.id.n < h.pn);
    }
  }

  lemma TakeBounded(keys: seq<key32>, cnt: seq<nat>, p: State, id: Id)
    requires |keys| == |cnt| && Bounded(keys, cnt, p) && Distinct(p.skipped)
    ensures Bounded(keys, cnt, p.(skipped := Remove(p.skipped, id)))
  {
    RemoveFacts(p.skipped, id);
  }

  lemma KeyBounded(cfg: Config, keys: seq<key32>, cnt: seq<nat>, r: Role, p: State, h: Header, j: nat)
    requires |keys| == |cnt| >= 2 && PartyInv(keys, cnt, r, p) && KeysOk(keys, cfg.lowOrder) && Bounded(keys, cnt, p)
    requires ReceiveKey(cfg, p, h).Ok? && 1 <= j < |keys| && ReceiveKey(cfg, p, h).value.0 == MK(keys, j, h.n)
    requires h.pk == keys[j] && h.n < cnt[j] && h.pn == (if j >= 2 then cnt[j - 2] else 0)
    ensures Bounded(keys, cnt, ReceiveKey(cfg, p, h).value.1)
  {
    hide StoreInv, ChainsInv, KeysOk, ReceiveOnChain, RatchetRecv, Bounded;
    var pe := PeerEpoch(keys, r, p);
    BaseReplay.StoreDistinct(keys, pe, p.skipped);
    if InStore(p, h) {
      TakeBounded(keys, cnt, p, Id(RatchetLabel(h.pk), h.n));
    } else if Known(p, h.pk) {
      ReadBounded(cfg, keys, cnt, p, h, j);
    } else {
      NewEpochOutcome(cfg, p, h);
      NextEpochOnly(keys, r, p, h.pk, h.n, j);
      LeaveBounded(cfg, keys, cnt, p, h, pe);
      ReadBounded(cfg, keys, cnt, RatchetRecv(cfg, p, h).value, h, j);
    }
  }

  lemma DeliverBounded(w: World, s: System, r: Role, m: Message, ad: bytes)
    requires Proper(w) && Inv(w, s) && AllBounded(s) && Obtainable(s, m.ct)
    ensures AllBounded(Step(w, s, Deliver(r, m, ad)))
  {
    hide PartyInv, KeysOk, LogAt, Bounded, ReceiveKey;
    if Decrypt(Cfg(w, r), Party(s, r), m, ad).0.Ok? {
      var i := DeliverySound(w, s, r, m, ad);
      DeliveredKey(w, s, r, m, ad, i);
      LogBounds(w, s, i);
      KeyBounded(Cfg(w, r), s.keys, s.cnt, r, Party(s, r), m.header, s.log[i].epoch);
    }
  }

  lemma LogBounds(w: World, s: System, i: nat)
    requires Inv(w, s) && i < |s.log|
    ensures var e := s.log[i];
            && 1 <= e.epoch < |s.keys| && e.msg.header.pk == s.keys[e.epoch] && e.msg.header.n < s.cnt[e.epoch]
            && e.msg.header.pn == (if e.epoch >= 2 then s.cnt[e.epoch - 2] else 0)
  {
    assert LogAt(w, s.keys, s.cnt, s.log[i]);
  }

  /** More messages sent, and perhaps a new ratchet key, loosen the bound. */
  lemma SentBounded(keys: seq<key32>, cnt: seq<nat>, keys': seq<key32>, cnt': seq<nat>, r: Role, p: State, q: State)
    requires |keys| == |cnt| >= 2 && PartyInv(keys, cnt, r, p) && Bounded(keys, cnt, p)
    requires q.chains == p.chains && q.skipped == p.skipped
    requires keys <= keys' && |keys'| == |cnt'| && forall j :: 0 <= j < |keys| ==> cnt[j] <= cnt'[j]
    requires forall j :: |keys| <= j < |keys'| ==> keys'[j] !in keys
    ensures Bounded(keys', cnt', q)
  {
    hide R, C, Adv, MK;
    forall i, j | 0 <= i < |q.chains| && 0 <= j < |keys'| && q.chains[i].pk == keys'[j]
      ensures q.chains[i].nr <= cnt'[j]
    {
      assert ChainAt(keys, EpochAt(PeerEpoch(keys, r, p), |p.chains|, i), p.chains[i]);
      assert keys'[j] in keys;
    }
    forall e, j | e in q.skipped && 0 <= j < |keys'| && e.id.lab == RatchetLabel(keys'[j])
      ensures e.id.n < cnt'[j]
    {
      var l :| FiledAt(keys, l, e);
      assert keys'[j] in keys;
    }
  }

  lemma SendBounded(w: World, s: System, r: Role, text: bytes, ad: bytes, gen: Option<key32>)
    requires Proper(w) && Inv(w, s) && AllBounded(s) && Enabled(w, s, Send(r, text, ad, gen))
    ensures AllBounded(Step(w, s, Send(r, text, ad, gen)))
  {
    hide PartyInv, KeysOk, LogAt, Bounded, Encrypt;
    var t := Step(w, s, Send(r, text, ad, gen));
    EverySend(w, s, r, text, ad, gen);
    EncryptFrame(Cfg(w, r), Party(s, r), text, ad, gen);
    SentBounded(s.keys, s.cnt, t.keys, t.cnt, Initiator, s.init, t.init);
    SentBounded(s.keys, s.cnt, t.keys, t.cnt, Responder, s.resp, t.resp);
  }

  lemma {:induction false} RunBounded(w: World, s: System, acts: seq<Action>, t: System)
    requires Proper(w) && Inv(w, s) && AllBounded(s) && Leads(w, s, acts, t)
    ensures Inv(w, t) && AllBounded(t)
    decreases |acts|
  {
    hide Inv, Step, Bounded, AllBounded, Returns;
    if acts != [] {
      StepInv(w, s, acts[0]);
      match acts[0] {
        case Send(r, text, ad, gen) => SendBounded(w, s, r, text, ad, gen);
        case Deliver(r, m, ad) => DeliverBounded(w, s, r, m, ad);
      }
      RunBounded(w, Step(w, s, acts[0]), acts[1..], t);
    }
  }

  /** In every reachable state. */
  lemma ReachableBounded(w: World, s: System)
    requires Proper(w) && Reachable(w, s)
    ensures Inv(w, s) && AllBounded(s)
  {
    hide Inv, Leads;
    var bob, alice, acts :| KeysOk([bob, alice], w.init.lowOrder) && Leads(w, Start(bob, alice), acts, s);
    InvStart(w, bob, alice);
    RunBounded(w, Start(bob, alice), acts, s);
  }

  // ---- The next message --------------------------------------------------------------------

  /** Messages of the epoch being read that the session has not reached. */
  function Unread(cnt: seq<nat>, pe: int, p: State): int
    requires pe < |cnt|
  {
    if pe < 1 || p.chains == [] then 0 else cnt[pe] - p.chains[|p.chains| - 1].nr
  }

  /** The next message a peer sends, in epoch `j`, is within reach: few enough are unread in the
      epoch being read and, where the message opens or continues the next one, in that too. */
  predicate NextInReach(cfg: Config, cnt: seq<nat>, pe: int, p: State, j: nat)
    requires pe < |cnt| && j < |cnt|
  {
    Unread(cnt, pe, p) <= MaxSkip(cfg) && (j != pe ==> cnt[j] <= MaxSkip(cfg))
  }

  /** The message counts once `r` has taken the step it may owe. */
  function Counts(s: System, r: Role): seq<nat> {
    if Party(s, r).pending then s.cnt + [0] else s.cnt
  }

  function Keys(s: System, r: Role, gen: Option<key32>): seq<key32> {
    if Party(s, r).pending && gen.Some? then s.keys + [gen.value] else s.keys
  }

  /** Whatever the network did before, the message that a party sends next, delivered at once,
      decrypts to its text exactly when the numbers of unread messages are within the skip limit. */
  lemma NextDecrypts(w: World, s: System, r: Role, text: bytes, ad: bytes, gen: Option<key32>)
    requires Proper(w) && Inv(w, s) && AllBounded(s) && Enabled(w, s, Send(r, text, ad, gen))
    requires Encrypt(Cfg(w, r), Party(s, r), text, ad, gen).0.Ok?
    ensures |Keys(s, r, gen)| == |Counts(s, r)| >= 2
    ensures var q, j := Peer(r), OwnEpoch(Keys(s, r, gen), r);
            var pe := PeerEpoch(Keys(s, r, gen), q, Party(s, q));
            var s1 := Step(w, s, Send(r, text, ad, gen));
            && |s1.log| == |s.log| + 1
            && pe < |Counts(s, r)| && 0 <= Unread(Counts(s, r), pe, Party(s, q))
            && var res := Decrypt(Cfg(w, q), Party(s1, q), s1.log[|s.log|].msg, ad).0;
            && (res.Ok? <==> NextInReach(Cfg(w, q), Counts(s, r), pe, Party(s, q), j))
            && (res.Ok? ==> res.value == text)
  {
    hide PartyInv, KeysOk, LogAt, Bounded, Encrypt, Decrypt, NextInReach, Unread, InStore, InChain, InNextEpoch, Fresh;
    var keys, cnt, q, s1 := Keys(s, r, gen), Counts(s, r), Peer(r), Step(w, s, Send(r, text, ad, gen));
    EverySend(w, s, r, text, ad, gen);
    StepInv(w, s, Send(r, text, ad, gen));
    StepBounded(w, s, r, gen);
    RetentionWindow(w, s1, q, |s.log|);
    LogBounds(w, s1, |s.log|);
    ReachExactly(Cfg(w, q), keys, cnt, s1.cnt, q, Party(s, q), s1.log[|s.log|].msg.header);
  }

  lemma StepBounded(w: World, s: System, r: Role, gen: Option<key32>)
    requires Inv(w, s) && AllBounded(s) && (Party(s, r).pending ==> gen.Some? && Fresh(s.keys, w.init.lowOrder, gen.value))
    ensures |Keys(s, r, gen)| == |Counts(s, r)| && Bounded(Keys(s, r, gen), Counts(s, r), Party(s, Peer(r)))
  {
    hide PartyInv, KeysOk, LogAt, Bounded;
    var q := Peer(r);
    SentBounded(s.keys, s.cnt, Keys(s, r, gen), Counts(s, r), q, Party(s, q), Party(s, q));
  }

  lemma ReachExactly(cfg: Config, keys: seq<key32>, cnt: seq<nat>, cnt': seq<nat>, q: Role, p: State, h: Header)
    requires |keys| == |cnt| == |cnt'| >= 2 && PartyInv(keys, cnt', q, p) && KeysOk(keys, cfg.lowOrder) && Bounded(keys, cnt, p)
    requires var j := OwnEpoch(keys, Peer(q));
             j >= 1 && h.pk == keys[j] && h.n == cnt[j] && h.pn == (if j >= 2 then cnt[j - 2] else 0)
    ensures var j, pe := OwnEpoch(keys, Peer(q)), PeerEpoch(keys, q, p);
            && pe < |cnt| && 0 <= Unread(cnt, pe, p)
            && (InStore(p, h) || InChain(cfg, p, h) || InNextEpoch(cfg, keys, q, p, h) <==> NextInReach(cfg, cnt, pe, p, j))
  {
    hide StoreInv, ChainsInv, R, C, Adv;
    var j, pe := OwnEpoch(keys, Peer(q)), PeerEpoch(keys, q, p);
    CurrentChain(keys, cfg.lowOrder, pe, p);
    ChainsDistinct(keys, cfg.lowOrder, pe, p.chains);
    NotFiled(keys, cnt, p, h, j);
    if pe + 2 == j && Known(p, keys[j]) {
      KnownIsReceived(keys, cnt', cfg.lowOrder, q, p, j);
    }
  }

  lemma NotFiled(keys: seq<key32>, cnt: seq<nat>, p: State, h: Header, j: nat)
    requires |keys| == |cnt| && Bounded(keys, cnt, p) && j < |keys| && h.pk == keys[j] && h.n >= cnt[j]
    ensures !InStore(p, h)
  {}

  // ---- Calls that come back ----------------------------------------------------------------

  /** While no epoch comes within the skip limit of the largest position, every call comes back,
      whatever header the network makes up. */
  lemma EveryCallReturns(w: World, s: System, r: Role, h: Header)
    requires Proper(w) && Inv(w, s) && AllBounded(s)
    requires MaxSkip(Cfg(w, r)) < U32_MAX && forall j :: 0 <= j < |s.cnt| ==> s.cnt[j] + MaxSkip(Cfg(w, r)) < U32_MAX
    ensures Returns(Cfg(w, r), Party(s, r), h)
  {
    hide RatchetRecv, PushChain;
    var cfg, p := Cfg(w, r), Party(s, r);
    NotReached(cfg, s.keys, s.cnt, r, p, h);
    if !Known(p, h.pk) && RatchetRecv(cfg, p, h).Ok? {
      StepStandsAtZero(cfg, p, h);
    }
  }

  lemma NotReached(cfg: Config, keys: seq<key32>, cnt: seq<nat>, r: Role, p: State, h: Header)
    requires |keys| == |cnt| >= 2 && PartyInv(keys, cnt, r, p) && Bounded(keys, cnt, p)
    requires forall j :: 0 <= j < |cnt| ==> cnt[j] + MaxSkip(cfg) < U32_MAX
    ensures h.n == U32_MAX ==> !Reaches(cfg, p.chains, h)
  {
    hide StoreInv, ChainsInv, R, C, Adv;
    var i := FindChain(p.chains, h.pk);
    if i >= 0 {
      var j := RetainedKey(keys, PeerEpoch(keys, r, p), p.chains, i, p.chains[i].nr);
    }
  }

  lemma StepStandsAtZero(cfg: Config, p: State, h: Header)
    requires RatchetRecv(cfg, p, h).Ok? && !Known(p, h.pk) && MaxSkip(cfg) < U32_MAX
    ensures h.n == U32_MAX ==> !Reaches(cfg, RatchetRecv(cfg, p, h).value.chains, h)
  {
    hide StoreRange;
    var chains := RatchetRecv(cfg, p, h).value.chains;
    forall k | 0 <= k < |chains| - 1
      ensures chains[k].pk != h.pk
    {
      assert chains[k] in p.chains;
    }
  }
}
