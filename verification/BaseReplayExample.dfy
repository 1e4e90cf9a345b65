/** A run in which the responder accepts one message twice, although its key was deleted from
    the store on first use: the store's promise does not extend to the retained chain. */
module BaseReplayExample {
  import opened Bytes
  import opened Terms
  import opened Wire
  import opened SkippedQueue
  import opened RatchetSpec
  import opened History
  import opened BaseRuns
  import opened BaseTheorems
  import opened BaseReplay

  const CFG := Config(0, 0, 0, {})
  const W := World(CFG, CFG)

  lemma {:induction false} LeadsThen(w: World, s: System, acts: seq<Action>, t: System, a: Action)
    requires Leads(w, s, acts, t) && |t.keys| == |t.cnt| >= 2 && Enabled(w, t, a)
    ensures Leads(w, s, acts + [a], Step(w, t, a))
    decreases |acts|
  {
    if acts == [] {
      assert [a][1..] == [];
      assert Leads(w, Step(w, t, a), [], Step(w, t, a));
    } else {
      assert (acts + [a])[1..] == acts[1..] + [a];
      LeadsThen(w, Step(w, s, acts[0]), acts[1..], t, a);
    }
  }

  lemma NextReachable(s: System, a: Action)
    requires Reachable(W, s) && |s.keys| == |s.cnt| >= 2 && Enabled(W, s, a)
    ensures Reachable(W, Step(W, s, a))
  {
    hide Step, Enabled, KeysOk;
    var bob, alice, acts :| KeysOk([bob, alice], {}) && Leads(W, Start(bob, alice), acts, s);
    LeadsThen(W, Start(bob, alice), acts, s, a);
  }

  /** One more message on a chain that owes no DH step. */
  lemma SendOne(s: System, r: Role) returns (t: System)
    requires Reachable(W, s) && Inv(W, s) && !Party(s, r).pending && Party(s, r).ns < U32_MAX && OwnEpoch(s.keys, r) != 0
    ensures Reachable(W, t) && Inv(W, t) && t.keys == s.keys && |t.log| == |s.log| + 1 && t.log[..|s.log|] == s.log
    ensures t.log[|s.log|].epoch == OwnEpoch(s.keys, r) && t.log[|s.log|].msg.header.n == s.cnt[OwnEpoch(s.keys, r)]
    ensures Party(t, Peer(r)) == Party(s, Peer(r)) && !Party(t, r).pending && Party(t, r).ns == Party(s, r).ns + 1
    ensures t.log[|s.log|].ad == [] && SameReader(Party(s, r), Party(t, r))
    ensures t.cnt == s.cnt[OwnEpoch(s.keys, r) := s.cnt[OwnEpoch(s.keys, r)] + 1]
    ensures |s.keys| == |s.cnt| >= 2 && t == Step(W, s, Send(r, [], [], None))
  {
    hide PartyInv, KeysOk, LogAt, Step, Encrypt, Reachable;
    var a := Send(r, [], [], None);
    assert Enabled(W, s, a);
    NextReachable(s, a);
    SentEntry(W, s, r, [], [], None);
    SendLeaves(s, r, None);
    CountsUp(Party(s, r));
    StepInv(W, s, a);
    t := Step(W, s, a);
  }

  lemma CountsUp(p: State)
    requires !p.pending && p.ns < U32_MAX && Encrypt(CFG, p, [], [], None).0.Ok?
    ensures var q := Encrypt(CFG, p, [], [], None).1;
            !q.pending && q.ns == p.ns + 1
  {
    hide BuildAD;
  }

  /** A message sent on taking the owed DH step. */
  lemma RatchetAndSend(s: System, r: Role, k: key32) returns (t: System)
    requires Reachable(W, s) && Inv(W, s) && Party(s, r).pending && Fresh(s.keys, {}, k)
    requires Party(s, r).ns < U32_MAX
    ensures Reachable(W, t) && Inv(W, t) && t.keys == s.keys + [k] && |t.log| == |s.log| + 1 && t.log[..|s.log|] == s.log
    ensures t.log[|s.log|].epoch == |s.keys| && t.log[|s.log|].msg.header.n == 0 && t.log[|s.log|].ad == []
    ensures Party(t, Peer(r)) == Party(s, Peer(r))
    ensures var p, q := Party(s, r), Party(t, r);
            !q.pending && SameReader(p, q)
    ensures |s.keys| >= 2 && |s.keys| == |s.cnt|
    ensures t.log[|s.log|].msg.header.pn == s.cnt[|s.keys| - 2]
    ensures |t.cnt| == |s.cnt| + 1 && forall i :: 0 <= i < |s.cnt| ==> t.cnt[i] == s.cnt[i]
  {
    hide PartyInv, KeysOk, LogAt, Step, Fresh;
    var a := Send(r, [], [], Some(k));
    assert Enabled(W, s, a);
    NextReachable(s, a);
    RatchetedInv(W, s, r, k);
    RatchetedShape(s, r, k);
    StepRatcheted(W, s, r, [], [], Some(k));
    SentEntry(W, Ratcheted(W, s, r, k), r, [], [], Some(k));
    StepInv(W, s, a);
    SendLeaves(s, r, Some(k));
    PendingSends(CFG, Party(s, r), [], [], Some(k));
    t := Step(W, s, a);
    EntryLength(t, |s.log|);
  }

  lemma RatchetedShape(s: System, r: Role, k: key32)
    requires Inv(W, s) && Party(s, r).pending
    ensures var t := Ratcheted(W, s, r, k);
            && RatchetSend(CFG, Party(s, r), Some(k)).0.None?
            && t.log == s.log && t.keys == s.keys + [k] && t.cnt == s.cnt + [0]
            && OwnEpoch(t.keys, r) == |s.keys|
  {
    hide StoreInv, ChainsInv, LogAt;
  }

  lemma EntryLength(s: System, i: nat)
    requires Inv(W, s) && i < |s.log| && s.log[i].epoch >= 2
    ensures s.log[i].epoch < |s.cnt| && s.log[i].msg.header.pn == s.cnt[s.log[i].epoch - 2]
  {
    assert LogAt(W, s.keys, s.cnt, s.log[i]);
  }

  ghost predicate SameReader(p: State, q: State) {
    q.chains == p.chains && q.skipped == p.skipped && q.dhr == p.dhr && q.dhRSet == p.dhRSet
  }

  lemma SendLeaves(s: System, r: Role, gen: Option<key32>)
    requires |s.keys| == |s.cnt| >= 2
    ensures var t := Step(W, s, Send(r, [], [], gen));
            && Party(t, Peer(r)) == Party(s, Peer(r))
            && SameReader(Party(s, r), Party(t, r))
            && Party(t, r) == Encrypt(CFG, Party(s, r), [], [], gen).1
  {
    hide Encrypt;
    EncryptFrame(CFG, Party(s, r), [], [], gen);
  }

  /** Delivering the first message of the peer's next epoch. */
  lemma DeliverFirst(s: System, r: Role, i: nat) returns (t: System)
    requires Reachable(W, s) && Inv(W, s) && i < |s.log| && s.log[i].ad == []
    requires s.log[i].epoch == PeerEpoch(s.keys, r, Party(s, r)) + 2 && Owner(s.log[i].epoch) == Peer(r)
    requires s.log[i].msg.header.n == 0
    requires PreviousChain(Party(s, r)) >= 0 ==>
               s.log[i].msg.header.pn <= Party(s, r).chains[PreviousChain(Party(s, r))].nr + 1000
    ensures Reachable(W, t) && Inv(W, t) && t.keys == s.keys && t.cnt == s.cnt && t.log == s.log
    ensures Party(t, Peer(r)) == Party(s, Peer(r))
    ensures ReceiveKey(CFG, Party(s, r), s.log[i].msg.header).Ok?
    ensures Party(t, r) == ReceiveKey(CFG, Party(s, r), s.log[i].msg.header).value.1
  {
    hide PartyInv, KeysOk, LogAt, ReceiveKey;
    var d := Deliver(r, s.log[i].msg, []);
    LogEpoch(W, s, i);
    RetentionWindow(W, s, r, i);
    NextReachable(s, d);
    StepInv(W, s, d);
    t := Step(W, s, d);
  }

  /** What the first message of an epoch leaves with a session that has read position 0 of one
      earlier chain, or of none. */
  lemma FirstOfEpoch(p: State, h: Header)
    requires h.n == 0 && p.skipped == [] && p.chains == [] && !Known(p, h.pk) && ReceiveKey(CFG, p, h).Ok?
    ensures var p1 := ReceiveKey(CFG, p, h).value.1;
            p1.pending && p1.dhRSet && p1.dhr == h.pk && p1.ns == p.ns && p1.skipped == [] && |p1.chains| == 1
            && p1.chains[0].pk == h.pk && p1.chains[0].nr == 1
  {
    NewEpochOutcome(CFG, p, h);
  }

  lemma SecondOfEpoch(p: State, h: Header)
    requires h.n == 0 && h.pn == 2 && p.skipped == [] && p.dhRSet && |p.chains| == 1
    requires p.chains[0].pk == p.dhr && p.chains[0].nr == 1 && p.dhr != h.pk && ReceiveKey(CFG, p, h).Ok?
    ensures var p1, left := ReceiveKey(CFG, p, h).value.1, Header(p.dhr, 0, 1);
            InStore(p1, left) && InChain(CFG, p1, left)
  {
    hide StoreRange, Adv;
    NewEpochOutcome(CFG, p, h);
    var p1 := ReceiveKey(CFG, p, h).value.1;
    var e := Entry(Id(RatchetLabel(p.dhr), 1), MessageKey(p.chains[0].ck));
    FilesOne(RatchetLabel(p.dhr), p.chains[0].ck);
    FilesNone([e], RatchetLabel(h.pk), ChainKey(p.rk, Dh(p.dhs, h.pk)));
    HasMember(p1.skipped, e);
    assert p1.chains[0].pk == p.dhr && p1.chains[0].nr == 1;
  }

  lemma FilesOne(lab: Label, ck: Key)
    ensures StoreRange(1000, [], lab, ck, 1, 2) == [Entry(Id(lab, 1), MessageKey(ck))]
  {
    var e := Entry(Id(lab, 1), MessageKey(ck));
    assert Put(1000, [], e) == [e];
    assert StoreRange(1000, [e], lab, NextChain(ck), 2, 2) == [e];
  }

  lemma FilesNone(q: seq<Entry>, lab: Label, ck: Key)
    ensures StoreRange(1000, q, lab, ck, 0, 0) == q
  {}

  lemma StartExample() returns (s: System)
    ensures s == Start(1, 2) && Reachable(W, s) && Inv(W, s)
  {
    s := Start(1, 2);
    assert Leads(W, s, [], s);
    InvStart(W, 1, 2);
  }

  lemma FirstExchange() returns (s: System)
    ensures Reachable(W, s) && Inv(W, s) && s.keys == [1, 2] && s.cnt == [0, 2] && |s.log| == 2
    ensures s.log[1].epoch == 1 && s.log[1].msg.header.n == 1 && s.log[1].ad == []
    ensures s.resp.pending && s.resp.dhRSet && s.resp.dhr == 2 && s.resp.skipped == [] && |s.resp.chains| == 1
    ensures s.resp.chains[0].pk == 2 && s.resp.chains[0].nr == 1
    ensures s.resp.ns == 0 && s.init.ns == 2 && !s.init.pending && s.init.chains == [] && s.init.skipped == [] && s.init.dhr == 1
  {
    hide Inv, LogAt, ReceiveKey, Step, Reachable, Encrypt;
    var s0 := StartExample();
    var s1 := SendOne(s0, Initiator);
    var s2 := SendOne(s1, Initiator);
    LogEpoch(W, s2, 0);
    s := DeliverFirst(s2, Responder, 0);
    FirstOfEpoch(s2.resp, s2.log[0].msg.header);
  }

  /** The responder answers, the initiator reads the answer and ratchets in turn. */
  lemma SecondExchange() returns (s: System)
    ensures Reachable(W, s) && Inv(W, s) && s.keys == [1, 2, 3, 4] && |s.log| == 4
    ensures s.log[1].epoch == 1 && s.log[1].msg.header.n == 1 && s.log[1].ad == []
    ensures s.log[3].epoch == 3 && s.log[3].msg.header.n == 0 && s.log[3].ad == [] && s.log[3].msg.header.pn == 2
    ensures !s.resp.pending && s.resp.dhRSet && s.resp.dhr == 2 && s.resp.skipped == [] && |s.resp.chains| == 1
    ensures s.resp.chains[0].pk == 2 && s.resp.chains[0].nr == 1
  {
    hide Inv, LogAt, ReceiveKey, Step;
    var s3 := FirstExchange();
    var s4 := RatchetAndSend(s3, Responder, 3);
    var s5 := DeliverFirst(s4, Initiator, 2);
    LogEpoch(W, s4, 2);
    FirstOfEpoch(s4.init, s4.log[2].msg.header);
    s := RatchetAndSend(s5, Initiator, 4);
  }

  /** The responder accepts the initiator's second message twice in a row. */
  lemma AcceptedTwice() returns (s: System, m: Message)
    ensures Reachable(W, s) && Enabled(W, s, Deliver(Responder, m, []))
    ensures Decrypt(CFG, s.resp, m, []).0.Ok?
    ensures Decrypt(CFG, Decrypt(CFG, s.resp, m, []).1, m, []).0.Ok?
  {
    hide Inv, LogAt, ReceiveKey, Step, Decrypt;
    var s6 := SecondExchange();
    LogEpoch(W, s6, 1);
    LogEpoch(W, s6, 3);
    s := DeliverFirst(s6, Responder, 3);
    SecondOfEpoch(s6.resp, s6.log[3].msg.header);
    m := s.log[1].msg;
    StillHeld(s, 1);
    RetentionWindow(W, s, Responder, 1);
    ReplayExactly(W, s, Responder, m, []);
  }

  lemma StillHeld(s: System, i: nat)
    requires i < |s.log| && s.log[i].epoch == 1 && s.log[i].msg.header.n < U32_MAX
    ensures Enabled(W, s, Deliver(Responder, s.log[i].msg, []))
  {}
}
