/** A run that brings a base session to the position on which its derivation loop does not end. */
module LastPositionExample {
  import opened Bytes
  import opened Terms
  import opened Wire
  import opened RatchetSpec
  import opened History
  import opened BaseRuns
  import opened BaseTheorems
  import opened BaseConversation
  import opened BaseReplayExample

  /** The initiator has sent `k` messages of its first epoch and the responder has read them all. */
  lemma {:induction false} ManyRead(k: nat) returns (s: System)
    requires k <= U32_MAX
    ensures Reachable(W, s) && Inv(W, s) && InStep(s)
    ensures s.keys == [1, 2] && s.cnt == [0, k] && !s.init.pending && s.init.ns == k
  {
    hide Inv, InStep, Step, Reachable, Encrypt;
    if k == 0 {
      s := StartExample();
      StartInStep(1, 2);
    } else {
      var s0 := ManyRead(k - 1);
      s := OneMore(s0, k - 1);
    }
  }

  lemma OneMore(s: System, k: nat) returns (t: System)
    requires Reachable(W, s) && Inv(W, s) && InStep(s) && k < U32_MAX
    requires s.keys == [1, 2] && s.cnt == [0, k] && !s.init.pending && s.init.ns == k
    ensures Reachable(W, t) && Inv(W, t) && InStep(t)
    ensures t.keys == [1, 2] && t.cnt == [0, k + 1] && !t.init.pending && t.init.ns == k + 1
  {
    hide Inv, InStep, Step, Reachable, Encrypt, Decrypt;
    var turn := Turn(Initiator, [], [], None);
    Sized(s);
    TurnWorks(W, s, turn);
    var s1 := SendOne(s, Initiator);
    var m := LastMessage(s1);
    t := AfterTurn(W, s, turn);
    DeliverLeaves(s1, m);
    assert Enabled(W, s1, Deliver(Responder, m, []));
    NextReachable(s1, Deliver(Responder, m, []));
  }

  lemma Sized(s: System)
    requires Inv(W, s)
    ensures |s.keys| == |s.cnt| >= 2
  {
    hide PartyInv, KeysOk, LogAt;
  }

  lemma DeliverLeaves(s: System, m: Message)
    requires |s.keys| == |s.cnt| >= 2
    ensures var t := Step(W, s, Deliver(Responder, m, []));
            t.keys == s.keys && t.cnt == s.cnt && t.init == s.init
  {
    hide Decrypt;
  }

  /** The state in which the responder has read positions 0 to 2^32 - 2 of the initiator's first
      epoch, and the header, made up by the network, for which its call does not come back. */
  lemma NeverReturnsReached() returns (s: System, h: Header)
    ensures Reachable(W, s) && Obtainable(s, Junk([]))
    ensures !Returns(CFG, s.resp, h) && ReceiveKey(CFG, s.resp, h) == Err(NeverReturns)
  {
    hide Inv, Reachable, ReceiveKey;
    s := ManyRead(U32_MAX);
    h := Header(2, 0, U32_MAX);
    ReaderAtEnd(s);
    ReturnsExactly(CFG, s.resp, h);
  }

  lemma ReaderAtEnd(s: System)
    requires Inv(W, s) && InStep(s) && s.keys == [1, 2] && s.cnt == [0, U32_MAX]
    ensures !Returns(CFG, s.resp, Header(2, 0, U32_MAX))
  {
    hide StoreInv, ChainsInv, LogAt, C, R, Adv, RatchetRecv;
    var p := s.resp;
    CurrentChain(s.keys, {}, PeerEpoch(s.keys, Responder, p), p);
  }
}
