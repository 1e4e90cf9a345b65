/** Associated data is concatenated without lengths: messages that are accepted although header and
    caller data are not the sender's. */
module UnframedExample {
  import opened Bytes
  import opened Terms
  import opened Wire
  import opened History
  import Base = BaseRuns
  import Ec = RatchetSpec
  import Pq = PqSpec
  import PqKeys
  import PqSystem
  import TripleSpec
  import TripleRuns

  // ---- The post-quantum session ------------------------------------------------------------

  const PQ_SEND := PqSystem.Send(Pq.A2B, Some(Pq.SendOut([0, 0, 0, 0], 0, Pq.NoKey, 0)), [], [])

  const REPLY := Pq.RecvOut(0, Pq.NoKey, 0)

  /** The first message from the start, with the four zero bytes of the key-agreement message moved
      into the caller's data. */
  lemma PqAltered(w: PqSystem.World)
    requires Paired(w.a, w.b)
    ensures PqSystem.Enabled(PqSystem.START, PQ_SEND)
    ensures var s := PqSystem.Step(w, PqSystem.START, PQ_SEND);
            && |s.log| == 1 && s.log[0].header == SckaHeader([0, 0, 0, 0], 0) && s.log[0].ad == []
            && PqSystem.Enabled(s, PqSystem.Deliver(Pq.B2A, Some(REPLY), SckaHeader([], 0), s.log[0].ct, [0, 0, 0, 4]))
            && Pq.Decrypt(w.b, s.b, Some(REPLY), SckaHeader([], 0), s.log[0].ct, [0, 0, 0, 4]).0 == Ok([])
  {
    hide EncodeSckaHeader, IdentityPrefix;
    PairedPrefix(w.a, w.b);
    SckaADAmbiguous(w.b, 0, false);
    SameSckaAD(w.a, w.b, SckaHeader([0, 0, 0, 0], 0));
    FirstPqKeys([0, 0, 0, 0]);
  }

  lemma SameSckaAD(a: Config, b: Config, h: SckaHeader)
    requires IdentityPrefix(a, true) == IdentityPrefix(b, false)
    ensures BuildAD(a, EncodeSckaHeader(h), [], true) == BuildAD(b, EncodeSckaHeader(h), [], false)
  {}

  const FIRST := PqMessage(PqChainA(PqKeys.SK, Zeroed), 0)

  // ---- The Triple Ratchet ------------------------------------------------------------------

  /** The initiator's first elliptic-curve header. */
  function FirstHeader(alice: key32): Header {
    Header(alice, 0, 0)
  }

  function TripleSend(alice: key32): TripleRuns.Move {
    TripleRuns.Transmit(Initiator, [], [], None, Some(Pq.SendOut(EncodeHeader(FirstHeader(alice)) + [0, 0, 0, 0], 0, Pq.NoKey, 0)))
  }

  /** That header without the key-agreement message, over a sent ciphertext. */
  function TripleAltered(alice: key32, ct: Ciphertext): TripleSpec.TripleMessage {
    TripleSpec.TripleMessage(TripleSpec.TripleHeader(FirstHeader(alice), Some(SckaHeader([], 0))), ct)
  }

  /** The first message from the start, of which a copy of the elliptic-curve header is moved out of
      the key-agreement message into the caller's data. */
  lemma TripleAccepted(w: Base.World, bob: key32, alice: key32)
    requires Base.Proper(w) && KeysOk([bob, alice], w.init.lowOrder)
    ensures TripleRuns.Allowed(w, TripleRuns.Begin(bob, alice), TripleSend(alice))
    ensures var s := TripleRuns.Next(w, TripleRuns.Begin(bob, alice), TripleSend(alice));
            && |s.entries| == 1 && s.entries[0].ec == FirstHeader(alice) && s.entries[0].ad == []
            && s.entries[0].pq == SckaHeader(EncodeHeader(FirstHeader(alice)) + [0, 0, 0, 0], 0)
            && var m, ad := TripleAltered(alice, s.entries[0].ct), EncodeHeader(FirstHeader(alice)) + [0, 0, 0, 44];
            && TripleRuns.Allowed(w, s, TripleRuns.Arrive(Responder, m, ad, Some(REPLY)))
            && TripleSpec.Decrypt(w.resp, s.resp, m, ad, Some(REPLY)).0 == Ok([])
  {
    hide KeysOk, EncodeHeader, Ec.SendKey, Ec.ReceiveKey, Pq.SendKey, Pq.ReceiveKey, BuildAD, Ec.Returns;
    FirstTriple(w, bob, alice);
    SameTripleAD(w.init, w.resp, FirstHeader(alice));
    FirstEcKeys(w, bob, alice);
    FirstPqKeys(EncodeHeader(FirstHeader(alice)) + [0, 0, 0, 0]);
  }

  lemma FirstTriple(w: Base.World, bob: key32, alice: key32)
    ensures TripleRuns.Allowed(w, TripleRuns.Begin(bob, alice), TripleSend(alice))
  {}

  lemma SameTripleAD(a: Config, b: Config, h: Header)
    requires Paired(a, b)
    ensures BuildAD(a, EncodeTripleHeader(h, SckaHeader(EncodeHeader(h) + [0, 0, 0, 0], 0)), [], true)
            == BuildAD(b, EncodeTripleHeader(h, SckaHeader([], 0)), EncodeHeader(h) + [0, 0, 0, 44], false)
  {
    hide EncodeTripleHeader, EncodeHeader, IdentityPrefix;
    PairedPrefix(a, b);
    TripleADAmbiguous(b, h, 0, false);
  }

  /** Both ends derive the same first elliptic-curve key. */
  lemma FirstEcKeys(w: Base.World, bob: key32, alice: key32)
    requires Base.Proper(w) && KeysOk([bob, alice], w.init.lowOrder)
    ensures var mk := MessageKey(ChainKey(SK, Dh(alice, bob)));
            && Ec.SendKey(w.init, Ec.InitInitiator(SK, bob, alice), None).0 == Ok((FirstHeader(alice), mk))
            && Ec.ReceiveKey(w.resp, Ec.InitResponder(SK, bob), FirstHeader(alice)).Ok?
            && Ec.ReceiveKey(w.resp, Ec.InitResponder(SK, bob), FirstHeader(alice)).value.0 == mk
            && Ec.Returns(w.resp, Ec.InitResponder(SK, bob), FirstHeader(alice))
  {
    hide Ec.RatchetRecv, Ec.ReceiveOnChain, Ec.ReceiveKey;
    var keys := [bob, alice];
    assert keys[1] != ZERO32 && keys[1] !in w.init.lowOrder;
    DhCommutes(alice, bob);
    Ec.NewEpochOutcome(w.resp, Ec.InitResponder(SK, bob), FirstHeader(alice));
  }

  /** And the same first post-quantum key of the initiator's direction. */
  lemma FirstPqKeys(msg: bytes)
    ensures var (sent, _) := Pq.SendKey(Pq.Init(PqKeys.SK, Pq.A2B), Some(Pq.SendOut(msg, 0, Pq.NoKey, 0)));
            sent.Ok? && sent.value == (msg, 0, FIRST)
    ensures forall maxSkip :: Pq.ReceiveKey(maxSkip, Pq.Init(PqKeys.SK, Pq.B2A), Some(REPLY), 0).0 == Ok((0, FIRST))
  {}
}
