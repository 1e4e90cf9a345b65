/** Triple Ratchet messages of one elliptic-curve and one post-quantum epoch may arrive in any order:
    each decrypts, and both halves end in the state that in-order delivery leaves. */
module TripleOrder {
  import opened Bytes
  import opened Terms
  import opened Wire
  import opened SkippedBatch
  import opened TripleSpec
  import Ec = RatchetSpec
  import Pq = PqSpec
  import EcOrder = OrderIndependence
  import PqOrder

  /** Consecutive messages: the chain of `pk` and where its keys are filed, the stretch of the
      post-quantum chain, the headers, caller data and texts. */
  datatype Batch = Batch(pk: key32, line: Line, v: PqOrder.Stretch,
                         ecs: seq<Header>, pqs: seq<SckaHeader>, cts: seq<Ciphertext>, ads: seq<bytes>, texts: seq<bytes>)

  ghost predicate Honest(cfg: Config, b: Batch) {
    && |b.ecs| == |b.pqs| == |b.cts| == |b.ads| == |b.texts| == b.v.k
    && PqOrder.Fits(b.v, MaxSkip(cfg)) && b.line.start + b.v.k <= U32_MAX
    && forall d :: 0 <= d < b.v.k ==>
         && b.ecs[d].pk == b.pk && b.ecs[d].n == b.line.start + d && b.pqs[d].n == b.v.start + d
         && b.cts[d] == Sealed(Hybrid(PqOrder.MessageAt(b.v, d), MessageKey(Adv(b.line.ck, d))),
                               TripleAD(cfg, b.ecs[d], b.pqs[d], b.ads[d], false), b.texts[d])
  }

  /** Both halves stand at the start of the batch. */
  ghost predicate Ready(cfg: Config, s: State, b: Batch) {
    EcOrder.Stands(cfg, s.ec, b.pk, b.line, b.v.k) && PqOrder.Ready(s.pq, b.v)
  }

  lemma ReadyFacts(cfg: Config, s: State, b: Batch)
    requires Ready(cfg, s, b) && Honest(cfg, b)
    ensures b.line.start + b.v.k <= U32_MAX && Ec.FindChain(s.ec.chains, b.pk) >= 0
    ensures s.ec.chains[Ec.FindChain(s.ec.chains, b.pk)] == Ec.Chain(b.pk, b.line.ck, b.line.start)
    ensures b.v.start + b.v.k <= U32_MAX && b.v.epoch in s.pq.chains
  {}

  ghost function After(s: State, b: Batch, done: set<nat>): State
    requires b.line.start + b.v.k <= U32_MAX && Ec.FindChain(s.ec.chains, b.pk) >= 0
    requires b.v.start + b.v.k <= U32_MAX && b.v.epoch in s.pq.chains
  {
    State(Moved(s.ec, b.pk, b.line, b.v.k, done), PqOrder.After(s.pq, b.v, done))
  }

  function MessageOf(b: Batch, d: nat): TripleMessage
    requires d < |b.ecs| && d < |b.pqs| && d < |b.cts|
  {
    TripleMessage(TripleHeader(b.ecs[d], Some(b.pqs[d])), b.cts[d])
  }

  lemma HonestMessage(cfg: Config, b: Batch, d: nat)
    requires Honest(cfg, b) && d < b.v.k
    ensures |b.ecs| == |b.pqs| == |b.cts| == |b.ads| == |b.texts| == b.v.k && b.v.k <= MaxSkip(cfg) && b.v.k <= U32_MAX
    ensures PqOrder.Fits(b.v, MaxSkip(cfg))
    ensures b.ecs[d].pk == b.pk && b.ecs[d].n == b.line.start + d && b.pqs[d].n == b.v.start + d
    ensures b.cts[d] == Sealed(Hybrid(PqOrder.MessageAt(b.v, d), MessageKey(Adv(b.line.ck, d))),
                               TripleAD(cfg, b.ecs[d], b.pqs[d], b.ads[d], false), b.texts[d])
  {}

  /** Delivering one more message of the batch. */
  lemma DeliverOne(cfg: Config, s: State, b: Batch, done: set<nat>, d: nat, out: Pq.RecvOut)
    requires Ready(cfg, s, b) && Honest(cfg, b) && d < b.v.k && d !in done && out.epoch == b.v.epoch && out.output.NoKey?
    requires |b.ecs| == |b.pqs| == |b.cts| == |b.ads| == |b.texts| == b.v.k
    requires b.line.start + b.v.k <= U32_MAX && Ec.FindChain(s.ec.chains, b.pk) >= 0
    requires b.v.start + b.v.k <= U32_MAX && b.v.epoch in s.pq.chains
    ensures Decrypt(cfg, After(s, b, done), MessageOf(b, d), b.ads[d], Some(out)) == (Ok(b.texts[d]), After(s, b, done + {d}))
  {
    hide Honest, EcOrder.Stands, PqOrder.Ready, Moved, PqOrder.After, Ec.ReceiveKey, Pq.ReceiveKey, TripleAD, PqOrder.MessageAt, Adv;
    HonestMessage(cfg, b, d);
    EcOrder.ReadOne(cfg, s.ec, b.pk, b.line, b.v.k, done, d, b.ecs[d]);
    PqOrder.ReadOne(MaxSkip(cfg), s.pq, b.v, done, d, out);
  }

  /** The provider answers for the batch's epoch; only with the first arrival may a key come. */
  ghost predicate Answers(b: Batch, outs: seq<Pq.RecvOut>) {
    forall i :: 0 <= i < |outs| ==> outs[i].epoch == b.v.epoch && (i > 0 ==> outs[i].output.NoKey?)
  }

  /** Delivers the messages with the given indices, one after the other, each with its answer. */
  ghost function DeliverAll(cfg: Config, s: State, b: Batch, order: seq<nat>, outs: seq<Pq.RecvOut>): (seq<Result<bytes>>, State)
    requires |b.ecs| == |b.pqs| == |b.cts| == |b.ads| == b.v.k && |outs| == |order| && forall i :: 0 <= i < |order| ==> order[i] < b.v.k
    decreases |order|
  {
    if order == [] then ([], s)
    else
      var (res, s1) := Decrypt(cfg, s, MessageOf(b, order[0]), b.ads[order[0]], Some(outs[0]));
      var (rest, s2) := DeliverAll(cfg, s1, b, order[1..], outs[1..]);
      ([res] + rest, s2)
  }

  lemma {:induction false} DeliverMany(cfg: Config, s: State, b: Batch, done: set<nat>, order: seq<nat>, outs: seq<Pq.RecvOut>)
    requires Ready(cfg, s, b) && Honest(cfg, b) && NoRepeats(order) && |outs| == |order|
    requires |b.ecs| == |b.pqs| == |b.cts| == |b.ads| == |b.texts| == b.v.k
    requires b.line.start + b.v.k <= U32_MAX && Ec.FindChain(s.ec.chains, b.pk) >= 0
    requires b.v.start + b.v.k <= U32_MAX && b.v.epoch in s.pq.chains
    requires forall i :: 0 <= i < |outs| ==> outs[i].epoch == b.v.epoch && outs[i].output.NoKey?
    requires forall i :: 0 <= i < |order| ==> order[i] < b.v.k && order[i] !in done
    ensures var (res, t) := DeliverAll(cfg, After(s, b, done), b, order, outs);
            && |res| == |order| && (forall i :: 0 <= i < |order| ==> res[i] == Ok(b.texts[order[i]]))
            && t == After(s, b, done + (set d | d in order))
    decreases |order|
  {
    hide Ready, Honest, After, Decrypt, MessageOf;
    if order == [] {
      assert done + (set d | d in order) == done;
    } else {
      var d := order[0];
      DeliverOne(cfg, s, b, done, d, outs[0]);
      DeliverMany(cfg, s, b, done + {d}, order[1..], outs[1..]);
      assert done + (set x | x in order) == done + {d} + (set x | x in order[1..]);
    }
  }

  /** The state in which the batch finds the session once the first arrival, whichever it is, has
      brought about what there is to do: the DH step, if the ratchet key is new, and taking in the
      provider's answer. */
  ghost predicate LeadsTo(cfg: Config, s: State, b: Batch, out: Pq.RecvOut, s1: State) {
    && PqOrder.LeadsTo(s.pq, out, s1.pq)
    && (s1.ec == s.ec
        || (&& |b.ecs| > 0 && EcOrder.EntersAt(cfg, s.ec, b.pk, b.line, b.v.k, b.ecs[0])
            && (forall d :: 0 <= d < |b.ecs| ==> b.ecs[d].pn == b.ecs[0].pn)
            && s1.ec == Ec.RatchetRecv(cfg, s.ec, b.ecs[0]).value))
  }

  /** Every order of delivery decrypts every message and leaves the same state: past whatever the
      first arrival brings about, with both chains moved past the batch and nothing more on file. */
  lemma AnyOrder(cfg: Config, s: State, s1: State, b: Batch, order: seq<nat>, outs: seq<Pq.RecvOut>)
    requires Honest(cfg, b) && Permutation(order, b.v.k) && b.v.k > 0 && |outs| == |order| > 0 && Answers(b, outs)
    requires LeadsTo(cfg, s, b, outs[0], s1) && Ready(cfg, s1, b)
    ensures |b.ecs| == |b.pqs| == |b.cts| == |b.ads| == |b.texts| == b.v.k
    ensures Ec.FindChain(s1.ec.chains, b.pk) >= 0 && b.v.epoch in s1.pq.chains && b.line.start + b.v.k <= U32_MAX && b.v.start + b.v.k <= U32_MAX
    ensures var (res, t) := DeliverAll(cfg, s, b, order, outs);
            && |res| == |order| && (forall i :: 0 <= i < |order| ==> res[i] == Ok(b.texts[order[i]]))
            && t.ec == s1.ec.(chains := s1.ec.chains[Ec.FindChain(s1.ec.chains, b.pk) := Ec.Chain(b.pk, Adv(b.line.ck, b.v.k), b.line.start + b.v.k)])
            && t.pq == s1.pq.(chains := s1.pq.chains[b.v.epoch := s1.pq.chains[b.v.epoch].(recv :=
                                Some(Pq.KdfChain(PqOrder.KeyOn(b.v.ck, b.v.start, b.v.k), b.v.start + b.v.k)))])
  {
    hide DeliverAll, PqOrder.KeyOn, Honest, LeadsTo, Ready, Moved, PqOrder.After;
    var quiet := outs[0 := outs[0].(output := Pq.NoKey)];
    var all := set d | d in order;
    HonestMessage(cfg, b, 0);
    ReadyFacts(cfg, s1, b);
    SameAfterFirst(cfg, s, s1, b, order, outs, quiet);
    NoneYet(cfg, s1, b);
    DeliverMany(cfg, s1, b, {}, order, quiet);
    assert {} + all == all;
    MovedAll(s1.ec, b.pk, b.line, b.v.k, all);
    PqOrder.AfterAll(s1.pq, b.v, all);
  }

  lemma NoneYet(cfg: Config, s: State, b: Batch)
    requires Ready(cfg, s, b) && Honest(cfg, b)
    requires b.line.start + b.v.k <= U32_MAX && Ec.FindChain(s.ec.chains, b.pk) >= 0
    requires b.v.start + b.v.k <= U32_MAX && b.v.epoch in s.pq.chains
    ensures After(s, b, {}) == s
  {
    hide Honest, EcOrder.Stands, PqOrder.Ready, Moved, PqOrder.After;
    ReadyFacts(cfg, s, b);
    MovedNone(s.ec, b.pk, b.line, b.v.k);
    PqOrder.AfterNone(s.pq, b.v);
  }

  lemma SameAfterFirst(cfg: Config, s: State, s1: State, b: Batch, order: seq<nat>, outs: seq<Pq.RecvOut>, quiet: seq<Pq.RecvOut>)
    requires Honest(cfg, b) && |outs| == |order| > 0 && forall i :: 0 <= i < |order| ==> order[i] < b.v.k
    requires |b.ecs| == |b.pqs| == |b.cts| == |b.ads| == |b.texts| == b.v.k
    requires quiet == outs[0 := outs[0].(output := Pq.NoKey)] && outs[0].epoch == b.v.epoch
    requires LeadsTo(cfg, s, b, outs[0], s1) && Ready(cfg, s1, b)
    ensures DeliverAll(cfg, s, b, order, outs) == DeliverAll(cfg, s1, b, order, quiet)
  {
    hide LeadsTo, Decrypt, After, Ready, Honest, MessageOf;
    var d := order[0];
    ReadyFacts(cfg, s1, b);
    NoneYet(cfg, s1, b);
    DeliverOne(cfg, s1, b, {}, d, quiet[0]);
    SameKeys(cfg, s, s1, b, d, outs[0], quiet[0]);
    assert outs[1..] == quiet[1..];
  }

  lemma SameKeys(cfg: Config, s: State, s1: State, b: Batch, d: nat, out: Pq.RecvOut, quiet: Pq.RecvOut)
    requires Honest(cfg, b) && d < b.v.k && |b.ecs| == |b.pqs| == |b.cts| == |b.ads| == |b.texts| == b.v.k
    requires LeadsTo(cfg, s, b, out, s1) && quiet.epoch == out.epoch && quiet.output.NoKey?
    requires Decrypt(cfg, s1, MessageOf(b, d), b.ads[d], Some(quiet)).0.Ok?
    ensures Decrypt(cfg, s, MessageOf(b, d), b.ads[d], Some(out)) == Decrypt(cfg, s1, MessageOf(b, d), b.ads[d], Some(quiet))
  {
    hide Honest, EcOrder.EntersAt, PqOrder.LeadsTo, Ec.ReceiveKey, Pq.ReceiveKey, Ec.RatchetRecv, TripleAD;
    HonestMessage(cfg, b, d);
    PqOrder.FirstKey(MaxSkip(cfg), s.pq, out, s1.pq, b.pqs[d].n, quiet);
    if s1.ec != s.ec {
      EntersFacts(cfg, s.ec, b.pk, b.line, b.v.k, b.ecs[0]);
      EcOrder.FirstKey(cfg, s.ec, b.pk, b.line, b.v.k, b.ecs[0], b.ecs[d]);
    }
  }

  lemma EntersFacts(cfg: Config, s: Ec.State, pk: key32, v: Line, k: nat, h: Header)
    requires EcOrder.EntersAt(cfg, s, pk, v, k, h)
    ensures v.start == 0 && Ec.RatchetRecv(cfg, s, h).Ok?
  {}
}
