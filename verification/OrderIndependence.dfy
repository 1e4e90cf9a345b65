/** Messages of one chain may arrive in any order: each decrypts, and the session ends in the
    state that in-order delivery leaves. */
module OrderIndependence {
  import opened Bytes
  import opened Terms
  import opened Wire
  import opened SkippedQueue
  import opened RatchetSpec
  import opened SkippedBatch

  /** A batch of consecutive honest messages of one chain, with their caller data and texts. */
  datatype Batch = Batch(pk: key32, ck: Key, start: u32, msgs: seq<Message>, ads: seq<bytes>, texts: seq<bytes>)

  function LineOf(b: Batch): (v: Line)
    ensures v.lab == RatchetLabel(b.pk) && v.ck == b.ck && v.start == b.start
  {
    Line(RatchetLabel(b.pk), b.ck, b.start)
  }

  ghost predicate Honest(cfg: Config, b: Batch) {
    && |b.msgs| == |b.ads| == |b.texts| <= MaxSkip(cfg)
    && b.start + |b.msgs| <= U32_MAX
    && forall d :: 0 <= d < |b.msgs| ==>
         var h := b.msgs[d].header;
         && h.pk == b.pk && h.n == b.start + d
         && b.msgs[d].ct == Sealed(MessageKey(Adv(b.ck, d)), BuildAD(cfg, EncodeHeader(h), b.ads[d], false), b.texts[d])
  }

  /** The session stands at the start of the batch and has room for its skipped keys. */
  ghost predicate Ready(cfg: Config, s: State, b: Batch) {
    var i := FindChain(s.chains, b.pk);
    && i >= 0 && s.chains[i] == Chain(b.pk, b.ck, b.start)
    && Distinct(s.skipped) && |s.skipped| + |b.msgs| <= MaxSkip(cfg)
    && Absent(s.skipped, RatchetLabel(b.pk), b.start)
  }

  /** The state after the members of `done` have been delivered, whatever their order. */
  ghost function After(s: State, b: Batch, done: set<nat>): State
    requires b.start + |b.msgs| <= U32_MAX && FindChain(s.chains, b.pk) >= 0
  {
    Moved(s, b.pk, LineOf(b), |b.msgs|, done)
  }

  // ---- One key -----------------------------------------------------------------------------

  /** The session stands at the first of `k` positions of the chain of `pk`, has none of their keys
      on file and room for all. */
  ghost predicate Stands(cfg: Config, s: State, pk: key32, v: Line, k: nat) {
    var i := FindChain(s.chains, pk);
    && v.lab == RatchetLabel(pk) && v.start + k <= U32_MAX && k <= MaxSkip(cfg)
    && i >= 0 && s.chains[i] == Chain(pk, v.ck, v.start)
    && Distinct(s.skipped) && |s.skipped| + k <= MaxSkip(cfg) && Absent(s.skipped, v.lab, v.start)
  }

  lemma StandsFacts(cfg: Config, s: State, pk: key32, v: Line, k: nat, d: nat)
    requires Stands(cfg, s, pk, v, k) && d < k
    ensures v.start + k <= U32_MAX && FindChain(s.chains, pk) >= 0 && s.chains[FindChain(s.chains, pk)] == Chain(pk, v.ck, v.start)
    ensures FiledId(v, d) == Id(RatchetLabel(pk), v.start + d) && !Has(s.skipped, FiledId(v, d))
    ensures v.lab == RatchetLabel(pk) && |s.skipped| + d <= MaxSkip(cfg) && Absent(s.skipped, v.lab, v.start) && d <= MaxSkip(cfg)
  {}

  lemma ReadFiled(cfg: Config, s: State, pk: key32, v: Line, k: nat, done: set<nat>, d: nat, h: Header)
    requires Stands(cfg, s, pk, v, k) && h.pk == pk && h.n == v.start + d && d < Top(done, k) && d !in done
    ensures FindChain(s.chains, pk) >= 0
    ensures ReceiveKey(cfg, Moved(s, pk, v, k, done), h) == Ok((MessageKey(Adv(v.ck, d)), Moved(s, pk, v, k, done + {d})))
  {
    hide Stands, Moved, Missing, Top, ReceiveKey, FiledId, Has, Lookup, Remove, Adv;
    StandsFacts(cfg, s, pk, v, k, d);
    MovedShape(s, pk, v, k, done);
    MovedFiled(s, pk, v, k, done, d);
    TakeMissing(v, done, Top(done, k), s.skipped, d);
    TakeOutcome(cfg, Moved(s, pk, v, k, done), h);
  }

  lemma ReadBeyond(cfg: Config, s: State, pk: key32, v: Line, k: nat, done: set<nat>, d: nat, h: Header)
    requires Stands(cfg, s, pk, v, k) && h.pk == pk && h.n == v.start + d && Top(done, k) <= d < k
    ensures FindChain(s.chains, pk) >= 0
    ensures ReceiveKey(cfg, Moved(s, pk, v, k, done), h) == Ok((MessageKey(Adv(v.ck, d)), Moved(s, pk, v, k, done + {d})))
  {
    hide Stands, Moved, Missing, Top, ReceiveKey, FiledId, Has, Adv, StoreRange;
    var top := Top(done, k);
    StandsFacts(cfg, s, pk, v, k, d);
    MovedShape(s, pk, v, k, done);
    MovedAhead(s, pk, v, k, done, d);
    MissingAbsent(v, done, top, s.skipped, d);
    FilesMissing(MaxSkip(cfg), v, s.skipped, k, done, d);
    ReadAhead(cfg, Moved(s, pk, v, k, done), h, FindChain(s.chains, pk), v.ck, v.start, top, d);
  }

  /** One more of the positions, whichever it is. */
  lemma ReadOne(cfg: Config, s: State, pk: key32, v: Line, k: nat, done: set<nat>, d: nat, h: Header)
    requires Stands(cfg, s, pk, v, k) && h.pk == pk && h.n == v.start + d && d < k && d !in done
    ensures v.start + k <= U32_MAX && FindChain(s.chains, pk) >= 0
    ensures ReceiveKey(cfg, Moved(s, pk, v, k, done), h) == Ok((MessageKey(Adv(v.ck, d)), Moved(s, pk, v, k, done + {d})))
  {
    hide Moved, ReceiveKey, Adv;
    if d < Top(done, k) {
      ReadFiled(cfg, s, pk, v, k, done, d, h);
    } else {
      ReadBeyond(cfg, s, pk, v, k, done, d, h);
    }
  }

  /** Reading `d` steps into a chain that stands at `top`. */
  lemma ReadAhead(cfg: Config, t: State, h: Header, i: nat, ck: Key, start: u32, top: nat, d: nat)
    requires top <= d <= MaxSkip(cfg) && start + d < U32_MAX && h.n == start + d
    requires !Has(t.skipped, Id(RatchetLabel(h.pk), h.n))
    requires i == FindChain(t.chains, h.pk) && t.chains[i] == Chain(h.pk, Adv(ck, top), start + top)
    ensures var q := StoreRange(MaxSkip(cfg), t.skipped, RatchetLabel(h.pk), Adv(ck, top), start + top, start + d);
            ReceiveKey(cfg, t, h) ==
            Ok((MessageKey(Adv(ck, d)), t.(chains := t.chains[i := Chain(h.pk, Adv(ck, d + 1), start + d + 1)], skipped := q)))
  {
    AdvAdv(ck, top, d - top);
  }

  // ---- A batch of messages -----------------------------------------------------------------

  lemma ReadyStands(cfg: Config, s: State, b: Batch)
    requires Ready(cfg, s, b) && Honest(cfg, b)
    ensures Stands(cfg, s, b.pk, LineOf(b), |b.msgs|)
  {}

  lemma HonestHeader(cfg: Config, b: Batch, d: nat)
    requires Honest(cfg, b) && d < |b.msgs|
    ensures |b.ads| == |b.texts| == |b.msgs| && b.start + |b.msgs| <= U32_MAX
    ensures b.msgs[d].header.pk == b.pk && b.msgs[d].header.n == b.start + d < U32_MAX
    ensures b.msgs[d].ct == Sealed(MessageKey(Adv(b.ck, d)), BuildAD(cfg, EncodeHeader(b.msgs[d].header), b.ads[d], false), b.texts[d])
  {}

  /** Delivering one more message of the batch. */
  lemma DeliverOne(cfg: Config, s: State, b: Batch, done: set<nat>, d: nat)
    requires Ready(cfg, s, b) && Honest(cfg, b) && d < |b.msgs| && d !in done
    ensures Decrypt(cfg, After(s, b, done), b.msgs[d], b.ads[d]) == (Ok(b.texts[d]), After(s, b, done + {d}))
  {
    hide Moved, ReceiveKey, BuildAD, Ready, Honest, Stands, Adv;
    ReadyStands(cfg, s, b);
    HonestHeader(cfg, b, d);
    ReadOne(cfg, s, b.pk, LineOf(b), |b.msgs|, done, d, b.msgs[d].header);
  }

  /** Delivers the messages with the given indices, one after the other. */
  ghost function DeliverAll(cfg: Config, s: State, b: Batch, order: seq<nat>): (seq<Result<bytes>>, State)
    requires Honest(cfg, b) && forall i :: 0 <= i < |order| ==> order[i] < |b.msgs|
    decreases |order|
  {
    if order == [] then ([], s)
    else
      var (res, s1) := Decrypt(cfg, s, b.msgs[order[0]], b.ads[order[0]]);
      var (rest, s2) := DeliverAll(cfg, s1, b, order[1..]);
      ([res] + rest, s2)
  }

  lemma {:induction false} DeliverMany(cfg: Config, s: State, b: Batch, done: set<nat>, order: seq<nat>)
    requires Ready(cfg, s, b) && Honest(cfg, b) && NoRepeats(order)
    requires forall i :: 0 <= i < |order| ==> order[i] < |b.msgs| && order[i] !in done
    ensures var (res, t) := DeliverAll(cfg, After(s, b, done), b, order);
            && |res| == |order| && (forall i :: 0 <= i < |order| ==> res[i] == Ok(b.texts[order[i]]))
            && t == After(s, b, done + (set d | d in order))
    decreases |order|
  {
    hide Ready, Honest, After, Decrypt;
    if order == [] {
      assert done + (set d | d in order) == done;
    } else {
      var d := order[0];
      DeliverOne(cfg, s, b, done, d);
      DeliverMany(cfg, s, b, done + {d}, order[1..]);
      assert done + (set x | x in order) == done + {d} + (set x | x in order[1..]);
    }
  }

  /** Every order of delivery decrypts every message and leaves the same state: the chain moved
      past the batch, and the store as it was. */
  lemma AnyOrder(cfg: Config, s: State, b: Batch, order: seq<nat>)
    requires Ready(cfg, s, b) && Honest(cfg, b) && Permutation(order, |b.msgs|)
    ensures var (res, t) := DeliverAll(cfg, s, b, order);
            && |res| == |order| && (forall i :: 0 <= i < |order| ==> res[i] == Ok(b.texts[order[i]]))
            && t == s.(chains := s.chains[FindChain(s.chains, b.pk) := Chain(b.pk, Adv(b.ck, |b.msgs|), b.start + |b.msgs|)])
  {
    hide DeliverAll;
    var k, all := |b.msgs|, set d | d in order;
    BeforeAny(cfg, s, b);
    DeliverMany(cfg, s, b, {}, order);
    assert {} + all == all;
    AfterAll(cfg, s, b, all);
  }

  // ---- A batch that opens an epoch ---------------------------------------------------------

  ghost predicate NoneFiled(q: seq<Entry>, lab: Label) {
    forall e :: e in q ==> e.id.lab != lab
  }

  /** The first `k` positions of an epoch the session has not followed yet, which the header `h` leads
      to; the step leaves room for their keys. */
  ghost predicate EntersAt(cfg: Config, s: State, pk: key32, v: Line, k: nat, h: Header) {
    && v.lab == RatchetLabel(pk) && v.start == 0 && h.pk == pk && !Known(s, pk)
    && Distinct(s.skipped) && NoneFiled(s.skipped, v.lab)
    && v.ck == ChainKey(s.rk, Dh(s.dhs, pk))
    && RatchetRecv(cfg, s, h).Ok? && |RatchetRecv(cfg, s, h).value.skipped| + k <= MaxSkip(cfg)
  }

  /** After the DH step the session stands at the first of them. */
  lemma EnteredStands(cfg: Config, s: State, pk: key32, v: Line, k: nat, h: Header)
    requires EntersAt(cfg, s, pk, v, k, h) && k <= MaxSkip(cfg) && k <= U32_MAX
    ensures var s1 := RatchetRecv(cfg, s, h).value;
            Stands(cfg, s1, pk, v, k) && FindChain(s1.chains, pk) == |s1.chains| - 1 >= 0
  {
    hide StoreRange, RatchetRecv, PushChain, FindChain, Distinct;
    EnteredParts(cfg, s, pk, v, h);
    Pushed(s.chains, Chain(pk, v.ck, 0));
  }

  lemma EnteredParts(cfg: Config, s: State, pk: key32, v: Line, h: Header)
    requires v.lab == RatchetLabel(pk) && h.pk == pk && !Known(s, pk) && v.ck == ChainKey(s.rk, Dh(s.dhs, pk))
    requires Distinct(s.skipped) && NoneFiled(s.skipped, v.lab) && RatchetRecv(cfg, s, h).Ok?
    ensures FindChain(s.chains, pk) < 0
    ensures var s1 := RatchetRecv(cfg, s, h).value;
            s1.chains == PushChain(s.chains, Chain(pk, v.ck, 0)) && Distinct(s1.skipped) && NoneFiled(s1.skipped, v.lab)
  {
    hide StoreRange, PushChain, Distinct;
    var p := PreviousChain(s);
    if p >= 0 {
      StoreRangeFacts(MaxSkip(cfg), s.skipped, RatchetLabel(s.dhr), s.chains[p].ck, s.chains[p].nr, h.pn);
    }
  }

  /** The first key, whichever position it is for, is derived as if the step had been taken before. */
  lemma FirstKey(cfg: Config, s: State, pk: key32, v: Line, k: nat, h0: Header, h: Header)
    requires EntersAt(cfg, s, pk, v, k, h0) && k <= MaxSkip(cfg) && k <= U32_MAX
    requires h.pk == pk && h.pn == h0.pn && h.n < k
    ensures ReceiveKey(cfg, s, h) == ReceiveKey(cfg, RatchetRecv(cfg, s, h0).value, h)
  {
    hide StoreRange, Adv, Stands, RatchetRecv, ReceiveKey, Known;
    EnteredStands(cfg, s, pk, v, k, h0);
    StandsFacts(cfg, RatchetRecv(cfg, s, h0).value, pk, v, k, h.n);
    SameKey(cfg, s, h0, h);
  }

  /** The first messages of such an epoch: whichever arrives first performs the DH step. All announce
      the same previous length. */
  ghost predicate Opening(cfg: Config, s: State, b: Batch) {
    && |b.msgs| > 0 && EntersAt(cfg, s, b.pk, LineOf(b), |b.msgs|, b.msgs[0].header)
    && (forall d :: 0 <= d < |b.msgs| ==> b.msgs[d].header.pn == b.msgs[0].header.pn)
  }

  lemma OpeningReady(cfg: Config, s: State, b: Batch)
    requires Opening(cfg, s, b) && Honest(cfg, b)
    ensures var s1 := RatchetRecv(cfg, s, b.msgs[0].header).value;
            Ready(cfg, s1, b) && FindChain(s1.chains, b.pk) == |s1.chains| - 1 >= 0
  {
    hide RatchetRecv, Known, NoneFiled;
    EnteredStands(cfg, s, b.pk, LineOf(b), |b.msgs|, b.msgs[0].header);
  }

  /** The first arrival, whichever it is, is read as if the step had been taken before. */
  lemma FirstArrival(cfg: Config, s: State, b: Batch, d: nat)
    requires Opening(cfg, s, b) && Honest(cfg, b) && d < |b.msgs|
    ensures var s1 := RatchetRecv(cfg, s, b.msgs[0].header).value;
            Decrypt(cfg, s, b.msgs[d], b.ads[d]) == Decrypt(cfg, s1, b.msgs[d], b.ads[d])
  {
    hide RatchetRecv, Known, NoneFiled, Adv, BuildAD, Decrypt, Honest, Ready, After;
    var s1 := RatchetRecv(cfg, s, b.msgs[0].header).value;
    OpeningReady(cfg, s, b);
    HonestHeader(cfg, b, d);
    HonestHeader(cfg, b, 0);
    BeforeAny(cfg, s1, b);
    DeliverOne(cfg, s1, b, {}, d);
    HonestSize(cfg, b);
    FirstKey(cfg, s, b.pk, LineOf(b), |b.msgs|, b.msgs[0].header, b.msgs[d].header);
    SameDecrypt(cfg, s, s1, b.msgs[d], b.ads[d]);
  }

  lemma HonestSize(cfg: Config, b: Batch)
    requires Honest(cfg, b)
    ensures |b.msgs| <= MaxSkip(cfg) && |b.msgs| <= U32_MAX
  {}

  lemma SameKey(cfg: Config, s: State, h0: Header, h: Header)
    requires RatchetRecv(cfg, s, h0).Ok? && h.pk == h0.pk && h.pn == h0.pn
    requires !Known(s, h.pk) && !Has(s.skipped, Id(RatchetLabel(h.pk), h.n))
    requires !Has(RatchetRecv(cfg, s, h0).value.skipped, Id(RatchetLabel(h.pk), h.n))
    ensures ReceiveKey(cfg, s, h) == ReceiveKey(cfg, RatchetRecv(cfg, s, h0).value, h)
  {
    hide StoreRange, Adv, ReceiveOnChain;
  }

  lemma SameDecrypt(cfg: Config, s: State, s1: State, m: Message, ad: bytes)
    requires ReceiveKey(cfg, s, m.header) == ReceiveKey(cfg, s1, m.header) && Decrypt(cfg, s1, m, ad).0.Ok?
    ensures Decrypt(cfg, s, m, ad) == Decrypt(cfg, s1, m, ad)
  {
    hide ReceiveKey, BuildAD;
  }

  /** The messages that open an epoch arrive in any order: every one decrypts, and the session
      ends past the DH step with the new chain at their number and nothing more on file than the
      step itself left there. */
  lemma EpochInAnyOrder(cfg: Config, s: State, b: Batch, order: seq<nat>)
    requires Opening(cfg, s, b) && Honest(cfg, b) && Permutation(order, |b.msgs|)
    ensures var (res, t) := DeliverAll(cfg, s, b, order);
            var s1 := RatchetRecv(cfg, s, b.msgs[0].header).value;
            && |res| == |order| && (forall i :: 0 <= i < |order| ==> res[i] == Ok(b.texts[order[i]]))
            && FindChain(s1.chains, b.pk) == |s1.chains| - 1 >= 0
            && t == s1.(chains := s1.chains[|s1.chains| - 1 := Chain(b.pk, Adv(b.ck, |b.msgs|), |b.msgs|)])
  {
    hide Honest, Ready, Decrypt, Adv, NoneFiled, DeliverAll, RatchetRecv, Known;
    var s1 := RatchetRecv(cfg, s, b.msgs[0].header).value;
    OpeningReady(cfg, s, b);
    assert 0 in order;
    FirstArrival(cfg, s, b, order[0]);
    SameAfterFirst(cfg, s, s1, b, order);
    AnyOrder(cfg, s1, b, order);
  }

  lemma SameAfterFirst(cfg: Config, s: State, s1: State, b: Batch, order: seq<nat>)
    requires Honest(cfg, b) && order != [] && forall i :: 0 <= i < |order| ==> order[i] < |b.msgs|
    requires Decrypt(cfg, s, b.msgs[order[0]], b.ads[order[0]]) == Decrypt(cfg, s1, b.msgs[order[0]], b.ads[order[0]])
    ensures DeliverAll(cfg, s, b, order) == DeliverAll(cfg, s1, b, order)
  {
    hide Honest, Decrypt;
  }

  lemma BeforeAny(cfg: Config, s: State, b: Batch)
    requires Ready(cfg, s, b) && b.start + |b.msgs| <= U32_MAX
    ensures After(s, b, {}) == s
  {
    MovedNone(s, b.pk, LineOf(b), |b.msgs|);
  }

  lemma AfterAll(cfg: Config, s: State, b: Batch, all: set<nat>)
    requires Ready(cfg, s, b) && b.start + |b.msgs| <= U32_MAX
    requires forall d: nat :: d < |b.msgs| ==> d in all
    ensures After(s, b, all) ==
            s.(chains := s.chains[FindChain(s.chains, b.pk) := Chain(b.pk, Adv(b.ck, |b.msgs|), b.start + |b.msgs|)])
  {
    MovedAll(s, b.pk, LineOf(b), |b.msgs|, all);
  }
}
