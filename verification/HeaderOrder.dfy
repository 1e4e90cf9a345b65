/** Messages with encrypted headers may arrive in any order: those of one epoch all decrypt, and the
    session ends in the state that in-order delivery leaves. */
module HeaderOrder {
  import opened Bytes
  import opened Terms
  import opened Wire
  import opened SkippedQueue
  import opened SkippedBatch
  import opened HeaderSpec
  import Ec = RatchetSpec
  import Order = OrderIndependence

  /** A batch of consecutive messages of one chain, under one header key, with their headers, caller
      data and texts. */
  datatype Batch = Batch(hk: Key, pk: key32, ck: Key, start: u32,
                         hs: seq<Header>, msgs: seq<HeMessage>, ads: seq<bytes>, texts: seq<bytes>)

  function LineOf(b: Batch): (v: Line)
    ensures v.lab == HeaderLabel(b.hk) && v.ck == b.ck && v.start == b.start
  {
    Line(HeaderLabel(b.hk), b.ck, b.start)
  }

  ghost predicate Honest(cfg: Config, b: Batch) {
    && |b.hs| == |b.msgs| == |b.ads| == |b.texts| <= MaxSkip(cfg)
    && b.hk != Zeroed && b.start + |b.msgs| <= U32_MAX
    && forall d :: 0 <= d < |b.msgs| ==>
         var m := b.msgs[d];
         && b.hs[d].pk == b.pk && b.hs[d].n == b.start + d
         && m.header.SealedHeader? && m.header.hk == b.hk && m.header.header == EncodeHeader(b.hs[d])
         && m.ct == Sealed(MessageKey(Adv(b.ck, d)), HeaderAD(cfg, m.header, b.ads[d], false), b.texts[d])
  }

  /** The session reads the batch's chain under the batch's header key, stands at its start and has
      room for its skipped keys. */
  ghost predicate Ready(cfg: Config, s: State, b: Batch) {
    var i := Ec.FindChain(s.dr.chains, b.pk);
    && s.hkr.key == b.hk && s.dr.dhRSet && s.dr.dhr == b.pk
    && i >= 0 && s.dr.chains[i] == Ec.Chain(b.pk, b.ck, b.start)
    && Distinct(s.dr.skipped) && |s.dr.skipped| + |b.msgs| <= MaxSkip(cfg)
    && Absent(s.dr.skipped, HeaderLabel(b.hk), b.start)
  }

  /** The state after the members of `done` have been delivered, whatever their order. */
  ghost function After(s: State, b: Batch, done: set<nat>): State
    requires b.start + |b.msgs| <= U32_MAX && Ec.FindChain(s.dr.chains, b.pk) >= 0
  {
    s.(dr := Moved(s.dr, b.pk, LineOf(b), |b.msgs|, done))
  }

  lemma HonestFacts(cfg: Config, s: State, b: Batch, d: nat)
    requires Ready(cfg, s, b) && Honest(cfg, b) && d < |b.msgs|
    ensures |b.hs| == |b.msgs| == |b.ads| == |b.texts|
    ensures b.start + |b.msgs| <= U32_MAX && b.hs[d].n == b.start + d < U32_MAX && b.hs[d].pk == b.pk
    ensures ServingId(b.msgs[d].header) == Some(FiledId(LineOf(b), d)) && Opens(b.hk, b.msgs[d].header)
    ensures DecodeHeader(b.msgs[d].header.header) == Ok(b.hs[d])
    ensures !Has(s.dr.skipped, FiledId(LineOf(b), d))
    ensures Ec.FindChain(s.dr.chains, b.pk) >= 0 && |s.dr.skipped| + d <= MaxSkip(cfg) && Absent(s.dr.skipped, HeaderLabel(b.hk), b.start)
    ensures s.hkr.key == b.hk && s.dr.dhRSet && s.dr.dhr == b.pk
  {
    hide EncodeHeader, DecodeHeader, HeaderAD;
    DecodeEncodeHeader(b.hs[d]);
  }

  lemma DeliverFiled(cfg: Config, s: State, b: Batch, done: set<nat>, d: nat)
    requires Ready(cfg, s, b) && Honest(cfg, b) && d < Top(done, |b.msgs|) && d !in done
    ensures ReceiveKey(cfg, After(s, b, done), b.msgs[d].header) == Ok((MessageKey(Adv(b.ck, d)), After(s, b, done + {d})))
  {
    hide Ready, Honest, Moved, Missing, Top, FiledId, Has, Lookup, Remove, Adv, ServingId, OpenHeader, ReceiveOpened;
    HonestFacts(cfg, s, b, d);
    MovedShape(s.dr, b.pk, LineOf(b), |b.msgs|, done);
    MovedFiled(s.dr, b.pk, LineOf(b), |b.msgs|, done, d);
    TakeMissing(LineOf(b), done, Top(done, |b.msgs|), s.dr.skipped, d);
  }

  lemma DeliverAhead(cfg: Config, s: State, b: Batch, done: set<nat>, d: nat)
    requires Ready(cfg, s, b) && Honest(cfg, b) && Top(done, |b.msgs|) <= d < |b.msgs|
    ensures ReceiveKey(cfg, After(s, b, done), b.msgs[d].header) == Ok((MessageKey(Adv(b.ck, d)), After(s, b, done + {d})))
  {
    hide Ready, Honest, Moved, Missing, Top, FiledId, Has, Adv, StoreRange, ServingId, ReceiveKey, DecodeHeader, Opens;
    var top := Top(done, |b.msgs|);
    HonestFacts(cfg, s, b, d);
    MovedShape(s.dr, b.pk, LineOf(b), |b.msgs|, done);
    MovedAhead(s.dr, b.pk, LineOf(b), |b.msgs|, done, d);
    MissingAbsent(LineOf(b), done, top, s.dr.skipped, d);
    FilesMissing(MaxSkip(cfg), LineOf(b), s.dr.skipped, |b.msgs|, done, d);
    ReadAhead(cfg, After(s, b, done), b.msgs[d].header, b.hs[d], b.ck, b.start, top, d);
  }

  /** Reading `d` steps into a chain that stands at `top`. */
  lemma ReadAhead(cfg: Config, t: State, header: SealedHeader, h: Header, ck: Key, start: u32, top: nat, d: nat)
    requires top <= d <= MaxSkip(cfg) && start + d < U32_MAX && h.n == start + d
    requires Opens(t.hkr.key, header) && DecodeHeader(header.header) == Ok(h) && t.dr.dhRSet && t.dr.dhr == h.pk
    requires !Filed(t.dr.skipped, header)
    requires var i := Ec.FindChain(t.dr.chains, h.pk); i >= 0 && t.dr.chains[i] == Ec.Chain(h.pk, Adv(ck, top), start + top)
    ensures var i := Ec.FindChain(t.dr.chains, h.pk);
            var q := StoreRange(MaxSkip(cfg), t.dr.skipped, HeaderLabel(t.hkr.key), Adv(ck, top), start + top, start + d);
            ReceiveKey(cfg, t, header) ==
            Ok((MessageKey(Adv(ck, d)), t.(dr := t.dr.(chains := t.dr.chains[i := Ec.Chain(h.pk, Adv(ck, d + 1), start + d + 1)], skipped := q))))
  {
    hide StoreRange, Filed;
    AdvAdv(ck, top, d - top);
  }

  /** Delivering one more message of the batch. */
  lemma DeliverOne(cfg: Config, s: State, b: Batch, done: set<nat>, d: nat)
    requires Ready(cfg, s, b) && Honest(cfg, b) && d < |b.msgs| && d !in done
    ensures Decrypt(cfg, After(s, b, done), b.msgs[d], b.ads[d]) == (Ok(b.texts[d]), After(s, b, done + {d}))
  {
    hide After, ReceiveKey, HeaderAD;
    if d < Top(done, |b.msgs|) {
      DeliverFiled(cfg, s, b, done, d);
    } else {
      DeliverAhead(cfg, s, b, done, d);
    }
  }

  /** Delivers the messages with the given indices, one after the other. */
  ghost function DeliverAll(cfg: Config, s: State, b: Batch, order: seq<nat>): (seq<Result<bytes>>, State)
    requires Honest(cfg, b) && forall i :: 0 <= i < |order| ==> order[i] < |b.msgs|
    decreases |order|
  {
    if order == [] then ([], s)
    else
      var (res, s1) := Decrypt(cfg, s, b.msgs[order[0]], b.ads[order[0]]);
      var (rest, s2) := DeliverAll(cfg, s1, b, order[1..]);
      ([res] + rest, s2)
  }

  lemma {:induction false} DeliverMany(cfg: Config, s: State, b: Batch, done: set<nat>, order: seq<nat>)
    requires Ready(cfg, s, b) && Honest(cfg, b) && NoRepeats(order)
    requires forall i :: 0 <= i < |order| ==> order[i] < |b.msgs| && order[i] !in done
    ensures var (res, t) := DeliverAll(cfg, After(s, b, done), b, order);
            && |res| == |order| && (forall i :: 0 <= i < |order| ==> res[i] == Ok(b.texts[order[i]]))
            && t == After(s, b, done + (set d | d in order))
    decreases |order|
  {
    hide Ready, Honest, After, Decrypt;
    if order == [] {
      assert done + (set d | d in order) == done;
    } else {
      var d := order[0];
      DeliverOne(cfg, s, b, done, d);
      DeliverMany(cfg, s, b, done + {d}, order[1..]);
      assert done + (set x | x in order) == done + {d} + (set x | x in order[1..]);
    }
  }

  /** Every order of delivery decrypts every message and leaves the same state: the chain moved past
      the batch, and the store as it was. */
  lemma AnyOrder(cfg: Config, s: State, b: Batch, order: seq<nat>)
    requires Ready(cfg, s, b) && Honest(cfg, b) && Permutation(order, |b.msgs|)
    ensures var (res, t) := DeliverAll(cfg, s, b, order);
            && |res| == |order| && (forall i :: 0 <= i < |order| ==> res[i] == Ok(b.texts[order[i]]))
            && t == s.(dr := s.dr.(chains := s.dr.chains[Ec.FindChain(s.dr.chains, b.pk) := Ec.Chain(b.pk, Adv(b.ck, |b.msgs|), b.start + |b.msgs|)]))
  {
    hide DeliverAll, Moved;
    var all := set d | d in order;
    MovedNone(s.dr, b.pk, LineOf(b), |b.msgs|);
    DeliverMany(cfg, s, b, {}, order);
    assert {} + all == all;
    MovedAll(s.dr, b.pk, LineOf(b), |b.msgs|, all);
  }

  // ---- A batch that opens an epoch ---------------------------------------------------------

  /** The first messages of an epoch the session has not followed yet, sealed under the next header
      key: whichever arrives first performs the DH step and brings that key into use. */
  ghost predicate Opening(cfg: Config, s: State, b: Batch) {
    && b.start == 0 && |b.msgs| == |b.hs| > 0 && s.nhkr.key == b.hk && s.hkr.key != b.hk
    && Ec.FindChain(s.dr.chains, b.pk) < 0
    && Distinct(s.dr.skipped) && Order.NoneFiled(s.dr.skipped, HeaderLabel(b.hk))
    && b.ck == ChainKey(s.dr.rk, Dh(s.dr.dhs, b.pk))
    && (forall d :: 0 <= d < |b.hs| ==> b.hs[d].pk == b.pk && b.hs[d].pn == b.hs[0].pn)
    && RatchetRecv(cfg, s, b.hs[0], true).Ok?
    && |RatchetRecv(cfg, s, b.hs[0], true).value.dr.skipped| + |b.msgs| <= MaxSkip(cfg)
  }

  lemma OpeningReady(cfg: Config, s: State, b: Batch)
    requires Opening(cfg, s, b)
    ensures var s1 := RatchetRecv(cfg, s, b.hs[0], true).value;
            Ready(cfg, s1, b) && Ec.FindChain(s1.dr.chains, b.pk) == |s1.dr.chains| - 1 >= 0
  {
    hide StoreRange, RatchetRecv, Ec.PushChain, Ec.FindChain, Distinct;
    OpeningParts(cfg, s, b);
    Ec.Pushed(s.dr.chains, Ec.Chain(b.pk, b.ck, 0));
  }

  lemma OpeningParts(cfg: Config, s: State, b: Batch)
    requires Opening(cfg, s, b)
    ensures var s1 := RatchetRecv(cfg, s, b.hs[0], true).value;
            && s1.hkr.key == b.hk && s1.dr.dhRSet && s1.dr.dhr == b.pk
            && s1.dr.chains == Ec.PushChain(s.dr.chains, Ec.Chain(b.pk, b.ck, 0))
            && Distinct(s1.dr.skipped) && Order.NoneFiled(s1.dr.skipped, HeaderLabel(b.hk))
  {
    hide StoreRange, Ec.PushChain, Distinct;
    var p := Ec.PreviousChain(s.dr);
    if p >= 0 {
      StoreRangeFacts(MaxSkip(cfg), s.dr.skipped, HeaderLabel(s.hkr.key), s.dr.chains[p].ck, s.dr.chains[p].nr, b.hs[0].pn);
    }
  }

  /** The first arrival, whichever it is, is read as if the step had been taken before. */
  lemma FirstArrival(cfg: Config, s: State, b: Batch, d: nat)
    requires Opening(cfg, s, b) && Honest(cfg, b) && d < |b.msgs|
    ensures var s1 := RatchetRecv(cfg, s, b.hs[0], true).value;
            Decrypt(cfg, s, b.msgs[d], b.ads[d]) == Decrypt(cfg, s1, b.msgs[d], b.ads[d])
  {
    hide Decrypt, Honest, Moved, ServingId, Opens, Has, StoreRange, Ready;
    var s1 := RatchetRecv(cfg, s, b.hs[0], true).value;
    OpeningReady(cfg, s, b);
    MovedNone0(cfg, s1, b);
    DeliverOne(cfg, s1, b, {}, d);
    HonestFacts(cfg, s1, b, d);
    NoneServes(s.dr.skipped, b.msgs[d].header, LineOf(b), d);
    OnlyOpens(s.hkr.key, b.hk, b.msgs[d].header);
    SameKey(cfg, s, b.hs[0], b.hs[d], b.msgs[d].header);
    SameDecrypt(cfg, s, s1, b.msgs[d], b.ads[d]);
  }

  lemma MovedNone0(cfg: Config, s: State, b: Batch)
    requires Ready(cfg, s, b) && b.start + |b.msgs| <= U32_MAX
    ensures After(s, b, {}) == s
  {
    MovedNone(s.dr, b.pk, LineOf(b), |b.msgs|);
  }

  lemma NoneServes(q: seq<Entry>, header: SealedHeader, v: Line, d: nat)
    requires Order.NoneFiled(q, v.lab) && v.start + d <= U32_MAX && ServingId(header) == Some(FiledId(v, d))
    ensures !Filed(q, header)
  {}

  lemma OnlyOpens(other: Key, hk: Key, header: SealedHeader)
    requires Opens(hk, header) && other != hk
    ensures !Opens(other, header)
  {}

  lemma SameKey(cfg: Config, s: State, h0: Header, h: Header, header: SealedHeader)
    requires RatchetRecv(cfg, s, h0, true).Ok? && h.pk == h0.pk && h.pn == h0.pn
    requires !Filed(s.dr.skipped, header) && !Opens(s.hkr.key, header) && Opens(s.nhkr.key, header) && DecodeHeader(header.header) == Ok(h)
    requires !Filed(RatchetRecv(cfg, s, h0, true).value.dr.skipped, header)
    ensures ReceiveKey(cfg, s, header) == ReceiveKey(cfg, RatchetRecv(cfg, s, h0, true).value, header)
  {
    hide StoreRange, Adv, ReceiveOnChain, Filed;
  }

  lemma SameDecrypt(cfg: Config, s: State, s1: State, m: HeMessage, ad: bytes)
    requires ReceiveKey(cfg, s, m.header) == ReceiveKey(cfg, s1, m.header) && Decrypt(cfg, s1, m, ad).0.Ok?
    ensures Decrypt(cfg, s, m, ad) == Decrypt(cfg, s1, m, ad)
  {
    hide ReceiveKey, HeaderAD;
  }

  /** The messages that open an epoch arrive in any order: every one decrypts, and the session ends
      past the DH step, with rotated header keys, the new chain at their number, and nothing more on
      file than the step itself left there. */
  lemma EpochInAnyOrder(cfg: Config, s: State, b: Batch, order: seq<nat>)
    requires Opening(cfg, s, b) && Honest(cfg, b) && Permutation(order, |b.msgs|)
    ensures var (res, t) := DeliverAll(cfg, s, b, order);
            var s1 := RatchetRecv(cfg, s, b.hs[0], true).value;
            && |res| == |order| && (forall i :: 0 <= i < |order| ==> res[i] == Ok(b.texts[order[i]]))
            && Ec.FindChain(s1.dr.chains, b.pk) == |s1.dr.chains| - 1 >= 0
            && t == s1.(dr := s1.dr.(chains := s1.dr.chains[|s1.dr.chains| - 1 := Ec.Chain(b.pk, Adv(b.ck, |b.msgs|), |b.msgs|)]))
  {
    hide Honest, Ready, Decrypt, Adv, Order.NoneFiled, DeliverAll, RatchetRecv;
    var s1 := RatchetRecv(cfg, s, b.hs[0], true).value;
    OpeningReady(cfg, s, b);
    assert 0 in order;
    FirstArrival(cfg, s, b, order[0]);
    SameAfterFirst(cfg, s, s1, b, order);
    AnyOrder(cfg, s1, b, order);
  }

  lemma SameAfterFirst(cfg: Config, s: State, s1: State, b: Batch, order: seq<nat>)
    requires Honest(cfg, b) && order != [] && forall i :: 0 <= i < |order| ==> order[i] < |b.msgs|
    requires Decrypt(cfg, s, b.msgs[order[0]], b.ads[order[0]]) == Decrypt(cfg, s1, b.msgs[order[0]], b.ads[order[0]])
    ensures DeliverAll(cfg, s, b, order) == DeliverAll(cfg, s1, b, order)
  {
    hide Honest, Decrypt;
  }
}
