/** Messages of one post-quantum epoch may arrive in any order: each decrypts, and the session ends
    in the state that in-order delivery leaves. */
module PqOrder {
  import opened Bytes
  import opened Terms
  import opened Wire
  import opened SkippedBatch
  import opened PqSpec

  /** A chain key `d` positions on from position `start`. */
  function KeyOn(ck: Key, start: u32, d: nat): Key
    requires start + d <= U32_MAX
  {
    if d == 0 then ck else PqNext(KeyOn(ck, start, d - 1), start + d - 1)
  }

  /** A stretch of `k` positions of an epoch's receiving chain. */
  datatype Stretch = Stretch(epoch: u32, ck: Key, start: u32, k: nat)

  ghost predicate Fits(v: Stretch, maxSkip: u32) {
    v.k <= maxSkip && v.start + v.k <= U32_MAX
  }

  function MessageAt(v: Stretch, d: nat): Key
    requires v.start + d <= U32_MAX
  {
    PqMessage(KeyOn(v.ck, v.start, d), v.start + d)
  }

  /** The session stands at the start of the stretch and has none of its keys on file, nor an empty
      list for its epoch. */
  function MessageFor(v: Stretch, n: u32): Key {
    if n < v.start then Zeroed else MessageAt(v, n - v.start)
  }

  ghost predicate Ready(s: State, v: Stretch) {
    && v.epoch in s.chains && s.chains[v.epoch].recv == Some(KdfChain(v.ck, v.start))
    && (forall n: u32 :: IsSkipped(s, v.epoch, n) ==> n < v.start)
    && (v.epoch in s.skipped ==> s.skipped[v.epoch] != map[])
  }

  /** The keys of the positions below `top` that are not in `done`. */
  ghost function Passed(v: Stretch, done: set<nat>, top: nat): map<u32, Key>
    requires v.start + top <= U32_MAX
  {
    map n: u32 | v.start <= n < v.start + top && n - v.start !in done :: MessageFor(v, n)
  }

  ghost function Lists(s: State, v: Stretch, passed: map<u32, Key>): map<u32, map<u32, Key>> {
    if passed == map[] then s.skipped else s.skipped[v.epoch := SkippedOf(s, v.epoch) + passed]
  }

  /** The state after the positions in `done` have been read, whatever their order. */
  ghost function After(s: State, v: Stretch, done: set<nat>): State
    requires v.start + v.k <= U32_MAX && v.epoch in s.chains
  {
    var top := Top(done, v.k);
    s.(chains := s.chains[v.epoch := s.chains[v.epoch].(recv := Some(KdfChain(KeyOn(v.ck, v.start, top), v.start + top)))],
       skipped := Lists(s, v, Passed(v, done, top)))
  }

  // ---- Passing over positions --------------------------------------------------------------

  ghost function Between(v: Stretch, from: nat, until: nat): map<u32, Key>
    requires v.start + until <= U32_MAX
  {
    map n: u32 | v.start + from <= n < v.start + until :: MessageFor(v, n)
  }

  lemma {:induction false} SkipChainExactly(v: Stretch, from: nat, until: nat, keys: map<u32, Key>)
    requires from <= until && v.start + until <= U32_MAX
    ensures SkipChain(KdfChain(KeyOn(v.ck, v.start, from), v.start + from), keys, v.start + until)
            == (KdfChain(KeyOn(v.ck, v.start, until), v.start + until), keys + Between(v, from, until))
    decreases until - from
  {
    if from < until {
      SkipChainExactly(v, from + 1, until, keys[v.start + from := MessageAt(v, from)]);
      assert keys[v.start + from := MessageAt(v, from)] + Between(v, from + 1, until) == keys + Between(v, from, until);
    } else {
      assert keys + Between(v, from, until) == keys;
    }
  }

  /** What is passed over on the way to `d` joins what is on file. */
  lemma PassedOn(v: Stretch, done: set<nat>, d: nat)
    requires v.start + v.k <= U32_MAX && Top(done, v.k) <= d < v.k
    ensures Passed(v, done, Top(done, v.k)) + Between(v, Top(done, v.k), d) == Passed(v, done, d)
    ensures Passed(v, done + {d}, d + 1) == Passed(v, done, d)
  {
    hide MessageAt;
    forall x | Top(done, v.k) <= x < d
      ensures x !in done
    {
      TopBounds(done, v.k, x);
    }
  }

  lemma JoinPassed(s: State, v: Stretch, passed: map<u32, Key>, more: map<u32, Key>)
    ensures SkippedOf(s.(skipped := Lists(s, v, passed)), v.epoch) + more == SkippedOf(s, v.epoch) + (passed + more)
  {
    assert SkippedOf(s, v.epoch) + map[] == SkippedOf(s, v.epoch);
  }

  lemma AfterShape(s: State, v: Stretch, done: set<nat>)
    requires v.start + v.k <= U32_MAX && v.epoch in s.chains
    ensures var t, top := After(s, v, done), Top(done, v.k);
            && v.epoch in t.chains && t.chains[v.epoch] == s.chains[v.epoch].(recv := Some(KdfChain(KeyOn(v.ck, v.start, top), v.start + top)))
            && t.skipped == Lists(s, v, Passed(v, done, top))
            && t == s.(chains := s.chains[v.epoch := t.chains[v.epoch]], skipped := t.skipped)
  {
    hide Passed, Lists, KeyOn;
  }

  lemma SkipAhead(maxSkip: u32, s: State, v: Stretch, done: set<nat>, d: nat)
    requires Fits(v, maxSkip) && Ready(s, v) && Top(done, v.k) <= d < v.k
    ensures Skip(maxSkip, After(s, v, done), v.epoch, v.start + d) ==
            Ok(s.(chains := s.chains[v.epoch := s.chains[v.epoch].(recv := Some(KdfChain(KeyOn(v.ck, v.start, d), v.start + d)))],
                  skipped := Lists(s, v, Passed(v, done, d))))
  {
    hide Passed, Lists, KeyOn, After, Between, SkipChain, SkippedOf, Top;
    var top, t := Top(done, v.k), After(s, v, done);
    AfterShape(s, v, done);
    if top < d {
      SkipChainExactly(v, top, d, SkippedOf(t, v.epoch));
      PassedOn(v, done, d);
      LastBetween(v, top, d, Passed(v, done, top));
      JoinLists(s, v, Passed(v, done, top), Between(v, top, d), t);
      UpdateTwice(s.chains, v.epoch, t.chains[v.epoch], s.chains[v.epoch].(recv := Some(KdfChain(KeyOn(v.ck, v.start, d), v.start + d))));
    }
  }

  lemma UpdateTwice<V>(m: map<u32, V>, e: u32, x: V, y: V)
    ensures m[e := x][e := y] == m[e := y]
  {}

  lemma LastBetween(v: Stretch, from: nat, until: nat, passed: map<u32, Key>)
    requires from < until && v.start + until <= U32_MAX
    ensures passed + Between(v, from, until) != map[]
  {
    assert v.start + from in Between(v, from, until);
    assert v.start + from in passed + Between(v, from, until);
  }

  lemma JoinLists(s: State, v: Stretch, passed: map<u32, Key>, more: map<u32, Key>, t: State)
    requires t.skipped == Lists(s, v, passed) && passed + more != map[]
    ensures t.skipped[v.epoch := SkippedOf(t, v.epoch) + more] == Lists(s, v, passed + more)
  {
    JoinPassed(s, v, passed, more);
    assert SkippedOf(t, v.epoch) == SkippedOf(s.(skipped := Lists(s, v, passed)), v.epoch);
  }

  // ---- Reading one position ----------------------------------------------------------------

  lemma NotFiled(s: State, v: Stretch, done: set<nat>, d: nat)
    requires v.start + v.k <= U32_MAX && Ready(s, v) && d < v.k
    ensures IsSkipped(After(s, v, done), v.epoch, v.start + d) <==> d < Top(done, v.k) && d !in done
    ensures d < Top(done, v.k) && d !in done ==> After(s, v, done).skipped[v.epoch][v.start + d] == MessageAt(v, d)
  {
    hide Lists, MessageAt, Passed, After, Top;
    AfterShape(s, v, done);
    InPassed(v, done, Top(done, v.k), d);
    InLists(s, v, Passed(v, done, Top(done, v.k)), v.start + d);
  }

  lemma InPassed(v: Stretch, done: set<nat>, top: nat, d: nat)
    requires v.start + top <= U32_MAX && v.start + d <= U32_MAX
    ensures v.start + d in Passed(v, done, top) <==> d < top && d !in done
    ensures v.start + d in Passed(v, done, top) ==> Passed(v, done, top)[v.start + d] == MessageAt(v, d)
  {
    hide MessageAt;
    assert MessageFor(v, v.start + d) == MessageAt(v, d);
  }

  lemma InLists(s: State, v: Stretch, passed: map<u32, Key>, n: u32)
    requires !IsSkipped(s, v.epoch, n)
    ensures var lists := Lists(s, v, passed);
            && (v.epoch in lists && n in lists[v.epoch] <==> n in passed)
            && (n in passed ==> lists[v.epoch][n] == passed[n])
  {}

  lemma ReadAhead(maxSkip: u32, s: State, v: Stretch, done: set<nat>, d: nat)
    requires Fits(v, maxSkip) && Ready(s, v) && Top(done, v.k) <= d < v.k
    ensures var t := Skip(maxSkip, After(s, v, done), v.epoch, v.start + d);
            t.Ok? && ReadNext(t.value, v.epoch, v.start + d) == (Ok((v.epoch, MessageAt(v, d))), After(s, v, done + {d}))
  {
    hide Passed, Lists, Top, Skip, After;
    SkipAhead(maxSkip, s, v, done, d);
    PassedOn(v, done, d);
    TopAdds(done, v.k, d);
    AfterShape(s, v, done + {d});
    UpdateTwice(s.chains, v.epoch, s.chains[v.epoch].(recv := Some(KdfChain(KeyOn(v.ck, v.start, d), v.start + d))),
                s.chains[v.epoch].(recv := Some(KdfChain(KeyOn(v.ck, v.start, d + 1), v.start + d + 1))));
  }

  lemma TakeBehind(s: State, v: Stretch, done: set<nat>, d: nat)
    requires v.start + v.k <= U32_MAX && Ready(s, v) && d < Top(done, v.k) && d !in done
    ensures IsSkipped(After(s, v, done), v.epoch, v.start + d)
    ensures TakeSkipped(After(s, v, done), v.epoch, v.start + d) == After(s, v, done + {d})
  {
    hide KeyOn, MessageAt, Top, After, Passed, Lists;
    NotFiled(s, v, done, d);
    TopAdds(done, v.k, d);
    AfterShape(s, v, done);
    AfterShape(s, v, done + {d});
    var top := Top(done, v.k);
    InPassed(v, done, top, d);
    PassedLess(v, done, top, d);
    TakeLists(s, v, Passed(v, done, top), Passed(v, done + {d}, top), v.start + d);
  }

  lemma PassedLess(v: Stretch, done: set<nat>, top: nat, d: nat)
    requires v.start + top <= U32_MAX && v.start + d <= U32_MAX
    ensures Passed(v, done + {d}, top) == Passed(v, done, top) - {v.start + d}
  {
    hide MessageAt;
  }

  lemma TakeLists(s: State, v: Stretch, passed: map<u32, Key>, rest: map<u32, Key>, n: u32)
    requires n in passed && rest == passed - {n} && !IsSkipped(s, v.epoch, n) && (v.epoch in s.skipped ==> s.skipped[v.epoch] != map[])
    ensures var lists := Lists(s, v, passed);
            && v.epoch in lists
            && (if lists[v.epoch] - {n} == map[] then lists - {v.epoch} else lists[v.epoch := lists[v.epoch] - {n}]) == Lists(s, v, rest)
  {
    var lists, of := Lists(s, v, passed), SkippedOf(s, v.epoch);
    assert lists[v.epoch] - {n} == of + rest;
    if of + rest == map[] {
      EmptyJoin(of, rest);
      assert lists - {v.epoch} == s.skipped;
    } else if rest == map[] {
      assert of + rest == of;
    }
  }

  lemma EmptyJoin(a: map<u32, Key>, b: map<u32, Key>)
    requires a + b == map[]
    ensures a == map[] && b == map[]
  {
    assert forall n :: n in a || n in b ==> n in a + b;
  }

  /** Reading one more position, whichever it is. */
  lemma ReadOne(maxSkip: u32, s: State, v: Stretch, done: set<nat>, d: nat, out: RecvOut)
    requires Fits(v, maxSkip) && Ready(s, v) && d < v.k && d !in done && out.epoch == v.epoch && out.output.NoKey?
    ensures ReceiveKey(maxSkip, After(s, v, done), Some(out), v.start + d) == (Ok((v.epoch, MessageAt(v, d))), After(s, v, done + {d}))
  {
    hide After, Ready, Skip, ReadNext, TakeSkipped, MessageAt, Top;
    NotFiled(s, v, done, d);
    if d < Top(done, v.k) {
      TakeBehind(s, v, done, d);
    } else {
      ReadAhead(maxSkip, s, v, done, d);
    }
  }

  lemma AfterNone(s: State, v: Stretch)
    requires v.start + v.k <= U32_MAX && Ready(s, v)
    ensures After(s, v, {}) == s
  {
    EmptyTop(v.k);
    assert Passed(v, {}, 0) == map[];
    assert s.chains[v.epoch := s.chains[v.epoch].(recv := Some(KdfChain(v.ck, v.start)))] == s.chains;
  }

  lemma AfterAll(s: State, v: Stretch, all: set<nat>)
    requires v.start + v.k <= U32_MAX && v.epoch in s.chains && forall d: nat :: d < v.k ==> d in all
    ensures After(s, v, all) ==
            s.(chains := s.chains[v.epoch := s.chains[v.epoch].(recv := Some(KdfChain(KeyOn(v.ck, v.start, v.k), v.start + v.k)))])
  {
    hide KeyOn;
    AllTop(all, v.k);
    assert Passed(v, all, v.k) == map[];
  }

  lemma AllTop(all: set<nat>, k: nat)
    requires forall d: nat :: d < k ==> d in all
    ensures Top(all, k) == k
  {}

  // ---- The first key -----------------------------------------------------------------------

  /** Taking in the provider's answer leaves the session at the start of the stretch. */
  ghost predicate LeadsTo(s: State, out: RecvOut, s1: State) {
    Advance(s, out.output, out.keyEpoch, out.epoch) == Ok(s1)
  }

  lemma FirstKey(maxSkip: u32, s: State, out: RecvOut, s1: State, n: u32, quiet: RecvOut)
    requires LeadsTo(s, out, s1) && quiet.epoch == out.epoch && quiet.output.NoKey?
    ensures ReceiveKey(maxSkip, s, Some(out), n) == ReceiveKey(maxSkip, s1, Some(quiet), n)
  {
    hide Skip, ReadNext, TakeSkipped, ClearOld;
  }

  // ---- A batch of messages -----------------------------------------------------------------

  /** Consecutive messages of one chain, with their caller data and texts. */
  datatype Batch = Batch(v: Stretch, hs: seq<SckaHeader>, cts: seq<Ciphertext>, ads: seq<bytes>, texts: seq<bytes>)

  ghost predicate Honest(cfg: Config, b: Batch) {
    && |b.hs| == |b.cts| == |b.ads| == |b.texts| == b.v.k && Fits(b.v, MaxSkip(cfg))
    && forall d :: 0 <= d < b.v.k ==>
         && b.hs[d].n == b.v.start + d
         && b.cts[d] == Sealed(MessageAt(b.v, d), BuildAD(cfg, EncodeSckaHeader(b.hs[d]), b.ads[d], false), b.texts[d])
  }

  /** The provider answers for the batch's epoch; only with the first arrival may a key come. */
  ghost predicate Answers(b: Batch, outs: seq<RecvOut>) {
    forall i :: 0 <= i < |outs| ==> outs[i].epoch == b.v.epoch && (i > 0 ==> outs[i].output.NoKey?)
  }

  /** Delivers the messages with the given indices, one after the other, each with its answer. */
  ghost function DeliverAll(cfg: Config, s: State, b: Batch, order: seq<nat>, outs: seq<RecvOut>): (seq<Result<bytes>>, State)
    requires Honest(cfg, b) && |outs| == |order| && forall i :: 0 <= i < |order| ==> order[i] < b.v.k
    decreases |order|
  {
    if order == [] then ([], s)
    else
      var (res, s1) := Decrypt(cfg, s, Some(outs[0]), b.hs[order[0]], b.cts[order[0]], b.ads[order[0]]);
      var (rest, s2) := DeliverAll(cfg, s1, b, order[1..], outs[1..]);
      ([res] + rest, s2)
  }

  lemma DeliverOne(cfg: Config, s: State, b: Batch, done: set<nat>, d: nat, out: RecvOut)
    requires Ready(s, b.v) && Honest(cfg, b) && d < b.v.k && d !in done && out.epoch == b.v.epoch && out.output.NoKey?
    ensures Decrypt(cfg, After(s, b.v, done), Some(out), b.hs[d], b.cts[d], b.ads[d]) == (Ok(b.texts[d]), After(s, b.v, done + {d}))
  {
    hide After, ReceiveKey, BuildAD, EncodeSckaHeader, MessageAt, Ready;
    ReadOne(MaxSkip(cfg), s, b.v, done, d, out);
  }

  lemma {:induction false} DeliverMany(cfg: Config, s: State, b: Batch, done: set<nat>, order: seq<nat>, outs: seq<RecvOut>)
    requires Ready(s, b.v) && Honest(cfg, b) && NoRepeats(order) && |outs| == |order|
    requires forall i :: 0 <= i < |outs| ==> outs[i].epoch == b.v.epoch && outs[i].output.NoKey?
    requires forall i :: 0 <= i < |order| ==> order[i] < b.v.k && order[i] !in done
    ensures var (res, t) := DeliverAll(cfg, After(s, b.v, done), b, order, outs);
            && |res| == |order| && (forall i :: 0 <= i < |order| ==> res[i] == Ok(b.texts[order[i]]))
            && t == After(s, b.v, done + (set d | d in order))
    decreases |order|
  {
    hide Ready, After, Decrypt, Honest, Fits;
    if order == [] {
      assert done + (set d | d in order) == done;
    } else {
      var d := order[0];
      DeliverOne(cfg, s, b, done, d, outs[0]);
      DeliverMany(cfg, s, b, done + {d}, order[1..], outs[1..]);
      assert done + (set x | x in order) == done + {d} + (set x | x in order[1..]);
    }
  }

  /** Every order of delivery decrypts every message and leaves the same state: past whatever the
      provider's first answer brings, with the chain moved past the batch and the filed keys as they
      were. */
  lemma AnyOrder(cfg: Config, s: State, s1: State, b: Batch, order: seq<nat>, outs: seq<RecvOut>)
    requires Honest(cfg, b) && Permutation(order, b.v.k) && b.v.k > 0 && |outs| == |order| > 0 && Answers(b, outs)
    requires LeadsTo(s, outs[0], s1) && Ready(s1, b.v)
    ensures var (res, t) := DeliverAll(cfg, s, b, order, outs);
            && |res| == |order| && (forall i :: 0 <= i < |order| ==> res[i] == Ok(b.texts[order[i]]))
            && b.v.epoch in s1.chains
            && t == s1.(chains := s1.chains[b.v.epoch := s1.chains[b.v.epoch].(recv := Some(KdfChain(KeyOn(b.v.ck, b.v.start, b.v.k), b.v.start + b.v.k)))])
  {
    hide DeliverAll, KeyOn, Honest, LeadsTo;
    var quiet := outs[0 := outs[0].(output := NoKey)];
    var all := set d | d in order;
    HonestSize(cfg, b);
    SameAfterFirst(cfg, s, s1, b, order, outs, quiet);
    AfterNone(s1, b.v);
    DeliverMany(cfg, s1, b, {}, order, quiet);
    assert {} + all == all;
    AfterAll(s1, b.v, all);
  }

  lemma HonestSize(cfg: Config, b: Batch)
    requires Honest(cfg, b)
    ensures b.v.start + b.v.k <= U32_MAX
  {}

  lemma SameAfterFirst(cfg: Config, s: State, s1: State, b: Batch, order: seq<nat>, outs: seq<RecvOut>, quiet: seq<RecvOut>)
    requires Honest(cfg, b) && |outs| == |order| > 0 && forall i :: 0 <= i < |order| ==> order[i] < b.v.k
    requires quiet == outs[0 := outs[0].(output := NoKey)]
    requires LeadsTo(s, outs[0], s1) && Ready(s1, b.v) && outs[0].epoch == b.v.epoch
    ensures DeliverAll(cfg, s, b, order, outs) == DeliverAll(cfg, s1, b, order, quiet)
  {
    hide LeadsTo, Decrypt, After, Ready, BuildAD, EncodeSckaHeader, MessageAt;
    var d := order[0];
    AfterNone(s1, b.v);
    DeliverOne(cfg, s1, b, {}, d, quiet[0]);
    FirstKey(MaxSkip(cfg), s, outs[0], s1, b.hs[d].n, quiet[0]);
    SameDecrypt(cfg, s, s1, Some(outs[0]), Some(quiet[0]), b.hs[d], b.cts[d], b.ads[d]);
    assert outs[1..] == quiet[1..];
  }

  lemma SameDecrypt(cfg: Config, s: State, s1: State, out: Option<RecvOut>, quiet: Option<RecvOut>, h: SckaHeader, ct: Ciphertext, ad: bytes)
    requires ReceiveKey(MaxSkip(cfg), s, out, h.n) == ReceiveKey(MaxSkip(cfg), s1, quiet, h.n)
    requires Decrypt(cfg, s1, quiet, h, ct, ad).0.Ok?
    ensures Decrypt(cfg, s, out, h, ct, ad) == Decrypt(cfg, s1, quiet, h, ct, ad)
  {
    hide ReceiveKey, BuildAD, EncodeSckaHeader;
  }
}
