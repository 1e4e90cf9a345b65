/** Which message keys can be derived from the state of an elliptic-curve ratchet, whichever way
    its headers travel: from everything it holds, with its private key and all public keys. */
module ChainErasure {
  import opened Bytes
  import opened Terms
  import opened SkippedQueue
  import opened RatchetSpec
  import opened History
  import Base = BaseRuns

  /** Key material in the state; `more` is what the session holds besides, such as header keys. */
  ghost predicate Held(p: State, more: set<Key>, k: Key) {
    || k == p.rk || p.cks == Some(k) || k in more
    || (exists i :: 0 <= i < |p.chains| && p.chains[i].ck == k)
    || Stored(p.skipped, k)
  }

  ghost predicate Stored(q: seq<Entry>, k: Key) {
    exists e :: e in q && e.mk == k
  }

  /** What follows from the material with the private keys `own`. */
  ghost predicate Derivable(p: State, more: set<Key>, own: set<key32>, k: Key) {
    || Held(p, more, k)
    || match k
       case Foreign(_) => true
       case RootKey(rk, dh) => dh * own != {} && Derivable(p, more, own, rk)
       case ChainKey(rk, dh) => dh * own != {} && Derivable(p, more, own, rk)
       case NextHeaderKey(rk, dh) => dh * own != {} && Derivable(p, more, own, rk)
       case NextChain(ck) => Derivable(p, more, own, ck)
       case MessageKey(ck) => Derivable(p, more, own, ck)
       case _ => false
  }

  /** A state at root level `l` of the history, sending in epoch `me` and reading up to epoch `pe`. */
  ghost predicate At(keys: seq<key32>, l: nat, me: nat, pe: int, p: State) {
    && l < |keys| && me < |keys| && p.rk == R(keys, l)
    && (p.cks.Some? ==> me >= 1 && p.cks == Some(Adv(C(keys, me), p.ns)))
    && Base.ChainsInv(keys, pe, p.chains)
    && (forall e :: e in p.skipped ==> exists j :: 1 <= j < |keys| && e.mk == MK(keys, j, e.id.n))
  }

  ghost predicate Distinct32(keys: seq<key32>) {
    forall i, j :: 0 <= i < j < |keys| ==> keys[i] != keys[j]
  }

  /** Keys that no root, chain or message key of the history is among or follows from. */
  ghost predicate Harmless(more: set<Key>) {
    forall k :: k in more ==> k.NextHeaderKey? || k == Zeroed || (k.Shared? && k != SK)
  }

  /** Each DH step from root level `l` to level `j` can be taken with one of the private keys. */
  ghost predicate Steps(keys: seq<key32>, own: set<key32>, l: nat, j: nat)
    requires j < |keys|
  {
    forall t :: l <= t < j ==> keys[t] in own || keys[t + 1] in own
  }

  // ---- What is held ------------------------------------------------------------------------

  lemma ChainHolds(keys: seq<key32>, pe: int, chains: seq<Chain>, i: nat)
    requires Base.ChainsInv(keys, pe, chains) && i < |chains|
    ensures var j := Base.EpochAt(pe, |chains|, i);
            1 <= j < |keys| && chains[i].pk == keys[j] && chains[i].ck == Adv(C(keys, j), chains[i].nr)
  {
    assert Base.ChainAt(keys, Base.EpochAt(pe, |chains|, i), chains[i]);
  }

  lemma AdvShape(keys: seq<key32>, j: nat, n: nat)
    requires 1 <= j < |keys|
    ensures var k := Adv(C(keys, j), n); (n == 0 ==> k.ChainKey?) && (n > 0 ==> k.NextChain?)
  {}

  lemma RootShape(keys: seq<key32>, i: nat)
    requires i < |keys|
    ensures R(keys, i).RootKey? || R(keys, i) == SK
  {}

  lemma FiledMessages(keys: seq<key32>, p: State, k: Key)
    requires forall e :: e in p.skipped ==> exists j :: 1 <= j < |keys| && e.mk == MK(keys, j, e.id.n)
    ensures Stored(p.skipped, k) ==> k.MessageKey?
  {
    hide C, R, Adv;
  }

  /** Of root keys, the one the session stands at. */
  lemma HeldRoot(keys: seq<key32>, l: nat, me: nat, pe: int, p: State, more: set<Key>, i: nat)
    requires At(keys, l, me, pe, p) && Harmless(more) && i < |keys|
    ensures Held(p, more, R(keys, i)) <==> i == l
  {
    hide Base.ChainsInv, C, Adv, MK;
    RootShape(keys, i);
    if Held(p, more, R(keys, i)) && i != l {
      NotRoot(keys, l, me, pe, p, more, R(keys, i));
      RInjective(keys, i, l);
    }
  }

  lemma NotRoot(keys: seq<key32>, l: nat, me: nat, pe: int, p: State, more: set<Key>, k: Key)
    requires At(keys, l, me, pe, p) && Harmless(more) && (k.RootKey? || k == SK) && Held(p, more, k)
    ensures k == p.rk
  {
    hide Base.ChainsInv, C, R;
    if p.cks == Some(k) {
      AdvShape(keys, me, p.ns);
    } else if k != p.rk {
      FiledMessages(keys, p, k);
      var i :| 0 <= i < |p.chains| && p.chains[i].ck == k;
      ChainHolds(keys, pe, p.chains, i);
      AdvShape(keys, Base.EpochAt(pe, |p.chains|, i), p.chains[i].nr);
    }
  }

  lemma SameChain(keys: seq<key32>, i: nat, m: nat, j: nat, n: nat)
    requires 1 <= i < |keys| && 1 <= j < |keys|
    ensures Adv(C(keys, i), m) == Adv(C(keys, j), n) <==> i == j && m == n
  {
    if Adv(C(keys, i), m) == Adv(C(keys, j), n) {
      AdvInjective(C(keys, i), m, C(keys, j), n);
      RInjective(keys, i - 1, j - 1);
    }
  }

  /** A retained chain of epoch `j` stands at position `n`, or at or before it. */
  ghost predicate Stands(keys: seq<key32>, p: State, j: nat, n: nat)
    requires j < |keys|
  {
    exists i :: 0 <= i < |p.chains| && p.chains[i].pk == keys[j] && p.chains[i].nr == n
  }

  ghost predicate Covers(keys: seq<key32>, p: State, j: nat, n: nat)
    requires j < |keys|
  {
    exists i :: 0 <= i < |p.chains| && p.chains[i].pk == keys[j] && p.chains[i].nr <= n
  }

  lemma CoversStands(keys: seq<key32>, p: State, j: nat, n: nat)
    requires j < |keys|
    ensures Covers(keys, p, j, n) <==> exists m: nat :: m <= n && Stands(keys, p, j, m)
  {
    if Covers(keys, p, j, n) {
      var i :| 0 <= i < |p.chains| && p.chains[i].pk == keys[j] && p.chains[i].nr <= n;
      var m: nat := p.chains[i].nr;
      assert Stands(keys, p, j, m);
    }
  }

  /** Of an epoch's chain keys, the sending chain's and those of retained chains. */
  lemma HeldChain(keys: seq<key32>, l: nat, me: nat, pe: int, p: State, more: set<Key>, j: nat, n: nat)
    requires At(keys, l, me, pe, p) && Distinct32(keys) && Harmless(more) && 1 <= j < |keys|
    ensures Held(p, more, Adv(C(keys, j), n)) <==> (p.cks.Some? && j == me && n == p.ns) || Stands(keys, p, j, n)
  {
    hide Base.ChainsInv, C, R, Adv, MK;
    var k := Adv(C(keys, j), n);
    AdvShape(keys, j, n);
    RootShape(keys, l);
    forall i | 0 <= i < |p.chains|
      ensures p.chains[i].ck == k <==> p.chains[i].pk == keys[j] && p.chains[i].nr == n
    {
      ChainHolds(keys, pe, p.chains, i);
      SameChain(keys, Base.EpochAt(pe, |p.chains|, i), p.chains[i].nr, j, n);
    }
    if p.cks.Some? {
      SameChain(keys, me, p.ns, j, n);
    }
    FiledMessages(keys, p, k);
  }

  // ---- What can be derived -----------------------------------------------------------------

  /** A root key can be derived if and only if the session stands at it, or before it and the steps
      between can be taken: the earlier ones are gone. */
  lemma {:induction false} RootDerivable(keys: seq<key32>, l: nat, me: nat, pe: int, p: State, more: set<Key>, own: set<key32>, i: nat)
    requires At(keys, l, me, pe, p) && Harmless(more) && l < |keys| && i < |keys|
    ensures Derivable(p, more, own, R(keys, i)) <==> i >= l && Steps(keys, own, l, i)
  {
    hide At, Held, Harmless;
    HeldRoot(keys, l, me, pe, p, more, i);
    RootShape(keys, i);
    if i > 0 {
      RootDerivable(keys, l, me, pe, p, more, own, i - 1);
      OneStep(keys, own, i);
    }
  }

  lemma OneStep(keys: seq<key32>, own: set<key32>, i: nat)
    requires 0 < i < |keys|
    ensures Dh(keys[i - 1], keys[i]) * own != {} <==> keys[i - 1] in own || keys[i] in own
  {
    if Dh(keys[i - 1], keys[i]) * own != {} {
      var k :| k in Dh(keys[i - 1], keys[i]) * own;
    } else {
      assert keys[i - 1] !in Dh(keys[i - 1], keys[i]) * own && keys[i] !in Dh(keys[i - 1], keys[i]) * own;
    }
  }

  /** The first key of an epoch: held, or beyond the root key and reached by the steps. */
  lemma FirstChain(keys: seq<key32>, l: nat, me: nat, pe: int, p: State, more: set<Key>, own: set<key32>, j: nat)
    requires At(keys, l, me, pe, p) && Harmless(more) && l < |keys| && 1 <= j < |keys|
    ensures Derivable(p, more, own, C(keys, j)) <==> Held(p, more, C(keys, j)) || (j > l && Steps(keys, own, l, j))
  {
    hide At, Held, R, Adv, MK, Harmless;
    RootDerivable(keys, l, me, pe, p, more, own, j - 1);
    OneStep(keys, own, j);
  }

  lemma {:induction false} ChainDerivable(p: State, more: set<Key>, own: set<key32>, c: Key, n: nat)
    ensures Derivable(p, more, own, Adv(c, n)) <==> Derivable(p, more, own, c) || exists m: nat :: m <= n && Held(p, more, Adv(c, m))
  {
    hide Held;
    if n > 0 {
      ChainDerivable(p, more, own, c, n - 1);
      assert Adv(c, n).NextChain? && Adv(c, n).ck == Adv(c, n - 1);
    } else {
      assert Adv(c, 0) == c;
    }
  }

  lemma MessageDerivable(keys: seq<key32>, l: nat, me: nat, pe: int, p: State, more: set<Key>, own: set<key32>, j: nat, n: nat)
    requires At(keys, l, me, pe, p) && Harmless(more) && 1 <= j < |keys|
    ensures Derivable(p, more, own, MK(keys, j, n)) <==> Stored(p.skipped, MK(keys, j, n)) || Derivable(p, more, own, Adv(C(keys, j), n))
  {
    hide Base.ChainsInv, C, R, Adv, Stored;
    RootShape(keys, l);
    if p.cks.Some? {
      AdvShape(keys, me, p.ns);
    }
    forall i | 0 <= i < |p.chains|
      ensures p.chains[i].ck != MK(keys, j, n)
    {
      ChainHolds(keys, pe, p.chains, i);
      AdvShape(keys, Base.EpochAt(pe, |p.chains|, i), p.chains[i].nr);
    }
  }

  /** A message key of the history can be derived if and only if it is filed, or a retained chain
      of its epoch stands at or before its position, or the sending chain does, or its epoch lies
      beyond the root key and the steps to it can be taken. */
  lemma KeyDerivable(keys: seq<key32>, l: nat, me: nat, pe: int, p: State, more: set<Key>, own: set<key32>, j: nat, n: nat)
    requires At(keys, l, me, pe, p) && Distinct32(keys) && Harmless(more) && l < |keys| && 1 <= j < |keys|
    ensures Derivable(p, more, own, MK(keys, j, n)) <==>
              || Stored(p.skipped, MK(keys, j, n))
              || Covers(keys, p, j, n)
              || (p.cks.Some? && j == me && p.ns <= n)
              || (j > l && Steps(keys, own, l, j))
  {
    hide At, Held, C, R, Adv, MK, Stored, Derivable, Steps, Covers, Distinct32, Harmless;
    MessageDerivable(keys, l, me, pe, p, more, own, j, n);
    ChainDerivable(p, more, own, C(keys, j), n);
    FirstChain(keys, l, me, pe, p, more, own, j);
    ZeroSteps(C(keys, j));
    HeldByNow(keys, l, me, pe, p, more, j, n);
  }

  /** An epoch's chain key at or before position `n` is held if and only if a retained chain covers the
      position or the sending chain does. */
  lemma HeldByNow(keys: seq<key32>, l: nat, me: nat, pe: int, p: State, more: set<Key>, j: nat, n: nat)
    requires At(keys, l, me, pe, p) && Distinct32(keys) && Harmless(more) && 1 <= j < |keys|
    ensures (exists m: nat :: m <= n && Held(p, more, Adv(C(keys, j), m))) <==>
              Covers(keys, p, j, n) || (p.cks.Some? && j == me && p.ns <= n)
  {
    hide At, Held, C, R, Adv, Stands, Covers, Distinct32, Harmless;
    CoversStands(keys, p, j, n);
    if m: nat :| m <= n && Held(p, more, Adv(C(keys, j), m)) {
      HeldChain(keys, l, me, pe, p, more, j, m);
    }
    if m: nat :| m <= n && Stands(keys, p, j, m) {
      HeldChain(keys, l, me, pe, p, more, j, m);
    }
    HeldChain(keys, l, me, pe, p, more, j, p.ns);
  }

  // ---- Two states together -----------------------------------------------------------------

  /** What follows from the material of either of two states, such as a session and its snapshot. */
  ghost predicate FromBoth(p: State, q: State, more: set<Key>, own: set<key32>, k: Key) {
    || Held(p, more, k) || Held(q, more, k)
    || match k
       case Foreign(_) => true
       case RootKey(rk, dh) => dh * own != {} && FromBoth(p, q, more, own, rk)
       case ChainKey(rk, dh) => dh * own != {} && FromBoth(p, q, more, own, rk)
       case NextHeaderKey(rk, dh) => dh * own != {} && FromBoth(p, q, more, own, rk)
       case NextChain(ck) => FromBoth(p, q, more, own, ck)
       case MessageKey(ck) => FromBoth(p, q, more, own, ck)
       case _ => false
  }

  /** Everything that `q` holds follows from what `p` holds. */
  ghost predicate Yields(p: State, q: State, more: set<Key>, own: set<key32>) {
    forall k :: Held(q, more, k) ==> Derivable(p, more, own, k)
  }

  /** Then the second state adds nothing. */
  lemma {:induction false} Absorbed(p: State, q: State, more: set<Key>, own: set<key32>, k: Key)
    requires Yields(p, q, more, own)
    ensures FromBoth(p, q, more, own, k) <==> Derivable(p, more, own, k)
    decreases k
  {
    hide Held;
    match k
    case RootKey(rk, dh) => Absorbed(p, q, more, own, rk);
    case ChainKey(rk, dh) => Absorbed(p, q, more, own, rk);
    case NextHeaderKey(rk, dh) => Absorbed(p, q, more, own, rk);
    case NextChain(ck) => Absorbed(p, q, more, own, ck);
    case MessageKey(ck) => Absorbed(p, q, more, own, ck);
    case _ =>
  }

  lemma {:induction false} DerivableThrough(p: State, q: State, more: set<Key>, own: set<key32>, k: Key)
    requires Yields(p, q, more, own) && Derivable(q, more, own, k)
    ensures Derivable(p, more, own, k)
    decreases k
  {
    hide Held;
    if !Held(q, more, k) {
      match k
      case RootKey(rk, dh) => DerivableThrough(p, q, more, own, rk);
      case ChainKey(rk, dh) => DerivableThrough(p, q, more, own, rk);
      case NextHeaderKey(rk, dh) => DerivableThrough(p, q, more, own, rk);
      case NextChain(ck) => DerivableThrough(p, q, more, own, ck);
      case MessageKey(ck) => DerivableThrough(p, q, more, own, ck);
      case _ =>
    }
  }

  lemma YieldsThrough(p: State, q: State, t: State, more: set<Key>, own: set<key32>)
    requires Yields(p, q, more, own) && Yields(q, t, more, own)
    ensures Yields(p, t, more, own)
  {
    hide Held, Derivable;
    forall k | Held(t, more, k)
      ensures Derivable(p, more, own, k)
    {
      DerivableThrough(p, q, more, own, k);
    }
  }

  // ---- What follows from a state ------------------------------------------------------------

  lemma MessageFollows(p: State, more: set<Key>, own: set<key32>, ck: Key, n: nat)
    requires Derivable(p, more, own, ck)
    ensures Derivable(p, more, own, Adv(ck, n)) && Derivable(p, more, own, MessageKey(Adv(ck, n)))
  {
    hide Held;
    ChainDerivable(p, more, own, ck, n);
  }

  lemma StoreFollows(p: State, more: set<Key>, own: set<key32>, cap: nat, lab: Label, ck: Key, from: u32, until: u32, k: Key)
    requires Distinct(p.skipped) && Derivable(p, more, own, ck) && Stored(StoreRange(cap, p.skipped, lab, ck, from, until), k)
    ensures Derivable(p, more, own, k)
  {
    hide Derivable, StoreRange, Adv;
    var e :| e in StoreRange(cap, p.skipped, lab, ck, from, until) && e.mk == k;
    StoreRangeFacts(cap, p.skipped, lab, ck, from, until);
    if e in p.skipped {
      HeldFollows(p, more, own, k);
    } else {
      MessageFollows(p, more, own, ck, e.id.n - from);
    }
  }

  lemma HeldFollows(p: State, more: set<Key>, own: set<key32>, k: Key)
    requires Held(p, more, k)
    ensures Derivable(p, more, own, k)
  {}

  lemma StepFollows(p: State, more: set<Key>, own: set<key32>, dh: set<key32>)
    requires dh * own != {}
    ensures Derivable(p, more, own, RootKey(p.rk, dh)) && Derivable(p, more, own, ChainKey(p.rk, dh))
  {
    HeldFollows(p, more, own, p.rk);
  }

  lemma NextFollows(p: State, more: set<Key>, own: set<key32>, ck: Key)
    requires Derivable(p, more, own, ck)
    ensures Derivable(p, more, own, NextChain(ck))
  {}

  lemma TakeYields(p: State, more: set<Key>, own: set<key32>, id: Id)
    requires Distinct(p.skipped)
    ensures Yields(p, p.(skipped := Remove(p.skipped, id)), more, own)
  {
    hide Derivable, Remove;
    RemoveFacts(p.skipped, id);
    forall k | Held(p.(skipped := Remove(p.skipped, id)), more, k)
      ensures Derivable(p, more, own, k)
    {
      HeldFollows(p, more, own, k);
    }
  }

  lemma PushedHeld(p: State, p1: State, more: set<Key>, k: Key, c: Chain)
    requires p1.chains == PushChain(p.chains, c) && p1.cks == p.cks && Held(p1, more, k) && k != p1.rk && k != c.ck
    requires Stored(p1.skipped, k) ==> p1.skipped == p.skipped
    ensures Held(p, more, k)
  {
    if x :| 0 <= x < |p1.chains| && p1.chains[x].ck == k {
      assert p1.chains[x] in p.chains;
    }
  }

  lemma YieldsItself(p: State, more: set<Key>, own: set<key32>)
    ensures Yields(p, p, more, own)
  {
    hide Held;
  }
}
