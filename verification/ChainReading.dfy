/** Reading message keys off a receive chain in memory: filing the keys that are passed over and
    deriving the one that is wanted. Both sessions with ratchet keys use these steps. */
module ChainReading {
  import opened Bytes
  import opened Terms
  import opened SkippedQueue
  import opened SkippedStore
  import opened ReceiveChains
  import Ec = RatchetSpec

  /** Ring and store share no object. */
  ghost predicate Apart(chains: ReceiverChains, store: Storage)
    reads chains, chains.repr, store, store.repr
  {
    chains.Valid() && store.Valid() && chains.repr !! store.repr && chains in chains.repr && store in store.repr
  }

  /** Files the keys of the `i`-th chain below `until` and moves the chain there. */
  method SkipMessageKeys(chains: ReceiverChains, store: Storage, chain: ReceiverChain, lab: Label, until: u32, ghost i: nat) returns (ghost calls: nat)
    requires Apart(chains, store) && i < |chains.contents| && chain == chains.chains[Slot(chains.head, i)]
    modifies chains.repr, store
    ensures Apart(chains, store)
    ensures var c := old(chains.contents)[i];
            && chains.contents == (if c.nr < until then old(chains.contents)[i := Ec.Chain(c.pk, Adv(c.ck, until - c.nr), until)] else old(chains.contents))
            && store.contents == StoreRange(store.maxSkip, old(store.contents), lab, c.ck, c.nr, until)
    ensures chains.head == old(chains.head) && chains.count == old(chains.count)
    ensures fresh(chains.repr - old(chains.repr)) && fresh(store.repr - old(store.repr)) && chains.repr >= old(chains.repr) && store.repr >= old(store.repr)
    ensures calls == if old(chains.contents)[i].nr < until then until - old(chains.contents)[i].nr else 0
  {
    hide ReceiverChains.Valid, Storage.Valid, Slot, Put;
    chains.At(i);
    calls := 0;
    ghost var c := chains.contents[i];
    while chain.nr < until
      invariant Apart(chains, store) && chains.head == old(chains.head) && chains.count == old(chains.count) && i < |chains.contents|
      invariant fresh(chains.repr - old(chains.repr)) && fresh(store.repr - old(store.repr)) && chains.repr >= old(chains.repr) && store.repr >= old(store.repr)
      invariant c.nr <= chain.nr && chain.ck != null && chain.pk == c.pk && chain.ck.key == Adv(c.ck, chain.nr - c.nr)
      invariant chain.nr > c.nr ==> chain.nr <= until
      invariant calls == chain.nr - c.nr
      invariant chains.contents == old(chains.contents)[i := Ec.Chain(c.pk, chain.ck.key, chain.nr)]
      invariant StoreRange(store.maxSkip, store.contents, lab, chain.ck.key, chain.nr, until)
                == StoreRange(store.maxSkip, old(store.contents), lab, c.ck, c.nr, until)
      decreases until - chain.nr
    {
      chains.At(i);
      AdvNext(c.ck, chain.nr - c.nr);
      var mk := MessageKey(chain.ck.key);
      store.Store(Id(lab, chain.nr), mk);
      var next := new KeyBuffer(NextChain(chain.ck.key));
      chains.Advance(chain, next, chain.nr + 1, i);
      calls := calls + 1;
    }
  }

  /** Files the keys of positions `from` .. `until` - 1 of a copy of a chain key; the chain the
      key was copied from stays where it is. */
  method FileFromCopy(store: Storage, lab: Label, ck: KeyBuffer, from: u32, until: u32) returns (ghost calls: nat)
    requires store.Valid() && ck !in store.repr && from <= until
    modifies store
    ensures store.Valid() && store.contents == StoreRange(store.maxSkip, old(store.contents), lab, ck.key, from, until)
    ensures fresh(store.repr - old(store.repr)) && store.repr >= old(store.repr) && ck.key == old(ck.key)
    ensures calls == until - from
  {
    hide Storage.Valid, Put;
    var tmp := new KeyBuffer(ck.key);
    var n := from;
    calls := 0;
    while n < until
      invariant from <= n <= until && calls == n - from
      invariant fresh(tmp) && tmp !in store.repr && ck.key == old(ck.key)
      invariant store.Valid() && fresh(store.repr - old(store.repr)) && store.repr >= old(store.repr)
      invariant StoreRange(store.maxSkip, store.contents, lab, tmp.key, n, until)
                == StoreRange(store.maxSkip, old(store.contents), lab, ck.key, from, until)
    {
      var mk := MessageKey(tmp.key);
      store.Store(Id(lab, n), mk);
      var next := new KeyBuffer(NextChain(tmp.key));
      ZeroBytes(tmp);
      tmp := next;
      n := n + 1;
      calls := calls + 1;
    }
    ZeroBytes(tmp);
  }

  /** The key of position `n`, with the `i`-th chain's key moved past it; nothing for a position
      already passed. The counter is left to the caller. The loop's 32-bit index gets past every
      position but the largest. */
  method DeriveRecvMessageKey(chains: ReceiverChains, chain: ReceiverChain, n: u32, ghost i: nat) returns (mk: Option<Key>, ghost calls: nat)
    requires chains.Valid() && i < |chains.contents| && chain == chains.chains[Slot(chains.head, i)] && n < U32_MAX
    modifies chains.repr
    ensures chains.Valid() && chains.head == old(chains.head) && chains.count == old(chains.count) && chains.repr >= old(chains.repr)
    ensures fresh(chains.repr - old(chains.repr))
    ensures var c := old(chains.contents)[i];
            && mk == (if n < c.nr then None else Some(MessageKey(Adv(c.ck, n - c.nr))))
            && chains.contents == (if n < c.nr then old(chains.contents) else old(chains.contents)[i := c.(ck := NextChain(Adv(c.ck, n - c.nr)))])
            && calls == (if n < c.nr then 0 else n - c.nr + 1)
  {
    hide ReceiverChains.Valid, Slot;
    chains.At(i);
    ghost var c := chains.contents[i];
    var ckr := new KeyBuffer(chain.ck.key);
    var k := chain.nr;
    mk, calls := None, 0;
    while k <= n
      invariant c.nr <= k && (c.nr <= n ==> k <= n + 1) && (n < c.nr ==> k == c.nr)
      invariant fresh(ckr) && chains.Valid() && chains.contents == old(chains.contents) && chains.repr == old(chains.repr)
      invariant chains.head == old(chains.head) && chains.count == old(chains.count)
      invariant chain.nr == c.nr && chain.pk == c.pk && chain.ck == old(chain.ck)
      invariant if k <= n || n < c.nr then mk == None && ckr.key == Adv(c.ck, k - c.nr) && calls == k - c.nr
                else mk == Some(MessageKey(Adv(c.ck, n - c.nr))) && ckr.key == Adv(c.ck, n - c.nr) && calls == n - c.nr
      decreases n + 1 - k
    {
      if k == n {
        mk := Some(MessageKey(ckr.key));
      } else {
        var next := new KeyBuffer(NextChain(ckr.key));
        AdvNext(c.ck, k - c.nr);
        ZeroBytes(ckr);
        ckr := next;
        calls := calls + 1;
      }
      k := Inc(k);
    }
    if mk.None? {
      ZeroBytes(ckr);
      return;
    }
    var next := new KeyBuffer(NextChain(ckr.key));
    calls := calls + 1;
    ZeroBytes(ckr);
    chains.Advance(chain, next, chain.nr, i);
  }

  /** Reads position `n` of the `i`-th chain, filing the positions passed over. */
  method ReadPosition(chains: ReceiverChains, store: Storage, chain: ReceiverChain, lab: Label, n: u32, ghost i: nat)
    returns (r: Result<Key>, ghost calls: nat)
    requires Apart(chains, store) && i < |chains.contents| && chain == chains.chains[Slot(chains.head, i)]
    requires n < U32_MAX || n - chains.contents[i].nr > store.maxSkip
    modifies chains.repr, store
    ensures Apart(chains, store)
    ensures fresh(chains.repr - old(chains.repr)) && fresh(store.repr - old(store.repr)) && chains.repr >= old(chains.repr) && store.repr >= old(store.repr)
    ensures i < |old(chains.contents)|
    ensures var c := old(chains.contents)[i];
            r == if n > c.nr && n - c.nr > store.maxSkip then Err(MaxSkipExceeded)
                 else if n < c.nr then Err(InvalidTransition)
                 else Ok(MessageKey(Adv(c.ck, n - c.nr)))
    ensures var c := old(chains.contents)[i];
            r.Ok? ==>
              && chains.contents == old(chains.contents)[i := Ec.Chain(c.pk, NextChain(Adv(c.ck, n - c.nr)), n + 1)]
              && store.contents == StoreRange(store.maxSkip, old(store.contents), lab, c.ck, c.nr, n)
    ensures calls <= store.maxSkip + 1
  {
    hide ReceiverChains.Valid, Storage.Valid, Slot, Put, StoreRange;
    chains.At(i);
    calls := 0;
    ghost var c := chains.contents[i];
    if n > chain.nr && n - chain.nr > store.maxSkip {
      return Err(MaxSkipExceeded), 0;
    }
    ghost var skips := SkipMessageKeys(chains, store, chain, lab, n, i);
    var mk, advances := DeriveRecvMessageKey(chains, chain, n, i);
    calls := skips + advances;
    if mk.None? {
      return Err(InvalidTransition), calls;
    }
    chains.SetCounter(chain, n + 1, i);
    r := Ok(mk.value);
  }
}
