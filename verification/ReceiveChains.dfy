/** Key buffers and the ring of receive chains in memory. */
module ReceiveChains {
  import opened Bytes
  import opened Terms
  import Ec = RatchetSpec

  /** A slice of key bytes: callers share the bytes through the reference. */
  class KeyBuffer {
    var key: Key

    constructor (key: Key)
      ensures this.key == key
    {
      this.key := key;
    }
  }

  /** Overwrites a buffer, if there is one. */
  method ZeroBytes(b: KeyBuffer?)
    modifies b
    ensures b != null ==> b.key == Zeroed
  {
    if b != null {
      b.key := Zeroed;
    }
  }

  method CopyBytes(b: KeyBuffer?) returns (c: KeyBuffer?)
    ensures b == null <==> c == null
    ensures c != null ==> fresh(c) && c.key == b.key
  {
    if b == null {
      return null;
    }
    c := new KeyBuffer(b.key);
  }

  /** One slot of the ring; an unused slot has no chain key. */
  class ReceiverChain {
    var ck: KeyBuffer?
    var nr: u32
    var pk: key32

    constructor ()
      ensures ck == null
    {
      ck, nr, pk := null, 0, ZERO32;
    }

    /** A copy with a buffer of its own. */
    constructor Of(src: ReceiverChain)
      ensures pk == src.pk && nr == src.nr && (ck == null <==> src.ck == null)
      ensures ck != null ==> fresh(ck) && ck.key == src.ck.key
    {
      pk, nr := src.pk, src.nr;
      var copy := CopyBytes(src.ck);
      ck := copy;
    }
  }

  const MAX := Ec.MAX_CHAINS

  /** Slot of the `i`-th oldest chain when the oldest is in slot `head`. */
  function Slot(head: nat, i: nat): (k: nat)
    ensures k < MAX
  {
    (head + i) % MAX
  }

  lemma OldestSlot(head: nat)
    requires head < MAX
    ensures Slot(head, 0) == head
  {}

  lemma SlotShifts(head: nat, i: nat)
    requires head < MAX
    ensures Slot((head + 1) % MAX, i) == Slot(head, i + 1)
  {}

  /** The slots of different chains differ. */
  lemma SlotsDiffer(head: nat, i: nat, j: nat)
    requires i < j < MAX
    ensures Slot(head, i) != Slot(head, j)
  {}

  lemma FiveDiffer(c0: ReceiverChain, c1: ReceiverChain, c2: ReceiverChain, c3: ReceiverChain, c4: ReceiverChain)
    requires c0 != c1 && c0 != c2 && c0 != c3 && c0 != c4 && c1 != c2 && c1 != c3 && c1 != c4
    requires c2 != c3 && c2 != c4 && c3 != c4
    ensures var s := [c0, c1, c2, c3, c4]; forall i, j :: 0 <= i < j < 5 ==> s[i] != s[j]
  {}

  /** The slots and the buffers in them. */
  ghost function SlotObjects(chains: seq<ReceiverChain>): (r: set<object>)
    reads chains
    ensures forall k :: 0 <= k < |chains| ==> chains[k] in r && (chains[k].ck != null ==> chains[k].ck in r)
  {
    (set k | 0 <= k < |chains| :: chains[k] as object) + (set k | 0 <= k < |chains| && chains[k].ck != null :: chains[k].ck as object)
  }

  class ReceiverChains {
    const chains: seq<ReceiverChain>
    var head: nat
    var count: nat

    /** The chains this ring stands for, oldest first, and the objects it consists of. */
    ghost var contents: seq<Ec.Chain>
    ghost var repr: set<object>

    /** Five separate slots. */
    ghost predicate Shape() {
      && |chains| == MAX
      && forall i, j :: 0 <= i < j < MAX ==> chains[i] != chains[j]
    }

    /** Live slots hold chain keys, and no two slots share a buffer. */
    ghost predicate Valid()
      reads this, repr
    {
      && this in repr && (forall i :: 0 <= i < |chains| ==> chains[i] in repr)
      && (forall i :: 0 <= i < |chains| && chains[i].ck != null ==> chains[i].ck in repr)
      && Shape() && head < MAX && count == |contents| <= MAX
      && (forall i, j :: 0 <= i < j < MAX && chains[i].ck != null ==> chains[i].ck != chains[j].ck)
      && (forall i :: 0 <= i < count ==> Holds(Slot(head, i), contents[i]))
    }

    ghost predicate Holds(k: nat, c: Ec.Chain)
      requires k < |chains|
      reads chains[k], chains[k].ck
    {
      chains[k].ck != null && c == Ec.Chain(chains[k].pk, chains[k].ck.key, chains[k].nr)
    }

    constructor ()
      ensures Valid() && contents == [] && fresh(repr) && this in repr
      ensures forall k :: 0 <= k < MAX ==> chains[k].ck == null
    {
      var c0 := new ReceiverChain();
      var c1 := new ReceiverChain();
      var c2 := new ReceiverChain();
      var c3 := new ReceiverChain();
      var c4 := new ReceiverChain();
      chains := [c0, c1, c2, c3, c4];
      head, count, contents := 0, 0, [];
      new;
      repr := {this, c0, c1, c2, c3, c4};
      FiveDiffer(c0, c1, c2, c3, c4);
    }

    constructor Of(chains: seq<ReceiverChain>, head: nat, count: nat, ghost contents: seq<Ec.Chain>)
      ensures this.chains == chains && this.head == head && this.count == count && this.contents == contents
      ensures repr == {this} + SlotObjects(chains)
    {
      this.chains, this.head, this.count, this.contents := chains, head, count, contents;
      repr := {this} + SlotObjects(chains);
    }

    /** The chain for `pk`, as a reference into the ring. */
    method Get(pk: key32) returns (c: ReceiverChain?)
      requires Valid()
      ensures c == null <==> Ec.FindChain(contents, pk) < 0
      ensures c != null ==> c == chains[Slot(head, Ec.FindChain(contents, pk))] && Holds(Slot(head, Ec.FindChain(contents, pk)), contents[Ec.FindChain(contents, pk)])
    {
      hide Slot;
      var i := 0;
      while i < count
        invariant i <= count
        invariant forall k :: 0 <= k < i ==> contents[k].pk != pk
      {
        assert Holds(Slot(head, i), contents[i]);
        if chains[Slot(head, i)].pk == pk {
          return chains[Slot(head, i)];
        }
        i := i + 1;
      }
      c := null;
    }

    method Has(pk: key32) returns (b: bool)
      requires Valid()
      ensures b <==> Ec.FindChain(contents, pk) >= 0
    {
      hide Slot, Valid;
      var c := Get(pk);
      b := c != null;
    }

    /** Erases and drops the oldest chain. */
    method EvictOldest()
      requires Valid() && count > 0
      modifies repr
      ensures Valid() && contents == old(contents)[1..] && repr == old(repr)
      ensures old(chains[head].ck) != null && old(chains[head].ck).key == Zeroed
    {
      hide Slot;
      ghost var n, first, second := count, head, (head + 1) % MAX;
      OldestSlot(head);
      assert Holds(Slot(head, 0), contents[0]);
      forall i | 0 <= i < n - 1
        ensures Slot(second, i) == Slot(first, i + 1) != first
        ensures Holds(Slot(second, i), contents[i + 1])
      {
        SlotShifts(first, i);
        SlotsDiffer(first, 0, i + 1);
      }
      ZeroBytes(chains[head].ck);
      chains[head].ck := null;
      chains[head].nr := 0;
      chains[head].pk := ZERO32;
      head := (head + 1) % MAX;
      count := count - 1;
      contents := contents[1..];
      forall i | 0 <= i < count
        ensures Holds(Slot(head, i), contents[i])
      {
        assert old(Holds(Slot(second, i), contents[i + 1]));
      }
    }

    method Append(pk: key32, ck: KeyBuffer)
      requires Valid() && count < MAX
      modifies repr
      ensures Valid() && contents == old(contents) + [Ec.Chain(pk, ck.key, 0)] && ck.key == old(ck.key)
      ensures repr >= old(repr) && fresh(repr - old(repr))
    {
      hide Slot;
      var idx := Slot(head, count);
      forall i | 0 <= i < count
        ensures Slot(head, i) != idx
      {
        SlotsDiffer(head, i, count);
      }
      var copy := new KeyBuffer(ck.key);
      chains[idx].pk := pk;
      chains[idx].ck := copy;
      chains[idx].nr := 0;
      count := count + 1;
      contents, repr := contents + [Ec.Chain(pk, ck.key, 0)], repr + {copy};
      forall i | 0 <= i < count - 1
        ensures Holds(Slot(head, i), contents[i])
      {
        assert old(Holds(Slot(head, i), contents[i]));
      }
    }

    /** Adds a chain, dropping the oldest when the ring is full. */
    method Push(pk: key32, ck: KeyBuffer)
      requires Valid() && ck !in repr
      modifies repr
      ensures Valid() && contents == Ec.PushChain(old(contents), Ec.Chain(pk, ck.key, 0)) && ck.key == old(ck.key)
      ensures repr >= old(repr) && fresh(repr - old(repr))
    {
      hide Slot, Holds;
      if count == MAX {
        EvictOldest();
      }
      Append(pk, ck);
    }

    /** Replaces the key and the counter of the `i`-th chain, erasing the old key. */
    method Advance(chain: ReceiverChain, ck: KeyBuffer, nr: u32, ghost i: nat)
      requires Valid() && i < |contents| && chain == chains[Slot(head, i)] && ck !in repr
      modifies repr
      ensures Valid() && contents == old(contents)[i := Ec.Chain(chain.pk, ck.key, nr)]
      ensures chain.pk == old(chain.pk) && chain.ck == ck && chain.nr == nr && ck.key == old(ck.key)
      ensures repr == old(repr) + {ck} && head == old(head) && count == old(count)
      ensures old(chain.ck) != null && old(chain.ck).key == Zeroed
    {
      hide Slot;
      forall k | 0 <= k < count && k != i
        ensures Slot(head, k) != Slot(head, i)
      {
        SlotsDiffer(head, if k < i then k else i, if k < i then i else k);
      }
      assert Holds(Slot(head, i), contents[i]);
      ZeroBytes(chain.ck);
      chain.ck := ck;
      chain.nr := nr;
      contents, repr := contents[i := Ec.Chain(chain.pk, ck.key, nr)], repr + {ck};
      forall k | 0 <= k < count
        ensures Holds(Slot(head, k), contents[k])
      {
        assert old(Holds(Slot(head, k), contents[k]));
      }
    }

    /** Moves the counter of the `i`-th chain. */
    method SetCounter(chain: ReceiverChain, nr: u32, ghost i: nat)
      requires Valid() && i < |contents| && chain == chains[Slot(head, i)]
      modifies this`contents, chain`nr
      ensures Valid() && contents == old(contents)[i := old(contents)[i].(nr := nr)]
      ensures repr == old(repr)
    {
      hide Slot;
      forall k | 0 <= k < count && k != i
        ensures Slot(head, k) != Slot(head, i)
      {
        SlotsDiffer(head, if k < i then k else i, if k < i then i else k);
      }
      assert Holds(Slot(head, i), contents[i]);
      chain.nr := nr;
      contents := contents[i := contents[i].(nr := nr)];
      forall k | 0 <= k < count
        ensures Holds(Slot(head, k), contents[k])
      {
        assert old(Holds(Slot(head, k), contents[k]));
      }
    }

    /** What slot `Slot(head, i)` holds. */
    lemma At(i: nat)
      requires Valid() && i < |contents|
      ensures count == |contents| && Slot(head, i) < |chains| && Holds(Slot(head, i), contents[i])
      ensures chains[Slot(head, i)] in repr && chains[Slot(head, i)].ck in repr
    {}

    /** Copies every slot. */
    method CopySlots() returns (copies: seq<ReceiverChain>)
      requires Valid()
      ensures |copies| == MAX && forall j :: 0 <= j < MAX ==> fresh(copies[j]) && (copies[j].ck != null ==> fresh(copies[j].ck))
      ensures forall i, j :: 0 <= i < j < MAX ==> copies[i] != copies[j] && (copies[i].ck != null ==> copies[i].ck != copies[j].ck)
      ensures forall j :: 0 <= j < MAX ==> copies[j].pk == chains[j].pk && copies[j].nr == chains[j].nr
      ensures forall j :: 0 <= j < MAX ==> (copies[j].ck == null <==> chains[j].ck == null)
      ensures forall j :: 0 <= j < MAX && chains[j].ck != null ==> copies[j].ck.key == chains[j].ck.key
    {
      copies := [];
      for k := 0 to MAX
        invariant |copies| == k && forall j :: 0 <= j < k ==> fresh(copies[j]) && (copies[j].ck != null ==> fresh(copies[j].ck))
        invariant forall i, j :: 0 <= i < j < k ==> copies[i] != copies[j] && (copies[i].ck != null ==> copies[i].ck != copies[j].ck)
        invariant forall j :: 0 <= j < k ==> copies[j].pk == chains[j].pk && copies[j].nr == chains[j].nr
        invariant forall j :: 0 <= j < k ==> (copies[j].ck == null <==> chains[j].ck == null)
        invariant forall j :: 0 <= j < k && chains[j].ck != null ==> copies[j].ck.key == chains[j].ck.key
      {
        var slot := new ReceiverChain.Of(chains[k]);
        copies := copies + [slot];
      }
    }

    /** A deep copy: equal content, no shared slot and no shared buffer. */
    method Clone() returns (c: ReceiverChains)
      requires Valid()
      ensures fresh(c.repr) && c in c.repr && c.Valid() && c.contents == contents
    {
      hide Slot;
      var copies := CopySlots();
      c := new ReceiverChains.Of(copies, head, count, contents);
      forall i | 0 <= i < count
        ensures c.Holds(Slot(head, i), contents[i])
      {
        assert Holds(Slot(head, i), contents[i]);
      }
    }

    /** Erases every chain key and empties the ring. */
    method Clear()
      requires Valid()
      modifies repr
      ensures Valid() && contents == [] && repr == old(repr)
      ensures forall k :: 0 <= k < |chains| && old(chains[k].ck) != null ==> old(chains[k].ck).key == Zeroed
    {
      for k := 0 to MAX
        invariant repr == old(repr)
        invariant forall j :: 0 <= j < k ==> chains[j].ck == null
        invariant forall j :: k <= j < MAX ==> chains[j].ck == old(chains[j].ck)
        invariant forall j :: 0 <= j < k && old(chains[j].ck) != null ==> old(chains[j].ck).key == Zeroed
      {
        ZeroBytes(chains[k].ck);
        chains[k].ck := null;
        chains[k].nr := 0;
        chains[k].pk := ZERO32;
      }
      head, count, contents := 0, 0, [];
    }
  }
}
