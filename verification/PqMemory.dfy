/** The post-quantum session's chains and skipped keys in memory: maps of cells whose key bytes are
    replaced, copied and erased in place. */
module PqMemory {
  import opened Bytes
  import opened Terms
  import opened PqSpec

  /** What a cell was made for. Cells made for different places are different objects. */
  datatype Place = SendChain(epoch: u32) | RecvChain(epoch: u32) | SkippedKey(epoch: u32, n: u32)

  /** A slice of key bytes. */
  class KeyBytes {
    var key: Key
    ghost const place: Place

    constructor (key: Key, ghost place: Place)
      ensures this.key == key && this.place == place
    {
      this.key, this.place := key, place;
    }
  }

  class ChainCell {
    var ck: KeyBytes
    var n: u32
    ghost const place: Place

    constructor (c: KdfChain, ghost place: Place)
      ensures fresh(ck) && ck.key == c.ck && n == c.n && this.place == place && ck.place == place
    {
      n, this.place := c.n, place;
      ck := new KeyBytes(c.ck, place);
    }
  }

  class PairCell {
    var send: ChainCell?
    var recv: ChainCell?
    ghost const epoch: u32

    constructor (send: ChainCell?, recv: ChainCell?, ghost epoch: u32)
      ensures this.send == send && this.recv == recv && this.epoch == epoch
    {
      this.send, this.recv, this.epoch := send, recv, epoch;
    }
  }

  /** The bytes of a chain cell, if there is one, are zero. */
  ghost predicate Erased(c: ChainCell?)
    reads c, if c == null then {} else {c.ck}
  {
    c != null ==> c.ck.key == Zeroed
  }

  function ErasedChain(c: Option<KdfChain>): Option<KdfChain> {
    if c.None? then None else Some(KdfChain(Zeroed, c.value.n))
  }

  function ErasedPair(p: ChainPair): ChainPair {
    ChainPair(ErasedChain(p.send), ErasedChain(p.recv))
  }

  /** The entries from epoch `from` on, and the epochs before. */
  function From<V>(m: map<u32, V>, from: u32): (r: map<u32, V>)
    ensures forall e :: e in r <==> e in m && e >= from
    ensures forall e :: e in r ==> r[e] == m[e]
  {
    map e | e in m && e >= from :: m[e]
  }

  function Before<V>(m: map<u32, V>, from: u32): (r: set<u32>)
    ensures forall e :: e in r <==> e in m && e < from
  {
    set e | e in m.Keys && e < from
  }

  // ---- Chains ------------------------------------------------------------------------------

  class EpochChains {
    var pairs: map<u32, PairCell>

    /** The chains these cells stand for, and the cells and their bytes. */
    ghost var contents: map<u32, ChainPair>
    ghost var repr: set<object>

    ghost predicate Valid()
      reads this, repr
    {
      this !in repr && AllHold(pairs, contents, repr)
    }

    constructor ()
      ensures Valid() && contents == map[] && repr == {}
    {
      pairs, contents, repr := map[], map[], {};
    }

    /** New cells for an epoch. */
    method Install(e: u32, send: Option<KdfChain>, recv: Option<KdfChain>)
      requires Valid()
      modifies this
      ensures Valid() && contents == old(contents)[e := ChainPair(send, recv)]
      ensures repr >= old(repr) && fresh(repr - old(repr))
    {
      hide AllHold, PairHolds;
      var p, more := NewCells(e, send, recv);
      OneMorePair(pairs, contents, e, p, ChainPair(send, recv), repr, more);
      pairs := pairs[e := p];
      contents := contents[e := ChainPair(send, recv)];
      repr := repr + more;
    }

    /** Erases the chains of every epoch before `keepFrom` and drops them. */
    method ClearBefore(keepFrom: u32)
      requires Valid()
      modifies this, repr
      ensures Valid() && repr == old(repr)
      ensures contents == From(old(contents), keepFrom)
      ensures forall e :: e in old(pairs) && e < keepFrom ==> PairErased(old(pairs)[e], repr)
    {
      hide AllHold, PairErased, From, Before, ErasedIn;
      SameKeys(pairs, contents, repr);
      var stale := Before(pairs, keepFrom);
      EraseMany(pairs, contents, stale, repr);
      Cleared(pairs, contents, keepFrom, repr);
      pairs := From(pairs, keepFrom);
      contents := From(contents, keepFrom);
    }

    /** Overwrites the keys of all chains. */
    method EraseAll()
      requires Valid()
      modifies this, repr
      ensures Valid() && repr == old(repr) && pairs == old(pairs) && contents == ErasedIn(old(contents), pairs.Keys)
      ensures forall e :: e in pairs ==> PairErased(pairs[e], repr)
    {
      hide AllHold, PairErased;
      SameKeys(pairs, contents, repr);
      EraseMany(pairs, contents, pairs.Keys, repr);
      contents := ErasedIn(contents, pairs.Keys);
      AreErased(pairs, contents, repr);
    }

    method Has(e: u32) returns (b: bool)
      requires Valid()
      ensures b <==> e in contents
    {
      b := e in pairs;
    }

    /** Where an epoch's chains stand. */
    method At(e: u32) returns (send: Option<KdfChain>, recv: Option<KdfChain>)
      requires Valid()
      ensures ChainPair(send, recv) == if e in contents then contents[e] else ChainPair(None, None)
    {
      hide AllHold;
      SameKeys(pairs, contents, repr);
      if e !in pairs {
        return None, None;
      }
      send, recv := ReadPair(pairs[e], pairs, contents, e, repr);
    }

    /** The same chains in cells of their own. */
    method Clone() returns (c: EpochChains)
      requires Valid()
      ensures c.Valid() && fresh(c) && fresh(c.repr) && c !in c.repr && c.contents == contents
    {
      hide AllHold;
      c := new EpochChains();
      SameKeys(pairs, contents, repr);
      var todo := pairs.Keys;
      while todo != {}
        invariant todo <= pairs.Keys && fresh(c) && fresh(c.repr) && c.Valid() && c !in c.repr
        invariant c.contents == Rest(contents, todo)
        decreases |todo|
      {
        var e :| e in todo;
        todo := todo - {e};
        var send, recv := ReadPair(pairs[e], pairs, contents, e, repr);
        c.Install(e, send, recv);
      }
    }

    /** Erases the sending chain of an epoch and forgets it. */
    method DropSend(e: u32)
      requires Valid() && e in contents
      modifies this, repr
      ensures Valid() && contents == old(contents)[e := old(contents)[e].(send := None)] && repr == old(repr)
      ensures e in old(pairs) && Erased(old(pairs[e].send))
    {
      SameKeys(pairs, contents, repr);
      InRepr(pairs, contents, e, repr);
      hide AllHold;
      ForgetSend(pairs, contents, e, repr);
      contents := contents[e := contents[e].(send := None)];
    }

    /** Puts a new key and counter into the cell of a sending chain. */
    method SetSend(e: u32, c: KdfChain)
      requires Valid() && e in contents && contents[e].send.Some?
      modifies this, repr
      ensures Valid() && contents == old(contents)[e := old(contents)[e].(send := Some(c))]
      ensures repr >= old(repr) && fresh(repr - old(repr))
    {
      SameKeys(pairs, contents, repr);
      InRepr(pairs, contents, e, repr);
      hide AllHold;
      ReplaceSend(pairs, contents, e, c, repr);
      contents := contents[e := contents[e].(send := Some(c))];
      repr := repr + {pairs[e].send.ck};
    }

    /** And into that of a receiving chain. */
    method SetRecv(e: u32, c: KdfChain)
      requires Valid() && e in contents && contents[e].recv.Some?
      modifies this, repr
      ensures Valid() && contents == old(contents)[e := old(contents)[e].(recv := Some(c))]
      ensures repr >= old(repr) && fresh(repr - old(repr))
    {
      SameKeys(pairs, contents, repr);
      InRepr(pairs, contents, e, repr);
      hide AllHold;
      ReplaceRecv(pairs, contents, e, c, repr);
      contents := contents[e := contents[e].(recv := Some(c))];
      repr := repr + {pairs[e].recv.ck};
    }
  }

  ghost predicate CellHolds(c: ChainCell?, place: Place, view: Option<KdfChain>, repr: set<object>)
    reads repr
  {
    && (c == null <==> view.None?)
    && (c != null ==> c in repr && c.ck in repr && c.place == place && c.ck.place == place && view.value == KdfChain(c.ck.key, c.n))
  }

  ghost predicate PairHolds(p: PairCell, e: u32, view: ChainPair, repr: set<object>)
    requires p in repr
    reads repr
  {
    && p.epoch == e
    && CellHolds(p.send, SendChain(e), view.send, repr) && CellHolds(p.recv, RecvChain(e), view.recv, repr)
  }

  ghost function CellObjects(c: ChainCell?): set<object>
    reads c
  {
    if c == null then {} else {c as object, c.ck}
  }

  method NewCell(view: Option<KdfChain>, ghost place: Place) returns (c: ChainCell?)
    ensures c == null <==> view.None?
    ensures c != null ==> fresh(c) && fresh(c.ck) && c.place == place && c.ck.place == place && view.value == KdfChain(c.ck.key, c.n)
  {
    if view.None? {
      return null;
    }
    c := new ChainCell(view.value, place);
  }

  method NewCells(e: u32, send: Option<KdfChain>, recv: Option<KdfChain>) returns (p: PairCell, ghost objects: set<object>)
    ensures fresh(p) && fresh(objects) && p in objects && PairHolds(p, e, ChainPair(send, recv), objects)
  {
    var s := NewCell(send, SendChain(e));
    var r := NewCell(recv, RecvChain(e));
    p := new PairCell(s, r, e);
    objects := {p as object} + CellObjects(s) + CellObjects(r);
  }

  method EraseCell(c: ChainCell?)
    modifies if c == null then {} else {c.ck}
    ensures Erased(c)
  {
    if c != null {
      c.ck.key := Zeroed;
    }
  }

  ghost function BytesOf(c: ChainCell?): set<object>
    reads c
  {
    if c == null then {} else {c.ck}
  }

  ghost function WithPair(pairs: map<u32, PairCell>, e: u32, p: PairCell): map<u32, PairCell> {
    pairs[e := p]
  }

  /** One more epoch, in new cells. */
  lemma OneMorePair(pairs: map<u32, PairCell>, contents: map<u32, ChainPair>, e: u32, p: PairCell, view: ChainPair, repr: set<object>, more: set<object>)
    requires AllHold(pairs, contents, repr) && p in more && PairHolds(p, e, view, more)
    ensures AllHold(WithPair(pairs, e, p), contents[e := view], repr + more)
  {
    forall f | f in pairs && f != e
      ensures PairHolds(pairs[f], f, contents[f], repr + more)
    {
      assert PairHolds(pairs[f], f, contents[f], repr);
    }
  }

  ghost predicate AllHold(pairs: map<u32, PairCell>, contents: map<u32, ChainPair>, repr: set<object>)
    reads repr
  {
    pairs.Keys == contents.Keys && forall e :: e in pairs ==> pairs[e] in repr && PairHolds(pairs[e], e, contents[e], repr)
  }

  /** Overwrites the keys of both chains of an epoch. */
  method ErasePair(p: PairCell, ghost pairs: map<u32, PairCell>, ghost contents: map<u32, ChainPair>, ghost e: u32, ghost repr: set<object>)
    requires AllHold(pairs, contents, repr) && e in pairs && pairs[e] == p
    modifies BytesOf(p.send) + BytesOf(p.recv)
    ensures AllHold(pairs, contents[e := ErasedPair(contents[e])], repr)
  {
    InRepr(pairs, contents, e, repr);
    hide AllHold;
    EraseSend(p, pairs, contents, e, repr);
    EraseRecv(p, pairs, contents[e := contents[e].(send := ErasedChain(contents[e].send))], e, repr);
  }

  method EraseSend(p: PairCell, ghost pairs: map<u32, PairCell>, ghost contents: map<u32, ChainPair>, ghost e: u32, ghost repr: set<object>)
    requires AllHold(pairs, contents, repr) && e in pairs && pairs[e] == p
    modifies BytesOf(p.send)
    ensures AllHold(pairs, contents[e := contents[e].(send := ErasedChain(contents[e].send))], repr)
    ensures Erased(p.send)
  {
    EraseCell(p.send);
    forall f | f in pairs && f != e
      ensures PairHolds(pairs[f], f, contents[f], repr)
    {
      assert old(PairHolds(pairs[f], f, contents[f], repr));
    }
  }

  method EraseRecv(p: PairCell, ghost pairs: map<u32, PairCell>, ghost contents: map<u32, ChainPair>, ghost e: u32, ghost repr: set<object>)
    requires AllHold(pairs, contents, repr) && e in pairs && pairs[e] == p
    modifies BytesOf(p.recv)
    ensures AllHold(pairs, contents[e := contents[e].(recv := ErasedChain(contents[e].recv))], repr)
  {
    EraseCell(p.recv);
    forall f | f in pairs && f != e
      ensures PairHolds(pairs[f], f, contents[f], repr)
    {
      assert old(PairHolds(pairs[f], f, contents[f], repr));
    }
  }

  ghost function ErasedIn(contents: map<u32, ChainPair>, which: set<u32>): map<u32, ChainPair> {
    map e | e in contents :: if e in which then ErasedPair(contents[e]) else contents[e]
  }

  /** Overwrites the keys of the chains of several epochs. */
  method EraseMany(pairs: map<u32, PairCell>, ghost contents: map<u32, ChainPair>, which: set<u32>, ghost repr: set<object>)
    requires AllHold(pairs, contents, repr) && which <= pairs.Keys
    modifies repr
    ensures AllHold(pairs, ErasedIn(contents, which), repr)
  {
    hide AllHold;
    SameKeys(pairs, contents, repr);
    assert which - which == {} && ErasedIn(contents, {}) == contents;
    var todo := which;
    while todo != {}
      invariant todo <= which && AllHold(pairs, ErasedIn(contents, which - todo), repr)
      decreases |todo|
    {
      var e :| e in todo;
      ghost var now := ErasedIn(contents, which - todo);
      InRepr(pairs, now, e, repr);
      ErasePair(pairs[e], pairs, now, e, repr);
      assert now[e := ErasedPair(now[e])] == ErasedIn(contents, which - (todo - {e}));
      todo := todo - {e};
    }
    assert which - {} == which;
  }

  /** What the cells of an epoch stand for. */
  method ReadPair(p: PairCell, ghost pairs: map<u32, PairCell>, ghost contents: map<u32, ChainPair>, ghost e: u32, ghost repr: set<object>)
    returns (send: Option<KdfChain>, recv: Option<KdfChain>)
    requires AllHold(pairs, contents, repr) && e in pairs && pairs[e] == p
    ensures e in contents && contents[e] == ChainPair(send, recv)
  {
    assert PairHolds(p, e, contents[e], repr);
    send := if p.send == null then None else Some(KdfChain(p.send.ck.key, p.send.n));
    recv := if p.recv == null then None else Some(KdfChain(p.recv.ck.key, p.recv.n));
  }

  lemma SameKeys(pairs: map<u32, PairCell>, contents: map<u32, ChainPair>, repr: set<object>)
    requires AllHold(pairs, contents, repr)
    ensures pairs.Keys == contents.Keys
  {}

  /** Fewer epochs in the same cells. */
  lemma Restricted(pairs: map<u32, PairCell>, contents: map<u32, ChainPair>, some: map<u32, PairCell>, those: map<u32, ChainPair>, repr: set<object>)
    requires AllHold(pairs, contents, repr) && some.Keys == those.Keys
    requires forall e :: e in some ==> e in pairs && some[e] == pairs[e] && those[e] == contents[e]
    ensures AllHold(some, those, repr)
  {}

  /** Once the epochs before `keepFrom` have been erased, the others still hold what they did. */
  lemma Cleared(pairs: map<u32, PairCell>, contents: map<u32, ChainPair>, keepFrom: u32, repr: set<object>)
    requires pairs.Keys == contents.Keys && AllHold(pairs, ErasedIn(contents, Before(pairs, keepFrom)), repr)
    ensures AllHold(From(pairs, keepFrom), From(contents, keepFrom), repr)
    ensures forall e :: e in pairs && e < keepFrom ==> PairErased(pairs[e], repr)
  {
    hide AllHold, PairErased, From, Before;
    var now := ErasedIn(contents, Before(pairs, keepFrom));
    Restricted(pairs, now, From(pairs, keepFrom), From(contents, keepFrom), repr);
    AreErased(pairs, now, repr);
  }

  lemma AreErased(pairs: map<u32, PairCell>, contents: map<u32, ChainPair>, repr: set<object>)
    requires AllHold(pairs, contents, repr)
    ensures pairs.Keys == contents.Keys
    ensures forall e :: e in pairs && contents[e] == ErasedPair(contents[e]) ==> PairErased(pairs[e], repr)
  {
    forall e | e in pairs && contents[e] == ErasedPair(contents[e])
      ensures PairErased(pairs[e], repr)
    {
      assert PairHolds(pairs[e], e, contents[e], repr);
    }
  }

  /** The bytes of both chains are zero. */
  ghost predicate PairErased(p: PairCell, repr: set<object>)
    reads repr
  {
    && p in repr
    && (p.send != null ==> p.send in repr && p.send.ck in repr && p.send.ck.key == Zeroed)
    && (p.recv != null ==> p.recv in repr && p.recv.ck in repr && p.recv.ck.key == Zeroed)
  }

  /** Overwrites the key of an epoch's sending chain and forgets the chain. */
  method ForgetSend(pairs: map<u32, PairCell>, ghost contents: map<u32, ChainPair>, e: u32, ghost repr: set<object>)
    requires AllHold(pairs, contents, repr) && e in pairs
    modifies {pairs[e]} + BytesOf(pairs[e].send)
    ensures AllHold(pairs, contents[e := contents[e].(send := None)], repr)
    ensures Erased(old(pairs[e].send))
  {
    hide AllHold, PairHolds, ErasedChain;
    SameKeys(pairs, contents, repr);
    InRepr(pairs, contents, e, repr);
    ghost var erased := contents[e := contents[e].(send := ErasedChain(contents[e].send))];
    EraseSend(pairs[e], pairs, contents, e, repr);
    Detach(pairs[e], pairs, erased, e, repr);
    assert erased[e := erased[e].(send := None)] == contents[e := contents[e].(send := None)];
  }

  method Detach(p: PairCell, ghost pairs: map<u32, PairCell>, ghost contents: map<u32, ChainPair>, ghost e: u32, ghost repr: set<object>)
    requires AllHold(pairs, contents, repr) && e in pairs && pairs[e] == p
    modifies p
    ensures AllHold(pairs, contents[e := contents[e].(send := None)], repr)
  {
    p.send := null;
    forall f | f in pairs && f != e
      ensures PairHolds(pairs[f], f, contents[f], repr)
    {
      assert old(PairHolds(pairs[f], f, contents[f], repr));
    }
  }

  /** A chain takes a new key, in bytes of its own, and a new counter. */
  method ReplaceSend(pairs: map<u32, PairCell>, ghost contents: map<u32, ChainPair>, e: u32, c: KdfChain, ghost repr: set<object>)
    requires AllHold(pairs, contents, repr) && e in pairs && pairs[e].send != null
    modifies pairs[e].send
    ensures unchanged(pairs[e]) && fresh(pairs[e].send.ck)
    ensures AllHold(pairs, contents[e := contents[e].(send := Some(c))], repr + {pairs[e].send.ck})
  {
    var k := new KeyBytes(c.ck, SendChain(e));
    pairs[e].send.ck := k;
    pairs[e].send.n := c.n;
    forall f | f in pairs && f != e
      ensures PairHolds(pairs[f], f, contents[f], repr + {k})
    {
      assert old(PairHolds(pairs[f], f, contents[f], repr));
    }
  }

  method ReplaceRecv(pairs: map<u32, PairCell>, ghost contents: map<u32, ChainPair>, e: u32, c: KdfChain, ghost repr: set<object>)
    requires AllHold(pairs, contents, repr) && e in pairs && pairs[e].recv != null
    modifies pairs[e].recv
    ensures unchanged(pairs[e]) && fresh(pairs[e].recv.ck)
    ensures AllHold(pairs, contents[e := contents[e].(recv := Some(c))], repr + {pairs[e].recv.ck})
  {
    var k := new KeyBytes(c.ck, RecvChain(e));
    pairs[e].recv.ck := k;
    pairs[e].recv.n := c.n;
    forall f | f in pairs && f != e
      ensures PairHolds(pairs[f], f, contents[f], repr + {k})
    {
      assert old(PairHolds(pairs[f], f, contents[f], repr));
    }
  }

  lemma InRepr(pairs: map<u32, PairCell>, contents: map<u32, ChainPair>, e: u32, repr: set<object>)
    requires AllHold(pairs, contents, repr) && e in pairs
    ensures e in contents && pairs[e] in repr
    ensures (pairs[e].send == null <==> contents[e].send.None?) && (pairs[e].recv == null <==> contents[e].recv.None?)
    ensures pairs[e].send != null ==> pairs[e].send in repr && pairs[e].send.ck in repr
    ensures pairs[e].recv != null ==> pairs[e].recv in repr && pairs[e].recv.ck in repr
  {
    assert PairHolds(pairs[e], e, contents[e], repr);
  }

  // ---- Skipped keys ------------------------------------------------------------------------

  class SkippedKeys {
    var keys: map<u32, map<u32, KeyBytes>>

    /** The keys these bytes stand for, and the slices. */
    ghost var contents: map<u32, map<u32, Key>>
    ghost var repr: set<KeyBytes>

    ghost predicate Valid()
      reads this, repr
    {
      KeysHold(keys, contents, repr)
    }

    constructor ()
      ensures Valid() && contents == map[] && repr == {}
    {
      keys, contents, repr := map[], map[], {};
    }

    /** Files a key, in bytes of its own. */
    method Put(e: u32, n: u32, mk: Key)
      requires Valid()
      modifies this
      ensures Valid() && contents == old(contents)[e := (if e in old(contents) then old(contents)[e] else map[])[n := mk]]
      ensures repr >= old(repr) && fresh(repr - old(repr))
    {
      hide KeysHold;
      var k := new KeyBytes(mk, SkippedKey(e, n));
      var of: map<u32, KeyBytes> := if e in keys then keys[e] else map[];
      of := of[n := k];
      SameEpochs(keys, contents, repr);
      OneMore(keys, contents, e, n, k, repr);
      keys := keys[e := of];
      contents := contents[e := (if e in contents then contents[e] else map[])[n := mk]];
      repr := repr + {k};
    }

    /** Takes a key out, with its epoch's list when it was the last, and erases the stored bytes. */
    method Take(e: u32, n: u32) returns (mk: Option<Key>)
      requires Valid()
      modifies this, repr
      ensures Valid() && repr == old(repr)
      ensures mk.Some? <==> e in old(contents) && n in old(contents)[e]
      ensures mk.None? ==> contents == old(contents)
      ensures mk.Some? ==>
                && mk.value == old(contents)[e][n] && contents == Removed(old(contents), e, n)
                && e in old(keys) && n in old(keys)[e] && old(keys)[e][n].key == Zeroed
    {
      hide KeysHold;
      SameEpochs(keys, contents, repr);
      if e !in keys || n !in keys[e] {
        return None;
      }
      KeyInRepr(keys, contents, e, n, repr);
      hide Removed;
      var k := keys[e][n];
      mk := Some(k.key);
      Fewer(keys, contents, e, n, repr);
      keys := Removed(keys, e, n);
      contents := Removed(contents, e, n);
      Forget(k, keys, contents, e, n, repr);
    }

    /** Erases the keys of every epoch before `keepFrom` and drops them. */
    method ClearBefore(keepFrom: u32)
      requires Valid()
      modifies this, repr
      ensures Valid() && repr == old(repr)
      ensures contents == From(old(contents), keepFrom)
      ensures forall e :: e in old(keys) && e < keepFrom ==> KeysErased(old(keys)[e])
    {
      hide KeysHold, From, Before, ZeroedIn, KeysErased;
      var stale := Before(keys, keepFrom);
      SameEpochs(keys, contents, repr);
      EraseEpochs(keys, contents, stale, repr);
      EpochsCleared(keys, contents, keepFrom, repr);
      keys := From(keys, keepFrom);
      contents := From(contents, keepFrom);
    }

    /** The same keys in bytes of their own. */
    method Clone() returns (c: SkippedKeys)
      requires Valid()
      ensures c.Valid() && fresh(c) && fresh(c.repr) && c.contents == contents
    {
      hide KeysHold, EpochHolds;
      SameEpochs(keys, contents, repr);
      NoKeys();
      assert Rest(contents, keys.Keys) == map[];
      ghost var objects: set<KeyBytes> := {};
      var copies, todo := map[], keys.Keys;
      while todo != {}
        invariant todo <= keys.Keys && fresh(objects) && KeysHold(copies, Rest(contents, todo), objects)
        decreases |todo|
      {
        var e :| e in todo;
        var copy, made := CopyEpoch(keys[e], keys, contents, e, repr);
        OneEpochMore(copies, contents, todo, e, copy, objects, made);
        todo := todo - {e};
        copies := copies[e := copy];
        objects := objects + made;
      }
      assert Rest(contents, {}) == contents;
      c := new SkippedKeys.Of(copies, contents, objects);
    }

    constructor Of(keys: map<u32, map<u32, KeyBytes>>, ghost contents: map<u32, map<u32, Key>>, ghost objects: set<KeyBytes>)
      requires KeysHold(keys, contents, objects)
      ensures Valid() && this.contents == contents && repr == objects
    {
      this.keys, this.contents, this.repr := keys, contents, objects;
    }
  }

  ghost predicate EpochHolds(ks: map<u32, KeyBytes>, e: u32, view: map<u32, Key>, repr: set<object>)
    reads repr
  {
    ks.Keys == view.Keys && forall n :: n in ks ==> ks[n] in repr && ks[n].place == SkippedKey(e, n) && ks[n].key == view[n]
  }

  ghost predicate KeysHold(keys: map<u32, map<u32, KeyBytes>>, contents: map<u32, map<u32, Key>>, repr: set<object>)
    reads repr
  {
    keys.Keys == contents.Keys && forall e :: e in keys ==> EpochHolds(keys[e], e, contents[e], repr)
  }

  ghost predicate KeysErased(ks: map<u32, KeyBytes>)
    reads set n | n in ks :: ks[n]
  {
    forall n :: n in ks ==> ks[n].key == Zeroed
  }

  ghost function Changed(view: map<u32, Key>, n: u32, mk: Key): map<u32, Key> {
    view[n := mk]
  }

  ghost function Rest<V>(m: map<u32, V>, which: set<u32>): map<u32, V> {
    map e | e in m && e !in which :: m[e]
  }

  ghost function ZeroedKeys(view: map<u32, Key>, which: set<u32>): map<u32, Key> {
    map n | n in view :: if n in which then Zeroed else view[n]
  }

  ghost function ZeroedIn(contents: map<u32, map<u32, Key>>, which: set<u32>): map<u32, map<u32, Key>> {
    map e | e in contents :: if e in which then ZeroedKeys(contents[e], contents[e].Keys) else contents[e]
  }

  lemma NoKeys()
    ensures KeysHold(map[], map[], {})
  {}

  lemma OneEpochMore(copies: map<u32, map<u32, KeyBytes>>, contents: map<u32, map<u32, Key>>, todo: set<u32>, e: u32,
                     copy: map<u32, KeyBytes>, objects: set<object>, made: set<object>)
    requires KeysHold(copies, Rest(contents, todo), objects) && e in todo && e in contents && EpochHolds(copy, e, contents[e], made)
    ensures KeysHold(WithEpoch(copies, e, copy), Rest(contents, todo - {e}), objects + made)
  {
    forall f | f in copies
      ensures EpochHolds(copies[f], f, contents[f], objects + made)
    {
      assert EpochHolds(copies[f], f, Rest(contents, todo)[f], objects);
    }
  }

  ghost function WithEpoch(copies: map<u32, map<u32, KeyBytes>>, e: u32, copy: map<u32, KeyBytes>): map<u32, map<u32, KeyBytes>> {
    copies[e := copy]
  }

  /** Without one key, and without its epoch's list when it was the last. */
  function Removed<V(==)>(m: map<u32, map<u32, V>>, e: u32, n: u32): map<u32, map<u32, V>>
    requires e in m && n in m[e]
  {
    if m[e] - {n} == map[] then m - {e} else m[e := m[e] - {n}]
  }

  lemma SameEpochs(keys: map<u32, map<u32, KeyBytes>>, contents: map<u32, map<u32, Key>>, repr: set<object>)
    requires KeysHold(keys, contents, repr)
    ensures keys.Keys == contents.Keys
    ensures forall e :: e in keys ==> keys[e].Keys == contents[e].Keys
  {
    forall e | e in keys
      ensures keys[e].Keys == contents[e].Keys
    {
      assert EpochHolds(keys[e], e, contents[e], repr);
    }
  }

  /** One key fewer in the same bytes. */
  lemma Fewer(keys: map<u32, map<u32, KeyBytes>>, contents: map<u32, map<u32, Key>>, e: u32, n: u32, repr: set<object>)
    requires KeysHold(keys, contents, repr) && e in keys && n in keys[e]
    ensures e in contents && n in contents[e]
    ensures KeysHold(Removed(keys, e, n), Removed(contents, e, n), repr)
    ensures e in Removed(keys, e, n) ==> n !in Removed(keys, e, n)[e]
  {
    assert EpochHolds(keys[e], e, contents[e], repr);
    assert (keys[e] - {n}).Keys == (contents[e] - {n}).Keys;
    assert EpochHolds(keys[e] - {n}, e, contents[e] - {n}, repr);
  }

  lemma FewerEpochs(keys: map<u32, map<u32, KeyBytes>>, contents: map<u32, map<u32, Key>>,
                    some: map<u32, map<u32, KeyBytes>>, those: map<u32, map<u32, Key>>, repr: set<object>)
    requires KeysHold(keys, contents, repr) && some.Keys == those.Keys
    requires forall e :: e in some ==> e in keys && some[e] == keys[e] && those[e] == contents[e]
    ensures KeysHold(some, those, repr)
  {}

  /** Once the epochs before `keepFrom` have been erased, the others still hold what they did. */
  lemma EpochsCleared(keys: map<u32, map<u32, KeyBytes>>, contents: map<u32, map<u32, Key>>, keepFrom: u32, repr: set<object>)
    requires keys.Keys == contents.Keys && KeysHold(keys, ZeroedIn(contents, Before(keys, keepFrom)), repr)
    ensures KeysHold(From(keys, keepFrom), From(contents, keepFrom), repr)
    ensures forall e :: e in keys && e < keepFrom ==> KeysErased(keys[e])
  {
    hide KeysHold, KeysErased, From, Before;
    var now := ZeroedIn(contents, Before(keys, keepFrom));
    FewerEpochs(keys, now, From(keys, keepFrom), From(contents, keepFrom), repr);
    AreZeroed(keys, now, repr);
  }

  lemma AreZeroed(keys: map<u32, map<u32, KeyBytes>>, contents: map<u32, map<u32, Key>>, repr: set<object>)
    requires KeysHold(keys, contents, repr)
    ensures keys.Keys == contents.Keys
    ensures forall e :: e in keys && contents[e] == ZeroedKeys(contents[e], contents[e].Keys) ==> KeysErased(keys[e])
  {
    forall e | e in keys && contents[e] == ZeroedKeys(contents[e], contents[e].Keys)
      ensures KeysErased(keys[e])
    {
      assert EpochHolds(keys[e], e, contents[e], repr);
      assert forall n :: n in contents[e] ==> contents[e][n] == ZeroedKeys(contents[e], contents[e].Keys)[n];
    }
  }

  /** Erases bytes that no entry refers to any more. */
  method Forget(k: KeyBytes, ghost keys: map<u32, map<u32, KeyBytes>>, ghost contents: map<u32, map<u32, Key>>, ghost e: u32, ghost n: u32,
                ghost repr: set<object>)
    requires KeysHold(keys, contents, repr) && k.place == SkippedKey(e, n) && (e in keys ==> n !in keys[e])
    modifies k
    ensures KeysHold(keys, contents, repr) && k.key == Zeroed
  {
    k.key := Zeroed;
    forall f | f in keys
      ensures EpochHolds(keys[f], f, contents[f], repr)
    {
      assert old(EpochHolds(keys[f], f, contents[f], repr));
    }
  }

  /** Overwrites one filed key. */
  method EraseKey(k: KeyBytes, ghost keys: map<u32, map<u32, KeyBytes>>, ghost contents: map<u32, map<u32, Key>>, ghost e: u32, ghost n: u32,
                  ghost repr: set<object>)
    requires KeysHold(keys, contents, repr) && e in keys && n in keys[e] && keys[e][n] == k
    modifies k
    ensures KeysHold(keys, contents[e := Changed(contents[e], n, Zeroed)], repr)
  {
    assert EpochHolds(keys[e], e, contents[e], repr);
    k.key := Zeroed;
    forall f | f in keys
      ensures EpochHolds(keys[f], f, contents[e := Changed(contents[e], n, Zeroed)][f], repr)
    {
      assert old(EpochHolds(keys[f], f, contents[f], repr));
    }
  }

  lemma KeyInRepr(keys: map<u32, map<u32, KeyBytes>>, contents: map<u32, map<u32, Key>>, e: u32, n: u32, repr: set<object>)
    requires KeysHold(keys, contents, repr) && e in keys && n in keys[e]
    ensures e in contents && n in contents[e] && keys[e][n] in repr && contents[e][n] == keys[e][n].key
    ensures keys[e][n].place == SkippedKey(e, n)
  {
    assert EpochHolds(keys[e], e, contents[e], repr);
  }

  /** Overwrites the filed keys of an epoch. */
  method EraseEpoch(ks: map<u32, KeyBytes>, ghost keys: map<u32, map<u32, KeyBytes>>, ghost contents: map<u32, map<u32, Key>>, ghost e: u32,
                    ghost repr: set<object>)
    requires KeysHold(keys, contents, repr) && e in keys && keys[e] == ks
    modifies repr
    ensures KeysHold(keys, contents[e := ZeroedKeys(contents[e], contents[e].Keys)], repr)
  {
    hide KeysHold;
    SameEpochs(keys, contents, repr);
    var todo := ks.Keys;
    assert ks.Keys - todo == {} && ZeroedKeys(contents[e], {}) == contents[e] && contents[e := contents[e]] == contents;
    while todo != {}
      invariant todo <= ks.Keys && KeysHold(keys, contents[e := ZeroedKeys(contents[e], ks.Keys - todo)], repr)
      decreases |todo|
    {
      var n :| n in todo;
      ghost var now := contents[e := ZeroedKeys(contents[e], ks.Keys - todo)];
      KeyInRepr(keys, now, e, n, repr);
      EraseKey(ks[n], keys, now, e, n, repr);
      assert Changed(now[e], n, Zeroed) == ZeroedKeys(contents[e], ks.Keys - (todo - {n}));
      assert now[e := Changed(now[e], n, Zeroed)] == contents[e := ZeroedKeys(contents[e], ks.Keys - (todo - {n}))];
      todo := todo - {n};
    }
    assert ks.Keys - {} == contents[e].Keys;
  }

  /** Overwrites the filed keys of several epochs. */
  method EraseEpochs(keys: map<u32, map<u32, KeyBytes>>, ghost contents: map<u32, map<u32, Key>>, which: set<u32>, ghost repr: set<object>)
    requires KeysHold(keys, contents, repr) && which <= keys.Keys
    modifies repr
    ensures KeysHold(keys, ZeroedIn(contents, which), repr)
  {
    hide KeysHold;
    SameEpochs(keys, contents, repr);
    assert which - which == {} && ZeroedIn(contents, {}) == contents;
    var todo := which;
    while todo != {}
      invariant todo <= which && KeysHold(keys, ZeroedIn(contents, which - todo), repr)
      decreases |todo|
    {
      var e :| e in todo;
      ghost var now := ZeroedIn(contents, which - todo);
      EraseEpoch(keys[e], keys, now, e, repr);
      assert now[e := ZeroedKeys(now[e], now[e].Keys)] == ZeroedIn(contents, which - (todo - {e}));
      todo := todo - {e};
    }
    assert which - {} == which;
  }

  /** One key more, in new bytes. */
  lemma OneMore(keys: map<u32, map<u32, KeyBytes>>, contents: map<u32, map<u32, Key>>, e: u32, n: u32, k: KeyBytes, repr: set<object>)
    requires KeysHold(keys, contents, repr) && k.place == SkippedKey(e, n)
    ensures e in keys <==> e in contents
    ensures KeysHold(keys[e := AddedTo(if e in keys then keys[e] else map[], n, k)],
                     contents[e := Changed(if e in contents then contents[e] else map[], n, k.key)], repr + {k})
  {
    forall f | f in keys
      ensures EpochHolds(keys[f], f, contents[f], repr + {k})
    {
      assert EpochHolds(keys[f], f, contents[f], repr);
    }
  }

  ghost function AddedTo(ks: map<u32, KeyBytes>, n: u32, k: KeyBytes): map<u32, KeyBytes> {
    ks[n := k]
  }

  lemma NothingCopied(e: u32, view: map<u32, Key>, todo: set<u32>)
    requires view.Keys <= todo
    ensures EpochHolds(map[], e, Rest(view, todo), {})
  {}

  lemma OneCopied(copy: map<u32, KeyBytes>, e: u32, view: map<u32, Key>, todo: set<u32>, n: u32, k: KeyBytes, objects: set<object>)
    requires EpochHolds(copy, e, Rest(view, todo), objects)
    requires n in todo && n in view && k.place == SkippedKey(e, n) && k.key == view[n]
    ensures EpochHolds(AddedTo(copy, n, k), e, Rest(view, todo - {n}), objects + {k})
  {}

  /** An epoch's filed keys in bytes of their own. */
  method CopyEpoch(ks: map<u32, KeyBytes>, ghost keys: map<u32, map<u32, KeyBytes>>, ghost contents: map<u32, map<u32, Key>>, ghost e: u32,
                   ghost repr: set<object>)
    returns (copy: map<u32, KeyBytes>, ghost objects: set<KeyBytes>)
    requires KeysHold(keys, contents, repr) && e in keys && keys[e] == ks
    ensures e in contents && EpochHolds(copy, e, contents[e], objects) && fresh(objects)
  {
    hide KeysHold, EpochHolds;
    SameEpochs(keys, contents, repr);
    var todo := ks.Keys;
    copy, objects := map[], {};
    NothingCopied(e, contents[e], todo);
    while todo != {}
      invariant todo <= ks.Keys && fresh(objects) && EpochHolds(copy, e, Rest(contents[e], todo), objects)
      decreases |todo|
    {
      var n :| n in todo;
      KeyInRepr(keys, contents, e, n, repr);
      var k := new KeyBytes(ks[n].key, SkippedKey(e, n));
      OneCopied(copy, e, contents[e], todo, n, k, objects);
      copy := copy[n := k];
      objects := objects + {k};
      todo := todo - {n};
    }
    assert Rest(contents[e], {}) == contents[e];
  }
}
