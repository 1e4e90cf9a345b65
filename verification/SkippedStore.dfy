/** The skipped-key store in memory: a map from identifiers to entry objects and the order in
    which they were filed. */
module SkippedStore {
  import opened Bytes
  import opened Terms
  import opened Wire
  import opened SkippedQueue
  import HeaderSpec

  // ---- A map listed in order ---------------------------------------------------------------

  ghost predicate NoRepeats(order: seq<Id>) {
    forall i, j :: 0 <= i < j < |order| ==> order[i] != order[j]
  }

  /** `order` lists the members of `ids`. */
  ghost predicate Lists(order: seq<Id>, ids: set<Id>) {
    && (forall i :: 0 <= i < |order| ==> order[i] in ids)
    && (forall id :: id in ids ==> exists i :: 0 <= i < |order| && order[i] == id)
  }

  ghost function Listing(order: seq<Id>, keys: map<Id, Key>): (q: seq<Entry>)
    requires Lists(order, keys.Keys)
    ensures |q| == |order|
  {
    seq(|order|, i requires 0 <= i < |order| => Entry(order[i], keys[order[i]]))
  }

  lemma {:induction false} SizeOfOrder(order: seq<Id>, ids: set<Id>)
    requires NoRepeats(order) && Lists(order, ids)
    ensures |ids| == |order|
  {
    if order == [] {
      assert ids == {};
    } else {
      ListsRemoved(order, ids, |order| - 1);
      assert order[..|order| - 1] + order[|order|..] == order[..|order| - 1];
      SizeOfOrder(order[..|order| - 1], ids - {order[|order| - 1]});
    }
  }

  lemma ListsRemoved(order: seq<Id>, ids: set<Id>, i: nat)
    requires NoRepeats(order) && Lists(order, ids) && i < |order|
    ensures var rest := order[..i] + order[i + 1..];
            NoRepeats(rest) && Lists(rest, ids - {order[i]})
  {
    var rest := order[..i] + order[i + 1..];
    assert forall k :: 0 <= k < |rest| ==> rest[k] == order[if k < i then k else k + 1];
    forall id | id in ids && id != order[i]
      ensures exists k :: 0 <= k < |rest| && rest[k] == id
    {
      var k :| 0 <= k < |order| && order[k] == id;
      assert rest[if k < i then k else k - 1] == id;
    }
  }

  lemma ListingFinds(order: seq<Id>, keys: map<Id, Key>, id: Id)
    requires NoRepeats(order) && Lists(order, keys.Keys)
    ensures var q := Listing(order, keys);
            && Distinct(q) && (Has(q, id) <==> id in keys)
            && (Has(q, id) ==> Lookup(q, id) == keys[id] && order[Find(q, id)] == id)
  {
    var q := Listing(order, keys);
    if id in keys {
      var i :| 0 <= i < |order| && order[i] == id;
      assert q[i].id == id;
    }
  }

  lemma ListingAppends(order: seq<Id>, keys: map<Id, Key>, id: Id, mk: Key)
    requires NoRepeats(order) && Lists(order, keys.Keys) && id !in keys
    ensures NoRepeats(order + [id]) && Lists(order + [id], keys[id := mk].Keys)
    ensures Listing(order + [id], keys[id := mk]) == Listing(order, keys) + [Entry(id, mk)]
  {
    var more := order + [id];
    var ids := keys[id := mk].Keys;
    forall other | other in ids
      ensures exists i :: 0 <= i < |more| && more[i] == other
    {
      if other == id {
        assert more[|order|] == id;
      } else {
        var i :| 0 <= i < |order| && order[i] == other;
        assert more[i] == other;
      }
    }
  }

  /** Leaving out one identifier. */
  lemma ListingRemoves(order: seq<Id>, keys: map<Id, Key>, i: nat)
    requires NoRepeats(order) && Lists(order, keys.Keys) && i < |order|
    ensures var rest, left := order[..i] + order[i + 1..], keys - {order[i]};
            && NoRepeats(rest) && Lists(rest, left.Keys)
            && Listing(rest, left) == Listing(order, keys)[..i] + Listing(order, keys)[i + 1..]
  {
    var rest, left, q := order[..i] + order[i + 1..], keys - {order[i]}, Listing(order, keys);
    ListsRemoved(order, keys.Keys, i);
    assert left.Keys == keys.Keys - {order[i]};
    RemovedListing(order, keys, i);
  }

  lemma RemovedListing(order: seq<Id>, keys: map<Id, Key>, i: nat)
    requires NoRepeats(order) && Lists(order, keys.Keys) && i < |order|
    requires Lists(order[..i] + order[i + 1..], (keys - {order[i]}).Keys)
    ensures Listing(order[..i] + order[i + 1..], keys - {order[i]}) == Listing(order, keys)[..i] + Listing(order, keys)[i + 1..]
  {
    var rest, left, q := order[..i] + order[i + 1..], keys - {order[i]}, Listing(order, keys);
    forall k | 0 <= k < |rest|
      ensures Listing(rest, left)[k] == (q[..i] + q[i + 1..])[k]
    {
      var l := if k < i then k else k + 1;
      assert rest[k] == order[l] && order[l] != order[i];
      assert order[l] in keys && left[rest[k]] == keys[order[l]];
    }
  }

  // ---- The store ---------------------------------------------------------------------------

  class SkippedKeyEntry {
    const id: Id
    var mk: Key

    constructor (id: Id, mk: Key)
      ensures this.id == id && this.mk == mk
    {
      this.id, this.mk := id, mk;
    }
  }

  class Storage {
    var entries: map<Id, SkippedKeyEntry>
    var order: seq<Id>
    const maxSkip: u32

    /** The queue this store stands for, oldest entry first, and the objects it consists of. */
    ghost var contents: seq<Entry>
    ghost var repr: set<object>

    ghost predicate Valid()
      reads this, repr
    {
      && this in repr && entries.Values <= repr
      && NoRepeats(order) && Lists(order, Keys().Keys) && |order| <= maxSkip
      && (forall id :: id in entries ==> entries[id].id == id)
      && contents == Listing(order, Keys())
    }

    ghost function Keys(): (keys: map<Id, Key>)
      reads this, entries.Values
    {
      map id | id in entries :: entries[id].mk
    }

    lemma SameIds()
      ensures Keys().Keys == entries.Keys
    {}

    constructor (maxSkip: u32)
      ensures Valid() && fresh(repr) && contents == [] && this.maxSkip == maxSkip
    {
      this.maxSkip, entries, order := maxSkip, map[], [];
      contents, repr := [], {this};
    }

    constructor Of(maxSkip: u32, entries: map<Id, SkippedKeyEntry>, order: seq<Id>, ghost contents: seq<Entry>)
      ensures this.maxSkip == maxSkip && this.entries == entries && this.order == order
      ensures this.contents == contents && repr == {this} + entries.Values
    {
      this.maxSkip, this.entries, this.order := maxSkip, entries, order;
      this.contents, repr := contents, {this} + entries.Values;
    }

    lemma Finds(id: Id)
      requires Valid()
      ensures Has(contents, id) <==> id in entries
      ensures id in entries ==> Lookup(contents, id) == entries[id].mk && 0 <= Find(contents, id) < |order| && order[Find(contents, id)] == id
      ensures |contents| == |order| == |entries| <= maxSkip && Distinct(contents)
    {
      hide Lists, NoRepeats, Listing, Has;
      SameIds();
      ListingFinds(order, Keys(), id);
      SizeOfOrder(order, Keys().Keys);
    }

    /** Deletes the `i`-th identifier in the order, and its entry from the map. */
    method DeleteAt(i: nat)
      requires Valid() && i < |order|
      modifies this
      ensures Valid() && contents == old(contents)[..i] + old(contents)[i + 1..] && repr == old(repr)
      ensures entries == old(entries) - {old(order)[i]} && |order| == |old(order)| - 1
    {
      hide Lists, NoRepeats, Listing;
      SameIds();
      ListingRemoves(order, Keys(), i);
      ghost var keys := Keys();
      entries := entries - {order[i]};
      order := order[..i] + order[i + 1..];
      contents := contents[..i] + contents[i + 1..];
      assert Keys() == keys - {old(order)[i]};
    }

    method Append(id: Id, mk: Key)
      requires Valid() && id !in entries && |order| < maxSkip
      modifies this
      ensures Valid() && contents == old(contents) + [Entry(id, mk)]
      ensures repr >= old(repr) && fresh(repr - old(repr))
    {
      hide Lists, NoRepeats, Listing;
      SameIds();
      ListingAppends(order, Keys(), id, mk);
      ghost var keys := Keys();
      var e := new SkippedKeyEntry(id, mk);
      entries := entries[id := e];
      order := order + [id];
      contents, repr := contents + [Entry(id, mk)], repr + {e};
      assert Keys() == keys[id := mk];
    }

    /** Files a key; a full store drops its oldest entry first. */
    method Store(id: Id, mk: Key)
      requires Valid()
      modifies this
      ensures Valid() && contents == Put(maxSkip, old(contents), Entry(id, mk))
      ensures repr >= old(repr) && fresh(repr - old(repr))
    {
      hide Valid, Has;
      Finds(id);
      if maxSkip == 0 || id in entries {
        return;
      }
      if |entries| >= maxSkip {
        DeleteAt(0);
      }
      Append(id, mk);
    }

    method IndexOf(id: Id) returns (i: nat)
      requires Valid() && id in entries
      ensures i < |order| && order[i] == id && i == Find(contents, id)
    {
      hide Has, Valid, Distinct;
      Finds(id);
      ghost var found := Find(contents, id);
      i := 0;
      while order[i] != id
        invariant 0 <= i <= found
        decreases |order| - i
      {
        i := i + 1;
      }
      OnlyIndex(i, found);
    }

    lemma OnlyIndex(i: nat, j: nat)
      requires Valid() && i < |order| && j < |order| && order[i] == order[j]
      ensures i == j
    {}

    /** Takes a key out of the store, erasing the entry that held it. */
    method Get(id: Id) returns (mk: Option<Key>)
      requires Valid()
      modifies repr
      ensures Valid() && repr == old(repr)
      ensures mk.Some? <==> Has(old(contents), id)
      ensures mk.Some? ==> mk.value == Lookup(old(contents), id) && old(entries[id]).mk == Zeroed
      ensures contents == Remove(old(contents), id)
    {
      hide Lists, NoRepeats, Listing, Distinct;
      Finds(id);
      if id !in entries {
        return None;
      }
      var entry := entries[id];
      mk := Some(entry.mk);
      var i := IndexOf(id);
      DeleteAt(i);
      ghost var keys := Keys();
      entry.mk := Zeroed;
      assert Keys() == keys;
    }

    /** Tries the filed keys, in no particular order, on an encrypted header; takes out the one
        that opens it and is filed under the position it announces. */
    method TryAllHeaderKeys(header: SealedHeader) returns (mk: Option<Key>)
      requires Valid()
      modifies repr
      ensures Valid() && repr == old(repr)
      ensures mk.Some? <==> HeaderSpec.Filed(old(contents), header)
      ensures mk.Some? ==> mk.value == Lookup(old(contents), HeaderSpec.ServingId(header).value)
                           && contents == Remove(old(contents), HeaderSpec.ServingId(header).value)
      ensures mk.None? ==> contents == old(contents)
    {
      hide Valid, Has, Distinct;
      var todo := entries.Keys;
      while todo != {}
        invariant todo <= entries.Keys
        invariant forall id :: id in entries && id !in todo ==> HeaderSpec.ServingId(header) != Some(id)
        decreases |todo|
      {
        var id :| id in todo;
        todo := todo - {id};
        if id.lab.HeaderLabel? && HeaderSpec.Opens(id.lab.hk, header) {
          var h := DecodeHeader(header.header);
          if h.Ok? && h.value.n == id.n {
            Finds(id);
            mk := Get(id);
            return;
          }
        }
      }
      if HeaderSpec.ServingId(header).Some? {
        Finds(HeaderSpec.ServingId(header).value);
      }
      mk := None;
    }

    /** Copies every entry object. */
    method CopyEntries() returns (copies: map<Id, SkippedKeyEntry>)
      requires Valid()
      ensures copies.Keys == entries.Keys
      ensures forall id :: id in copies ==> fresh(copies[id]) && copies[id].id == id && copies[id].mk == entries[id].mk
    {
      hide Lists, NoRepeats, Listing;
      copies := map[];
      var todo := entries.Keys;
      while todo != {}
        invariant todo <= entries.Keys && copies.Keys == entries.Keys - todo
        invariant forall id :: id in copies ==> fresh(copies[id]) && copies[id].id == id && copies[id].mk == entries[id].mk
        decreases |todo|
      {
        var id :| id in todo;
        var e := new SkippedKeyEntry(id, entries[id].mk);
        copies := copies[id := e];
        todo := todo - {id};
      }
    }

    /** A deep copy: equal content, no shared object. */
    method Clone() returns (c: Storage)
      requires Valid()
      ensures fresh(c.repr) && c in c.repr && c.Valid() && c.contents == contents && c.maxSkip == maxSkip
    {
      hide Lists, NoRepeats, Listing;
      var copies := CopyEntries();
      c := new Storage.Of(maxSkip, copies, order, contents);
      assert c.Keys() == Keys();
    }

    method EraseEntries()
      requires entries.Values <= repr
      modifies entries.Values, `entries
      ensures entries == map[] && forall id :: id in old(entries) ==> old(entries)[id].mk == Zeroed
    {
      ghost var all := entries;
      while entries != map[]
        invariant entries.Keys <= all.Keys && forall id :: id in entries ==> entries[id] == all[id]
        invariant forall id :: id in all && id !in entries ==> all[id].mk == Zeroed
        decreases |entries|
      {
        var id :| id in entries;
        entries[id].mk := Zeroed;
        assert |entries - {id}| < |entries| by {
          assert entries == (entries - {id})[id := entries[id]];
        }
        entries := entries - {id};
      }
    }

    /** Erases every key and empties the store. */
    method Clear()
      requires Valid()
      modifies repr
      ensures Valid() && contents == [] && repr == old(repr)
      ensures forall id :: id in old(entries) ==> old(entries)[id].mk == Zeroed
    {
      hide Lists, NoRepeats, Listing;
      EraseEntries();
      order, contents := [], [];
      EmptyStore();
    }

    lemma EmptyStore()
      requires order == [] && entries == map[] && contents == [] && this in repr
      ensures Valid()
    {}
  }

  /** A store for at most `maxSkip` keys, which must not exceed the library's limit. */
  method NewStorage(maxSkip: u32) returns (err: Option<Error>, s: Storage?)
    ensures err == if maxSkip > MAX_SKIP_MAX then Some(MaxSkipTooLarge) else None
    ensures err.None? ==> s != null && fresh(s.repr) && s in s.repr && s.Valid() && s.contents == [] && s.maxSkip == maxSkip
  {
    if maxSkip > MAX_SKIP_MAX {
      return Some(MaxSkipTooLarge), null;
    }
    err := None;
    s := new Storage(maxSkip);
  }
}
