/** The store of skipped message keys as a value: a bounded first-in-first-out queue whose
    entries can also be taken out by identifier. */
module SkippedQueue {
  import opened Bytes
  import opened Terms

  /** Skipped keys are filed under a ratchet public key, or under a header key when headers
      are encrypted. */
  datatype Label = RatchetLabel(pk: key32) | HeaderLabel(hk: Key)
  datatype Id = Id(lab: Label, n: u32)
  datatype Entry = Entry(id: Id, mk: Key)

  /** Position of the entry filed under `id`, or -1. */
  function Find(q: seq<Entry>, id: Id): (i: int)
    ensures -1 <= i < |q|
    ensures i >= 0 ==> q[i].id == id
    ensures forall k :: 0 <= k < (if i >= 0 then i else |q|) ==> q[k].id != id
  {
    if q == [] then -1
    else
      var i := Find(q[..|q| - 1], id);
      if i >= 0 then i else if q[|q| - 1].id == id then |q| - 1 else -1
  }

  predicate Has(q: seq<Entry>, id: Id) {
    Find(q, id) >= 0
  }

  function Lookup(q: seq<Entry>, id: Id): (mk: Key)
    requires Has(q, id)
    ensures Entry(id, mk) in q
  {
    q[Find(q, id)].mk
  }

  /** Adding an entry: ignored when the identifier is present, evicting the oldest when full. */
  function Put(cap: nat, q: seq<Entry>, e: Entry): seq<Entry> {
    if cap == 0 || Has(q, e.id) then q
    else (if |q| >= cap then q[1..] else q) + [e]
  }

  function Remove(q: seq<Entry>, id: Id): seq<Entry> {
    var i := Find(q, id);
    if i < 0 then q else q[..i] + q[i + 1..]
  }

  ghost predicate Distinct(q: seq<Entry>) {
    forall i, j :: 0 <= i < j < |q| ==> q[i].id != q[j].id
  }

  lemma HasMember(q: seq<Entry>, e: Entry)
    requires e in q
    ensures Has(q, e.id)
  {}

  lemma PutFacts(cap: nat, q: seq<Entry>, e: Entry)
    requires Distinct(q)
    ensures Distinct(Put(cap, q, e))
    ensures |q| <= cap ==> |Put(cap, q, e)| <= cap
    ensures forall x :: x in Put(cap, q, e) ==> x in q || x == e
    ensures forall id :: Has(Put(cap, q, e), id) ==> Has(q, id) || id == e.id
    ensures cap > 0 ==> Has(Put(cap, q, e), e.id)
  {
    var r := Put(cap, q, e);
    forall id | Has(r, id)
      ensures Has(q, id) || id == e.id
    {
      var x := r[Find(r, id)];
      assert x in q || x == e;
    }
    if cap > 0 && !Has(q, e.id) {
      assert r[|r| - 1] == e;
    }
  }

  /** Where the entries that remain come from. */
  lemma RemoveShape(q: seq<Entry>, id: Id)
    ensures var i, r := Find(q, id), Remove(q, id);
            && |r| == (if i < 0 then |q| else |q| - 1)
            && forall k :: 0 <= k < |r| ==> r[k] == q[if i < 0 || k < i then k else k + 1]
  {
    hide Find;
  }

  lemma RemoveKeeps(q: seq<Entry>, id: Id, other: Id)
    requires other != id
    ensures Has(Remove(q, id), other) <==> Has(q, other)
  {
    hide Remove;
    var i, r := Find(q, id), Remove(q, id);
    RemoveShape(q, id);
    if Has(q, other) {
      var k := Find(q, other);
      HasMember(r, r[if i < 0 || k < i then k else k - 1]);
    }
    if Has(r, other) {
      var k := Find(r, other);
      HasMember(q, q[if i < 0 || k < i then k else k + 1]);
    }
  }

  lemma RemoveFacts(q: seq<Entry>, id: Id)
    requires Distinct(q)
    ensures Distinct(Remove(q, id))
    ensures |Remove(q, id)| <= |q|
    ensures forall x :: x in Remove(q, id) ==> x in q
    ensures !Has(Remove(q, id), id)
    ensures forall other :: other != id ==> (Has(Remove(q, id), other) <==> Has(q, other))
  {
    hide Remove, Find;
    RemoveShape(q, id);
    forall other | other != id
      ensures Has(Remove(q, id), other) <==> Has(q, other)
    {
      RemoveKeeps(q, id, other);
    }
  }

  /** Files the keys of positions `from` .. `until` - 1 of a chain whose key at `from` is `ck`. */
  function StoreRange(cap: nat, q: seq<Entry>, lab: Label, ck: Key, from: u32, until: u32): seq<Entry>
    decreases until - from
  {
    if from >= until then q
    else StoreRange(cap, Put(cap, q, Entry(Id(lab, from), MessageKey(ck))), lab, NextChain(ck), from + 1, until)
  }

  lemma StoreRangeFacts(cap: nat, q: seq<Entry>, lab: Label, ck: Key, from: u32, until: u32)
    requires Distinct(q)
    ensures Distinct(StoreRange(cap, q, lab, ck, from, until))
    ensures |q| <= cap ==> |StoreRange(cap, q, lab, ck, from, until)| <= cap
    ensures forall x :: x in StoreRange(cap, q, lab, ck, from, until) ==> x in q || IsRangeEntry(x, lab, ck, from, until)
    ensures forall id :: Has(StoreRange(cap, q, lab, ck, from, until), id) ==>
              Has(q, id) || (id.lab == lab && from <= id.n < until)
  {
    hide StoreRange, Has, Distinct, IsRangeEntry;
    StoreRangeDistinct(cap, q, lab, ck, from, until);
    StoreRangeMembers(cap, q, lab, ck, from, until);
    StoreRangeHas(cap, q, lab, ck, from, until);
  }

  lemma {:induction false} StoreRangeDistinct(cap: nat, q: seq<Entry>, lab: Label, ck: Key, from: u32, until: u32)
    requires Distinct(q)
    ensures Distinct(StoreRange(cap, q, lab, ck, from, until))
    ensures |q| <= cap ==> |StoreRange(cap, q, lab, ck, from, until)| <= cap
    decreases until - from
  {
    if from < until {
      hide Put, Has, Distinct;
      PutFacts(cap, q, Entry(Id(lab, from), MessageKey(ck)));
      StoreRangeDistinct(cap, Put(cap, q, Entry(Id(lab, from), MessageKey(ck))), lab, NextChain(ck), from + 1, until);
    }
  }

  lemma {:induction false} StoreRangeMembers(cap: nat, q: seq<Entry>, lab: Label, ck: Key, from: u32, until: u32)
    ensures forall x :: x in StoreRange(cap, q, lab, ck, from, until) ==> x in q || IsRangeEntry(x, lab, ck, from, until)
    decreases until - from
  {
    if from < until {
      hide Has, IsRangeEntry;
      var e := Entry(Id(lab, from), MessageKey(ck));
      StoreRangeMembers(cap, Put(cap, q, e), lab, NextChain(ck), from + 1, until);
      forall x | x in StoreRange(cap, q, lab, ck, from, until) && x !in q
        ensures IsRangeEntry(x, lab, ck, from, until)
      {
        PutMember(cap, q, e, x);
        InRange(x, lab, ck, from, until);
      }
    }
  }

  lemma PutMember(cap: nat, q: seq<Entry>, e: Entry, x: Entry)
    ensures x in Put(cap, q, e) ==> x in q || x == e
  {}

  lemma StoreRangeHas(cap: nat, q: seq<Entry>, lab: Label, ck: Key, from: u32, until: u32)
    ensures forall id :: Has(StoreRange(cap, q, lab, ck, from, until), id) ==> Has(q, id) || (id.lab == lab && from <= id.n < until)
  {
    hide StoreRange;
    StoreRangeMembers(cap, q, lab, ck, from, until);
    var r := StoreRange(cap, q, lab, ck, from, until);
    forall id | Has(r, id)
      ensures Has(q, id) || (id.lab == lab && from <= id.n < until)
    {
      var x := r[Find(r, id)];
      if x in q {
        HasMember(q, x);
      }
    }
  }

  lemma InRange(x: Entry, lab: Label, ck: Key, from: u32, until: u32)
    requires from < until
    requires x == Entry(Id(lab, from), MessageKey(ck)) || IsRangeEntry(x, lab, NextChain(ck), from + 1, until)
    ensures IsRangeEntry(x, lab, ck, from, until)
  {
    if x != Entry(Id(lab, from), MessageKey(ck)) {
      AdvAdv(ck, 1, x.id.n - from - 1);
      assert Adv(ck, 1) == NextChain(Adv(ck, 0));
    }
  }

  /** The entries of positions `from` .. `until` - 1, in order. */
  function Range(lab: Label, ck: Key, from: u32, until: u32): seq<Entry>
    decreases until - from
  {
    if from >= until then []
    else [Entry(Id(lab, from), MessageKey(ck))] + Range(lab, NextChain(ck), from + 1, until)
  }

  ghost predicate Absent(q: seq<Entry>, lab: Label, from: u32) {
    forall e :: e in q && e.id.lab == lab ==> e.id.n < from
  }

  lemma PutRoom(cap: nat, q: seq<Entry>, e: Entry, from: u32)
    requires Absent(q, e.id.lab, from) && from == e.id.n < U32_MAX && |q| < cap
    ensures Put(cap, q, e) == q + [e] && Absent(Put(cap, q, e), e.id.lab, from + 1)
    ensures |Put(cap, q, e)| == |q| + 1
  {}

  /** With room for all of them and none on file, the range is appended. */
  lemma {:induction false} StoreRangeRoom(cap: nat, q: seq<Entry>, lab: Label, ck: Key, from: u32, until: u32)
    requires Absent(q, lab, from) && |q| + (until - from) <= cap
    ensures StoreRange(cap, q, lab, ck, from, until) == q + Range(lab, ck, from, until)
    decreases until - from
  {
    hide Absent, Put, StoreRange, Range;
    if from < until {
      var e := Entry(Id(lab, from), MessageKey(ck));
      PutRoom(cap, q, e, from);
      StoreRangeRoom(cap, Put(cap, q, e), lab, NextChain(ck), from + 1, until);
      StoreFirst(cap, q, lab, ck, from, until);
      Regroup(q, e, Range(lab, NextChain(ck), from + 1, until));
    } else {
      StoreNone(cap, q, lab, ck, from, until);
    }
  }

  /** The last `n` entries, or all if there are fewer. */
  function Last(n: nat, q: seq<Entry>): seq<Entry> {
    if |q| > n then q[|q| - n..] else q
  }

  /** A full store makes room by dropping its oldest entries: of what was on file and the range in
      order, the last entries remain, as many as there is room for. */
  lemma {:induction false} StoreRangeLast(cap: nat, q: seq<Entry>, lab: Label, ck: Key, from: u32, until: u32)
    requires cap > 0 && |q| <= cap && Absent(q, lab, from)
    ensures StoreRange(cap, q, lab, ck, from, until) == Last(cap, q + Range(lab, ck, from, until))
    decreases until - from
  {
    hide Absent, Put, StoreRange, Range, Last;
    if from < until {
      var e := Entry(Id(lab, from), MessageKey(ck));
      PutLast(cap, q, e, from);
      StoreFirst(cap, q, lab, ck, from, until);
      StoreRangeLast(cap, Put(cap, q, e), lab, NextChain(ck), from + 1, until);
      LastOfLast(cap, q, e, Range(lab, NextChain(ck), from + 1, until));
    } else {
      StoreNone(cap, q, lab, ck, from, until);
      LastAll(cap, q);
    }
  }

  lemma PutLast(cap: nat, q: seq<Entry>, e: Entry, from: u32)
    requires cap > 0 && |q| <= cap && Absent(q, e.id.lab, from) && from == e.id.n < U32_MAX
    ensures Put(cap, q, e) == Last(cap, q + [e]) && |Put(cap, q, e)| <= cap && Absent(Put(cap, q, e), e.id.lab, from + 1)
  {}

  lemma LastOfLast(cap: nat, q: seq<Entry>, e: Entry, r: seq<Entry>)
    ensures Last(cap, Last(cap, q + [e]) + r) == Last(cap, q + ([e] + r))
  {
    hide Last;
    Regroup(q, e, r);
    LastTwice(cap, q + [e], r);
  }

  lemma LastTwice(cap: nat, q: seq<Entry>, r: seq<Entry>)
    ensures Last(cap, Last(cap, q) + r) == Last(cap, q + r)
  {
    if |q| > cap {
      var gone, kept := q[..|q| - cap], q[|q| - cap..];
      AfterPrefix(gone, kept + r, |r|);
      assert q + r == gone + (kept + r);
    }
  }

  lemma AfterPrefix(a: seq<Entry>, b: seq<Entry>, k: nat)
    requires k <= |b|
    ensures (a + b)[|a| + k..] == b[k..]
  {}

  lemma LastAll(cap: nat, q: seq<Entry>)
    ensures |q| <= cap ==> Last(cap, q) == q
  {}

  /** The entries of the range whose identifiers are not on file. */
  function New(q: seq<Entry>, lab: Label, ck: Key, from: u32, until: u32): seq<Entry>
    decreases until - from
  {
    if from >= until then []
    else (if Has(q, Id(lab, from)) then [] else [Entry(Id(lab, from), MessageKey(ck))]) + New(q, lab, NextChain(ck), from + 1, until)
  }

  /** What is on file already is left where it is: with room, exactly the rest of the range is
      appended. */
  lemma {:induction false} StoreRangeNew(cap: nat, q: seq<Entry>, lab: Label, ck: Key, from: u32, until: u32)
    requires |q| + |New(q, lab, ck, from, until)| <= cap
    ensures StoreRange(cap, q, lab, ck, from, until) == q + New(q, lab, ck, from, until)
    decreases until - from
  {
    hide Has;
    if from < until {
      var e := Entry(Id(lab, from), MessageKey(ck));
      var q1 := Put(cap, q, e);
      if !Has(q, e.id) {
        NewBeyond(q, e, lab, NextChain(ck), from + 1, until);
        Regroup(q, e, New(q, lab, NextChain(ck), from + 1, until));
      }
      StoreRangeNew(cap, q1, lab, NextChain(ck), from + 1, until);
    }
  }

  lemma {:induction false} NewBeyond(q: seq<Entry>, e: Entry, lab: Label, ck: Key, from: u32, until: u32)
    requires e.id.lab == lab && e.id.n < from
    ensures New(q + [e], lab, ck, from, until) == New(q, lab, ck, from, until)
    decreases until - from
  {
    hide Has;
    if from < until {
      HasAppended(q, e, Id(lab, from));
      NewBeyond(q, e, lab, NextChain(ck), from + 1, until);
    }
  }

  lemma HasAppended(q: seq<Entry>, e: Entry, id: Id)
    ensures Has(q + [e], id) <==> Has(q, id) || e.id == id
  {
    assert (q + [e])[..|q|] == q;
  }

  /** Afterwards on file: what was, and the range. */
  lemma {:induction false} HasStored(cap: nat, q: seq<Entry>, lab: Label, ck: Key, from: u32, until: u32, id: Id)
    requires |q| + (until - from) <= cap
    ensures Has(StoreRange(cap, q, lab, ck, from, until), id) <==> Has(q, id) || (id.lab == lab && from <= id.n < until)
    decreases until - from
  {
    hide Has;
    if from < until {
      var e := Entry(Id(lab, from), MessageKey(ck));
      HasAppended(q, e, id);
      HasStored(cap, Put(cap, q, e), lab, NextChain(ck), from + 1, until, id);
    }
  }

  lemma {:induction false} StoreRangeGrows(cap: nat, q: seq<Entry>, lab: Label, ck: Key, from: u32, until: u32)
    ensures |StoreRange(cap, q, lab, ck, from, until)| <= |q| + (if until > from then until - from else 0)
    decreases until - from
  {
    hide Has;
    if from < until {
      StoreRangeGrows(cap, Put(cap, q, Entry(Id(lab, from), MessageKey(ck))), lab, NextChain(ck), from + 1, until);
    }
  }

  /** The range, entry by entry. */
  lemma {:induction false} RangeAt(lab: Label, ck: Key, from: u32, until: u32, k: nat)
    requires from + k < until
    ensures |Range(lab, ck, from, until)| == until - from
    ensures Range(lab, ck, from, until)[k] == Entry(Id(lab, from + k), MessageKey(Adv(ck, k)))
    decreases until - from
  {
    if k > 0 {
      RangeAt(lab, NextChain(ck), from + 1, until, k - 1);
      AdvAdv(ck, 1, k - 1);
      assert Adv(ck, 1) == NextChain(Adv(ck, 0));
    } else if from + 1 < until {
      RangeAt(lab, NextChain(ck), from + 1, until, 0);
    }
  }

  lemma StoreNone(cap: nat, q: seq<Entry>, lab: Label, ck: Key, from: u32, until: u32)
    requires from >= until
    ensures StoreRange(cap, q, lab, ck, from, until) == q == q + Range(lab, ck, from, until)
  {}

  lemma StoreFirst(cap: nat, q: seq<Entry>, lab: Label, ck: Key, from: u32, until: u32)
    requires from < until
    ensures var e := Entry(Id(lab, from), MessageKey(ck));
            && StoreRange(cap, q, lab, ck, from, until) == StoreRange(cap, Put(cap, q, e), lab, NextChain(ck), from + 1, until)
            && Range(lab, ck, from, until) == [e] + Range(lab, NextChain(ck), from + 1, until)
  {
    hide Put;
  }

  lemma Regroup(q: seq<Entry>, e: Entry, r: seq<Entry>)
    ensures (q + [e]) + r == q + ([e] + r)
  {}

  ghost predicate IsRangeEntry(x: Entry, lab: Label, ck: Key, from: u32, until: u32) {
    x.id.lab == lab && from <= x.id.n < until && x.mk == MessageKey(Adv(ck, x.id.n - from))
  }
}
