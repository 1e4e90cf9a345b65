/** The keys on file while the messages of one chain arrive in some order: those of the positions
    passed over and not yet delivered, in the order of the positions. */
module SkippedBatch {
  import opened Bytes
  import opened Terms
  import opened SkippedQueue
  import opened RatchetSpec

  /** Where the keys of a chain are filed, its key at the first position, and that position. */
  datatype Line = Line(lab: Label, ck: Key, start: u32)

  /** One past the greatest member of `done` below `k`. */
  ghost function Top(done: set<nat>, k: nat): (t: nat)
    ensures t <= k
  {
    if k == 0 then 0 else if k - 1 in done then k else Top(done, k - 1)
  }

  ghost function FiledId(v: Line, d: nat): Id
    requires v.start + d <= U32_MAX
  {
    Id(v.lab, v.start + d)
  }

  ghost function FiledEntry(v: Line, d: nat): Entry
    requires v.start + d <= U32_MAX
  {
    Entry(FiledId(v, d), MessageKey(Adv(v.ck, d)))
  }

  /** The keys on file for the positions below `top` that are not in `done`, in order. */
  ghost function Missing(v: Line, done: set<nat>, top: nat): (q: seq<Entry>)
    requires v.start + top <= U32_MAX
    ensures |q| <= top
  {
    if top == 0 then []
    else Missing(v, done, top - 1) + (if top - 1 in done then [] else [FiledEntry(v, top - 1)])
  }

  lemma {:induction false} TopBounds(done: set<nat>, k: nat, d: nat)
    requires Top(done, k) <= d < k
    ensures d !in done
  {
    if k - 1 != d {
      TopBounds(done, k - 1, d);
    }
  }

  lemma {:induction false} MissingOnly(v: Line, done: set<nat>, top: nat, e: Entry) returns (d: nat)
    requires v.start + top <= U32_MAX && e in Missing(v, done, top)
    ensures d < top && d !in done && e == FiledEntry(v, d)
  {
    if top - 1 !in done && e == FiledEntry(v, top - 1) {
      d := top - 1;
    } else {
      d := MissingOnly(v, done, top - 1, e);
    }
  }

  lemma MissingAbsent(v: Line, done: set<nat>, top: nat, q: seq<Entry>, d: nat)
    requires v.start + top <= U32_MAX && v.start + d <= U32_MAX
    requires !Has(q, FiledId(v, d)) && (d >= top || d in done)
    ensures !Has(q + Missing(v, done, top), FiledId(v, d))
  {
    var all := q + Missing(v, done, top);
    forall k | 0 <= k < |all|
      ensures all[k].id != FiledId(v, d)
    {
      if all[k] in Missing(v, done, top) {
        var x := MissingOnly(v, done, top, all[k]);
      } else {
        assert all[k] in q;
      }
    }
  }

  /** None of the positions from `from` on has been delivered. */
  lemma {:induction false} MissingTail(v: Line, done: set<nat>, from: nat, until: nat)
    requires from <= until && v.start + until <= U32_MAX && forall d :: from <= d < until ==> d !in done
    ensures Missing(v, done, from) + Range(v.lab, Adv(v.ck, from), v.start + from, v.start + until)
            == Missing(v, done, until)
    decreases until - from
  {
    if from < until {
      MissingTail(v, done, from + 1, until);
      assert Missing(v, done, from + 1) == Missing(v, done, from) + [FiledEntry(v, from)];
    }
  }

  lemma MissingBelow(v: Line, done: set<nat>, top: nat)
    requires v.start + top <= U32_MAX
    ensures Absent(Missing(v, done, top), v.lab, v.start + top)
  {
    forall e | e in Missing(v, done, top)
      ensures e.id.n < v.start + top
    {
      var d := MissingOnly(v, done, top, e);
    }
  }

  /** Taking a missing key off the list is the same as having delivered it in time. */
  lemma {:induction false} TakeMissing(v: Line, done: set<nat>, top: nat, q: seq<Entry>, d: nat)
    requires v.start + top <= U32_MAX && d < top && d !in done
    requires !Has(q, FiledId(v, d))
    ensures Has(q + Missing(v, done, top), FiledId(v, d))
    ensures Lookup(q + Missing(v, done, top), FiledId(v, d)) == MessageKey(Adv(v.ck, d))
    ensures Remove(q + Missing(v, done, top), FiledId(v, d)) == q + Missing(v, done + {d}, top)
  {
    hide Has, Lookup, Remove;
    var rest, all := Missing(v, done, top - 1), q + Missing(v, done, top);
    if top - 1 == d {
      MissingAbsent(v, done, d, q, d);
      assert all == (q + rest) + [FiledEntry(v, d)];
      LastFound(q + rest, FiledEntry(v, d));
      SameMissing(v, done, d, d);
      assert Missing(v, done + {d}, top) == rest;
    } else {
      TakeMissing(v, done, top - 1, q, d);
      assert top - 1 in done <==> top - 1 in done + {d};
      if top - 1 in done {
        assert all == q + rest;
      } else {
        assert all == (q + rest) + [FiledEntry(v, top - 1)];
        EarlierFound(q + rest, FiledEntry(v, top - 1), FiledId(v, d));
        assert (q + Missing(v, done + {d}, top - 1)) + [FiledEntry(v, top - 1)] == q + Missing(v, done + {d}, top);
      }
    }
  }

  lemma LastFound(q: seq<Entry>, e: Entry)
    requires !Has(q, e.id)
    ensures Has(q + [e], e.id) && Lookup(q + [e], e.id) == e.mk && Remove(q + [e], e.id) == q
  {
    assert (q + [e])[|q|] == e;
    assert (q + [e])[..|q|] == q;
  }

  lemma EarlierFound(q: seq<Entry>, e: Entry, id: Id)
    requires Has(q, id)
    ensures Has(q + [e], id)
    ensures Lookup(q + [e], id) == Lookup(q, id) && Remove(q + [e], id) == Remove(q, id) + [e]
  {
    var i := Find(q, id);
    assert (q + [e])[..|q|] == q;
    assert (q + [e])[..i] + (q + [e])[i + 1..] == (q[..i] + q[i + 1..]) + [e];
  }

  lemma {:induction false} SameMissing(v: Line, done: set<nat>, top: nat, d: nat)
    requires v.start + top <= U32_MAX && d >= top
    ensures Missing(v, done + {d}, top) == Missing(v, done, top)
  {
    if top > 0 {
      SameMissing(v, done, top - 1, d);
    }
  }

  lemma {:induction false} TopAdds(done: set<nat>, k: nat, d: nat)
    requires d < k
    ensures Top(done + {d}, k) == if d < Top(done, k) then Top(done, k) else d + 1
  {
    if k - 1 != d {
      TopAdds(done, k - 1, d);
    }
  }

  lemma MissingSkips(v: Line, done: set<nat>, d: nat)
    requires v.start + d + 1 <= U32_MAX
    ensures Missing(v, done + {d}, d + 1) == Missing(v, done, d)
  {
    SameMissing(v, done, d, d);
  }

  lemma {:induction false} EmptyTop(k: nat)
    ensures Top({}, k) == 0
  {
    if k > 0 {
      EmptyTop(k - 1);
    }
  }

  lemma {:induction false} NoneMissing(v: Line, done: set<nat>, top: nat)
    requires v.start + top <= U32_MAX && forall d: nat :: d < top ==> d in done
    ensures Missing(v, done, top) == []
  {
    if top > 0 {
      NoneMissing(v, done, top - 1);
    }
  }

  ghost predicate NoRepeats(order: seq<nat>) {
    forall i, j :: 0 <= i < j < |order| ==> order[i] != order[j]
  }

  /** An order in which each of the first `k` indices occurs once. */
  ghost predicate Permutation(order: seq<nat>, k: nat) {
    && NoRepeats(order)
    && (forall i :: 0 <= i < |order| ==> order[i] < k)
    && (forall d: nat :: d < k ==> d in order)
  }

  /** Passing over the positions up to `d` files those that are missing there. */
  lemma FilesMissing(cap: nat, v: Line, q: seq<Entry>, k: nat, done: set<nat>, d: nat)
    requires Top(done, k) <= d < k && v.start + k <= U32_MAX && |q| + d <= cap && Absent(q, v.lab, v.start)
    ensures var top := Top(done, k);
            StoreRange(cap, q + Missing(v, done, top), v.lab, Adv(v.ck, top), v.start + top, v.start + d) == q + Missing(v, done, d)
  {
    hide StoreRange, Missing, Range;
    var top := Top(done, k);
    forall x | top <= x < d
      ensures x !in done
    {
      TopBounds(done, k, x);
    }
    MissingBelow(v, done, top);
    StoreRangeRoom(cap, q + Missing(v, done, top), v.lab, Adv(v.ck, top), v.start + top, v.start + d);
    MissingTail(v, done, top, d);
  }

  // ---- The state while a batch arrives -----------------------------------------------------

  /** The state after the members of `done` of a batch of `k` have been delivered: the chain of `pk`
      stands past the last of them, and the missing ones are on file. */
  ghost function Moved(s: State, pk: key32, v: Line, k: nat, done: set<nat>): State
    requires v.start + k <= U32_MAX && FindChain(s.chains, pk) >= 0
  {
    var top := Top(done, k);
    s.(chains := s.chains[FindChain(s.chains, pk) := Chain(pk, Adv(v.ck, top), v.start + top)],
       skipped := s.skipped + Missing(v, done, top))
  }

  lemma MovedShape(s: State, pk: key32, v: Line, k: nat, done: set<nat>)
    requires v.start + k <= U32_MAX && FindChain(s.chains, pk) >= 0
    ensures var t, i, top := Moved(s, pk, v, k, done), FindChain(s.chains, pk), Top(done, k);
            && FindChain(t.chains, pk) == i && t.chains[i] == Chain(pk, Adv(v.ck, top), v.start + top)
            && t.skipped == s.skipped + Missing(v, done, top)
            && t == s.(chains := t.chains, skipped := t.skipped)
  {
    hide Missing;
    FindUpdated(s.chains, Chain(pk, Adv(v.ck, Top(done, k)), v.start + Top(done, k)));
  }

  lemma MovedFiled(s: State, pk: key32, v: Line, k: nat, done: set<nat>, d: nat)
    requires v.start + k <= U32_MAX && FindChain(s.chains, pk) >= 0 && d < Top(done, k)
    ensures Moved(s, pk, v, k, done + {d}) ==
            Moved(s, pk, v, k, done).(skipped := s.skipped + Missing(v, done + {d}, Top(done, k)))
  {
    hide Missing;
    TopAdds(done, k, d);
  }

  lemma MovedAhead(s: State, pk: key32, v: Line, k: nat, done: set<nat>, d: nat)
    requires v.start + k <= U32_MAX && FindChain(s.chains, pk) >= 0 && Top(done, k) <= d < k
    ensures var t := Moved(s, pk, v, k, done);
            FindChain(s.chains, pk) < |t.chains|
            && Moved(s, pk, v, k, done + {d}) ==
               t.(chains := t.chains[FindChain(s.chains, pk) := Chain(pk, Adv(v.ck, d + 1), v.start + d + 1)],
                  skipped := s.skipped + Missing(v, done, d))
  {
    hide Missing, Top, Adv, FindChain;
    TopAdds(done, k, d);
    MissingSkips(v, done, d);
    UpdateTwice(s.chains, FindChain(s.chains, pk), Chain(pk, Adv(v.ck, Top(done, k)), v.start + Top(done, k)),
                Chain(pk, Adv(v.ck, d + 1), v.start + d + 1));
  }

  lemma UpdateTwice(chains: seq<Chain>, i: nat, c: Chain, d: Chain)
    requires i < |chains|
    ensures chains[i := c][i := d] == chains[i := d]
  {}

  lemma MovedNone(s: State, pk: key32, v: Line, k: nat)
    requires v.start + k <= U32_MAX && FindChain(s.chains, pk) >= 0 && s.chains[FindChain(s.chains, pk)] == Chain(pk, v.ck, v.start)
    ensures Moved(s, pk, v, k, {}) == s
  {
    EmptyTop(k);
    assert Moved(s, pk, v, k, {}).chains == s.chains;
  }

  lemma MovedAll(s: State, pk: key32, v: Line, k: nat, all: set<nat>)
    requires v.start + k <= U32_MAX && FindChain(s.chains, pk) >= 0 && forall d: nat :: d < k ==> d in all
    ensures Moved(s, pk, v, k, all) == s.(chains := s.chains[FindChain(s.chains, pk) := Chain(pk, Adv(v.ck, k), v.start + k)])
  {
    NoneMissing(v, all, k);
  }
}
