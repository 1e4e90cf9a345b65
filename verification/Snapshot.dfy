/** The snapshot a session keeps so that it can undo a call. */
module Snapshot {
  import opened Bytes
  import opened Terms
  import opened SkippedStore
  import opened ReceiveChains
  import Ec = RatchetSpec

  ghost function Buffer(b: KeyBuffer?): set<object> {
    if b == null then {} else var o: object := b; {o}
  }

  /** What a snapshot hands back: the two key buffers as copies, the chains and the store as the
      snapshot's own objects. */
  datatype PrevState = PrevState(
    rk: KeyBuffer, cks: KeyBuffer?, ns: u32, pn: u32, dhs: key32, dhr: key32, dhRSet: bool, pending: bool,
    recvChains: ReceiverChains, mkSkipped: Storage)

  class Invariants {
    var rk: KeyBuffer?
    var cks: KeyBuffer?
    var ns: u32
    var pn: u32
    var dhs: key32
    var dhr: key32
    var dhRSet: bool
    var pending: bool
    var recvChains: ReceiverChains?
    var mkSkipped: Storage?

    constructor ()
    {
      rk, cks, recvChains, mkSkipped := null, null, null, null;
      ns, pn, dhs, dhr, dhRSet, pending := 0, 0, ZERO32, ZERO32, false, false;
      held := {};
    }

    /** The state last recorded, and the mutable objects it was recorded in. */
    ghost var kept: Ec.State
    ghost var held: set<object>

    /** The snapshot is complete, for a store of capacity `maxSkip`. */
    ghost predicate Complete(maxSkip: u32)
      reads this, held
    {
      && rk != null && recvChains != null && mkSkipped != null
      && rk in held && (cks != null ==> cks in held)
      && recvChains in held && recvChains in recvChains.repr && recvChains.repr <= held
      && mkSkipped in held && mkSkipped in mkSkipped.repr && mkSkipped.repr <= held
      && recvChains.Valid() && mkSkipped.Valid() && recvChains.repr !! mkSkipped.repr
      && this !in held && mkSkipped.maxSkip == maxSkip
      && kept == Ec.State(rk.key, if cks == null then None else Some(cks.key), ns, pn, dhs, dhr, dhRSet, pending,
                          recvChains.contents, mkSkipped.contents)
    }

    method RecordValues(ns: u32, pn: u32, dhs: key32, dhr: key32, dhRSet: bool, pending: bool)
      modifies `ns, `pn, `dhs, `dhr, `dhRSet, `pending
      ensures this.ns == ns && this.pn == pn && this.dhs == dhs && this.dhr == dhr && this.dhRSet == dhRSet && this.pending == pending
    {
      this.ns, this.pn, this.dhs, this.dhr, this.dhRSet, this.pending := ns, pn, dhs, dhr, dhRSet, pending;
    }

    /** Copies everything that is passed by reference. */
    method Record(ns: u32, pn: u32, rk: KeyBuffer, dhs: key32, dhr: key32, cks: KeyBuffer?,
                  recvChains: ReceiverChains, mkSkipped: Storage, dhRSet: bool, pending: bool)
      requires recvChains.Valid() && mkSkipped.Valid() && this !in recvChains.repr && this !in mkSkipped.repr
      modifies this
      ensures Complete(mkSkipped.maxSkip) && fresh(held)
      ensures kept == Ec.State(rk.key, if cks == null then None else Some(cks.key), ns, pn, dhs, dhr, dhRSet, pending,
                               recvChains.contents, mkSkipped.contents)
    {
      hide ReceiverChains.Valid, Storage.Valid;
      RecordValues(ns, pn, dhs, dhr, dhRSet, pending);
      var sendKey := CopyBytes(cks);
      var rootKey := new KeyBuffer(rk.key);
      var chains := recvChains.Clone();
      var skipped := mkSkipped.Clone();
      Adopt(rootKey, sendKey, chains, skipped);
    }

    /** Takes copies over as the snapshot's own. */
    method Adopt(rootKey: KeyBuffer, sendKey: KeyBuffer?, chains: ReceiverChains, skipped: Storage)
      modifies `rk, `cks, `recvChains, `mkSkipped, `held, `kept
      ensures rk == rootKey && cks == sendKey && recvChains == chains && mkSkipped == skipped
      ensures held == Buffer(rootKey) + Buffer(sendKey) + chains.repr + skipped.repr
      ensures kept == Ec.State(rootKey.key, if sendKey == null then None else Some(sendKey.key), ns, pn, dhs, dhr, dhRSet, pending,
                               chains.contents, skipped.contents)
    {
      rk, cks, recvChains, mkSkipped := rootKey, sendKey, chains, skipped;
      held := Buffer(rootKey) + Buffer(sendKey) + chains.repr + skipped.repr;
      kept := Ec.State(rootKey.key, if sendKey == null then None else Some(sendKey.key), ns, pn, dhs, dhr, dhRSet, pending,
                       chains.contents, skipped.contents);
    }

    method GetPrevState(ghost maxSkip: u32) returns (p: PrevState)
      requires Complete(maxSkip)
      ensures p.ns == ns && p.pn == pn && p.dhs == dhs && p.dhr == dhr && p.dhRSet == dhRSet && p.pending == pending
      ensures fresh(p.rk) && p.rk.key == rk.key
      ensures (p.cks == null <==> cks == null) && (cks != null ==> fresh(p.cks) && p.cks.key == cks.key && p.cks != p.rk)
      ensures p.recvChains == recvChains && p.mkSkipped == mkSkipped
    {
      var rootKey := new KeyBuffer(rk.key);
      var sendKey := CopyBytes(cks);
      p := PrevState(rootKey, sendKey, ns, pn, dhs, dhr, dhRSet, pending, recvChains, mkSkipped);
    }
  }
}
