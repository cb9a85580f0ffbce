/// `src/arc/weak.rs`: a reference-counted pointer whose payload cell is an `Option<T>`.
/// A `Weak` owns one unit of `alloc_ref_count`; an `Arc` is a `Weak` plus one unit of
/// `ref_count`. When the last `Arc` goes the payload is swapped out for `None` and dropped;
/// the block itself stays until the last `Weak`, including those inside `Arc`s, is gone.
module ArcWeak {
  import opened Base

  /** The control block as one value. `arcs` counts live `Arc`s, `weaks` the `Weak`s that
      are not inside an `Arc`; `dataDrops` and `freed` count destructions. */
  datatype Block<T> = Block(
    data: Option<T>,
    refCount: usize,
    allocRefCount: usize,
    arcs: nat,
    weaks: nat,
    dataDrops: nat,
    freed: nat)

  /** Each `Arc` owns one `Weak` (weak.rs:18-20), so `alloc_ref_count` counts every `Weak`,
      embedded or not. The payload is present exactly while an `Arc` exists, and it and the
      block are each destroyed exactly once, at the last `Arc` and the last `Weak`. */
  ghost predicate Inv<T>(b: Block<T>) {
    b.refCount == b.arcs &&
    b.allocRefCount == b.arcs + b.weaks <= USIZE_HALF &&
    (b.data.Some? <==> b.arcs > 0) &&
    b.dataDrops == (if b.arcs == 0 then 1 else 0) &&
    b.freed == (if b.allocRefCount == 0 then 1 else 0)
  }

  /** `Arc::new`. */
  function New<T>(data: T): (b: Block<T>)
    ensures Inv(b) && b.data == Some(data) && b.refCount == 1 && b.allocRefCount == 1
  {
    Block(Some(data), 1, 1, 1, 0, 0, 0)
  }

  /** The body of `Clone for Weak`: `fetch_add(1)` on `alloc_ref_count`, abort if it was
      `usize::MAX / 2` or more. Who owns the new reference is the caller's business. */
  function AllocCloneStep<T>(b: Block<T>): Step<Block<T>> {
    var prior := b.allocRefCount;
    if prior >= USIZE_HALF then Step(b.(allocRefCount := UsizeInc(prior)), Aborted)
    else Step(b.(allocRefCount := prior + 1), Done)
  }

  /** The body of `Drop for Weak`: `fetch_sub(1)`; the caller that saw 1 frees the block. */
  function AllocRelease<T>(b: Block<T>): Block<T> {
    var prior := b.allocRefCount;
    b.(allocRefCount := UsizeDec(prior), freed := if prior == 1 then b.freed + 1 else b.freed)
  }

  /** `Clone for Arc`: clone the embedded `Weak`, then `fetch_add(1)` on `ref_count` and abort
      if it was `usize::MAX / 2` or more. */
  function CloneStep<T>(b: Block<T>): Step<Block<T>>
    requires b.arcs > 0
  {
    var w := AllocCloneStep(b);
    if w.status != Done then w
    else
      var prior := w.next.refCount;
      if prior >= USIZE_HALF then Step(w.next.(refCount := UsizeInc(prior)), Aborted)
      else Step(w.next.(refCount := prior + 1, arcs := b.arcs + 1), Done)
  }

  /** `Drop for Arc`: `fetch_sub(1)` on `ref_count`; the handle that saw 1 swaps the payload
      for `None`, dropping it. Then the embedded `Weak` is dropped. */
  function DropStep<T>(b: Block<T>): Block<T>
    requires b.arcs > 0
  {
    var prior := b.refCount;
    var b1 := b.(refCount := UsizeDec(prior), arcs := b.arcs - 1);
    var b2 := if prior == 1 then b1.(data := None, dataDrops := b1.dataDrops + 1) else b1;
    AllocRelease(b2)
  }

  /** `Arc::downgrade`: a clone of the embedded `Weak`. */
  function DowngradeStep<T>(b: Block<T>): Step<Block<T>>
    requires b.arcs > 0
  {
    var w := AllocCloneStep(b);
    if w.status == Done then Step(w.next.(weaks := b.weaks + 1), Done) else w
  }

  /** `Weak::upgrade`: `None` (nothing changes) once `ref_count` is 0; otherwise assert it is
      below `usize::MAX`, add one to it, and wrap a clone of this `Weak` in the new `Arc`. */
  function UpgradeStep<T>(b: Block<T>): Step<Block<T>>
    requires b.weaks > 0
  {
    var n := b.refCount;
    if n == 0 then Step(b, Done)
    else if !(n < USIZE_MAX) then Step(b, Panicked)
    else
      var w := AllocCloneStep(b.(refCount := n + 1));
      if w.status == Done then Step(w.next.(arcs := b.arcs + 1), Done) else w
  }

  /** `Clone for Weak` on a `Weak` that is not inside an `Arc`. */
  function WeakCloneStep<T>(b: Block<T>): Step<Block<T>>
    requires b.weaks > 0
  {
    var w := AllocCloneStep(b);
    if w.status == Done then Step(w.next.(weaks := b.weaks + 1), Done) else w
  }

  /** `Drop for Weak` on a `Weak` that is not inside an `Arc`. */
  function WeakDropStep<T>(b: Block<T>): Block<T>
    requires b.weaks > 0
  {
    AllocRelease(b.(weaks := b.weaks - 1))
  }

  /** `Arc::get_mut` as written (weak.rs:35-42): access is granted when `ref_count` is 1,
      whatever `alloc_ref_count` says. */
  function GetMutAsWritten<T>(b: Block<T>): Option<T> {
    if b.refCount == 1 then b.data else None
  }

  /** `Arc::get_mut` as evidently intended: grant access only when `alloc_ref_count` is 1,
      that is, when the caller's `Arc` is the only handle of either kind. */
  function UniqueAccess<T>(b: Block<T>): Option<T> {
    if b.allocRefCount == 1 then b.data else None
  }

  lemma CloneSpec<T>(b: Block<T>)
    requires Inv(b) && b.arcs > 0
    ensures CloneStep(b).status == Aborted <==>
      b.allocRefCount >= USIZE_HALF || b.refCount >= USIZE_HALF
    ensures CloneStep(b).status != Aborted ==>
      CloneStep(b).status == Done && Inv(CloneStep(b).next) &&
      CloneStep(b).next.refCount == b.refCount + 1 &&
      CloneStep(b).next.allocRefCount == b.allocRefCount + 1
  {
  }

  lemma DropSpec<T>(b: Block<T>)
    requires Inv(b) && b.arcs > 0
    ensures Inv(DropStep(b))
    ensures DropStep(b).refCount == b.refCount - 1
    ensures DropStep(b).allocRefCount == b.allocRefCount - 1
    ensures DropStep(b).data == (if b.refCount == 1 then None else b.data)
    ensures DropStep(b).dataDrops == 1 <==> b.refCount == 1
    ensures DropStep(b).freed == 1 <==> b.allocRefCount == 1
  {
  }

  lemma DowngradeSpec<T>(b: Block<T>)
    requires Inv(b) && b.arcs > 0
    ensures DowngradeStep(b).status == Aborted <==> b.allocRefCount >= USIZE_HALF
    ensures DowngradeStep(b).status != Aborted ==>
      DowngradeStep(b).status == Done && Inv(DowngradeStep(b).next) &&
      DowngradeStep(b).next.allocRefCount == b.allocRefCount + 1 &&
      DowngradeStep(b).next.refCount == b.refCount
  {
  }

  lemma UpgradeSpec<T>(b: Block<T>)
    requires Inv(b) && b.weaks > 0
    ensures UpgradeStep(b).status != Panicked
    ensures b.refCount == 0 ==> UpgradeStep(b) == Step(b, Done)
    ensures b.refCount != 0 ==>
      (UpgradeStep(b).status == Aborted <==> b.allocRefCount >= USIZE_HALF)
    ensures b.refCount != 0 && UpgradeStep(b).status == Done ==>
      Inv(UpgradeStep(b).next) &&
      UpgradeStep(b).next.refCount == b.refCount + 1 &&
      UpgradeStep(b).next.allocRefCount == b.allocRefCount + 1
  {
  }

  lemma WeakCloneSpec<T>(b: Block<T>)
    requires Inv(b) && b.weaks > 0
    ensures WeakCloneStep(b).status == Aborted <==> b.allocRefCount >= USIZE_HALF
    ensures WeakCloneStep(b).status != Aborted ==>
      WeakCloneStep(b).status == Done && Inv(WeakCloneStep(b).next) &&
      WeakCloneStep(b).next.allocRefCount == b.allocRefCount + 1
  {
  }

  lemma WeakDropSpec<T>(b: Block<T>)
    requires Inv(b) && b.weaks > 0
    ensures Inv(WeakDropStep(b)) && WeakDropStep(b).allocRefCount == b.allocRefCount - 1
    ensures WeakDropStep(b).freed == 1 <==> b.allocRefCount == 1
  {
  }

  /** `get_mut` as written looks at `ref_count` only: it grants access to a live payload,
      and it does so whether or not a `Weak` exists. */
  lemma GetMutAsWrittenSpec<T>(b: Block<T>)
    requires Inv(b)
    ensures GetMutAsWritten(b).Some? <==> b.refCount == 1
    ensures GetMutAsWritten(b).Some? ==> GetMutAsWritten(b) == b.data
  {
  }

  /** Counterexample for `get_mut` as written: after `Arc::new` and one `downgrade`, `get_mut`
      hands out the payload for mutation, yet the `Weak` can still be upgraded to a second
      `Arc` that reads the same payload while the mutable reference is alive. */
  lemma GetMutAliasedByUpgrade<T>(payload: T)
    ensures var b := DowngradeStep(New(payload)).next;
      DowngradeStep(New(payload)).status == Done &&
      GetMutAsWritten(b) == Some(payload) &&
      UpgradeStep(b).status == Done && UpgradeStep(b).next.arcs == 2 &&
      UpgradeStep(b).next.data == Some(payload)
  {
  }

  /** The corrected `get_mut` grants access only when no other handle of either kind exists,
      so no `upgrade` and no other `Arc` can reach the payload. */
  lemma GetMutUniqueSpec<T>(b: Block<T>)
    requires Inv(b) && b.arcs > 0
    ensures UniqueAccess(b).Some? <==> b.arcs == 1 && b.weaks == 0
    ensures UniqueAccess(b).Some? ==> UniqueAccess(b) == b.data
  {
  }

  datatype Op = CloneArc | DropArc | Downgrade | Upgrade | CloneWeak | DropWeak

  /** The caller owns a handle of the right kind. */
  predicate Enabled<T>(b: Block<T>, op: Op) {
    match op
    case CloneArc => b.arcs > 0
    case DropArc => b.arcs > 0
    case Downgrade => b.arcs > 0
    case Upgrade => b.weaks > 0
    case CloneWeak => b.weaks > 0
    case DropWeak => b.weaks > 0
  }

  function Apply<T>(b: Block<T>, op: Op): Option<Block<T>> {
    if !Enabled(b, op) then None
    else
      var s := match op
        case CloneArc => CloneStep(b)
        case DropArc => Step(DropStep(b), Done)
        case Downgrade => DowngradeStep(b)
        case Upgrade => UpgradeStep(b)
        case CloneWeak => WeakCloneStep(b)
        case DropWeak => Step(WeakDropStep(b), Done);
      if s.status == Done then Some(s.next) else None
  }

  function Run<T>(b: Block<T>, ops: seq<Op>): Option<Block<T>>
    decreases |ops|
  {
    if ops == [] then Some(b)
    else match Apply(b, ops[0])
      case None => None
      case Some(b') => Run(b', ops[1..])
  }

  lemma ApplyKeepsInv<T>(b: Block<T>, op: Op)
    requires Inv(b)
    ensures Apply(b, op).Some? ==> Inv(Apply(b, op).value)
    ensures Apply(b, op).Some? && Apply(b, op).value.arcs > 0 ==>
      b.arcs > 0 && Apply(b, op).value.data == b.data
  {
    if Enabled(b, op) {
      match op
      case CloneArc => CloneSpec(b);
      case DropArc => DropSpec(b);
      case Downgrade => DowngradeSpec(b);
      case Upgrade => UpgradeSpec(b);
      case CloneWeak => WeakCloneSpec(b);
      case DropWeak => WeakDropSpec(b);
    }
  }

  lemma {:induction false} RunKeepsInv<T>(b: Block<T>, ops: seq<Op>)
    requires Inv(b)
    ensures Run(b, ops).Some? ==> Inv(Run(b, ops).value)
    decreases |ops|
  {
    if ops != [] {
      ApplyKeepsInv(b, ops[0]);
      if Apply(b, ops[0]).Some? {
        RunKeepsInv(Apply(b, ops[0]).value, ops[1..]);
      }
    }
  }

  /** Under any sequence of operations the payload cell holds `data` while an `Arc` lives,
      so `deref`'s `unwrap` never fails. */
  lemma {:induction false} RunKeepsPayload<T>(b: Block<T>, data: T, ops: seq<Op>)
    requires Inv(b) && (b.arcs > 0 ==> b.data == Some(data))
    ensures Run(b, ops).Some? ==>
      Inv(Run(b, ops).value) &&
      (Run(b, ops).value.arcs > 0 ==> Run(b, ops).value.data == Some(data))
    decreases |ops|
  {
    if ops != [] {
      ApplyKeepsInv(b, ops[0]);
      if Apply(b, ops[0]).Some? {
        RunKeepsPayload(Apply(b, ops[0]).value, data, ops[1..]);
      }
    }
  }

  /** From `Arc::new`: the payload cell holds the payload given to `new` while any `Arc`
      lives and `None` afterwards; the payload is dropped at most once, exactly when the last
      `Arc` is gone, and the block freed at most once, exactly when no handle is left. */
  lemma PayloadAndBlockLifetimes<T>(data: T, ops: seq<Op>)
    requires Run(New(data), ops).Some?
    ensures var b := Run(New(data), ops).value;
      b.data == (if b.arcs > 0 then Some(data) else None) &&
      b.dataDrops <= 1 && (b.dataDrops == 1 <==> b.arcs == 0) &&
      b.freed <= 1 && (b.freed == 1 <==> b.arcs == 0 && b.weaks == 0)
  {
    RunKeepsPayload(New(data), data, ops);
  }

  /** Once `ref_count` is 0 it stays 0: `upgrade` returns `None` forever after. */
  lemma {:induction false} NoResurrection<T>(b: Block<T>, ops: seq<Op>)
    requires Inv(b) && b.refCount == 0
    ensures Run(b, ops).Some? ==>
      Run(b, ops).value.refCount == 0 && Run(b, ops).value.data == None
    decreases |ops|
  {
    if ops != [] {
      ApplyKeepsInv(b, ops[0]);
      if Apply(b, ops[0]).Some? {
        NoResurrection(Apply(b, ops[0]).value, ops[1..]);
      }
    }
  }

  /** The control block `ArcData`. Handles are not objects: `arcs` and `weaks` count them. */
  class ArcData<T> {
    var data: Option<T>
    var refCount: usize
    var allocRefCount: usize
    ghost var arcs: nat
    ghost var weaks: nat
    ghost var dataDrops: nat
    ghost var freed: nat

    ghost function Model(): Block<T>
      reads this
    {
      Block(data, refCount, allocRefCount, arcs, weaks, dataDrops, freed)
    }

    ghost predicate Valid()
      reads this
    {
      Inv(Model())
    }

    /** `Arc::new`. */
    constructor (data: T)
      ensures Model() == New(data) && Valid()
    {
      this.data := Some(data);
      refCount, allocRefCount := 1, 1;
      arcs, weaks := 1, 0;
      dataDrops, freed := 0, 0;
    }

    /** `Arc::get_mut` as written: decided by `ref_count` alone. */
    method GetMut() returns (r: Option<T>)
      requires Valid() && arcs > 0
      ensures r == GetMutAsWritten(Model())
      ensures r.Some? <==> refCount == 1
      ensures r.Some? ==> r == data
    {
      if refCount == 1 {
        r := Some(data.value);
      } else {
        r := None;
      }
    }

    /** `Arc::get_mut` as evidently intended: decided by `alloc_ref_count`. */
    method GetMutUnique() returns (r: Option<T>)
      requires Valid() && arcs > 0
      ensures r == UniqueAccess(Model())
      ensures r.Some? <==> arcs == 1 && weaks == 0
    {
      if allocRefCount == 1 {
        r := Some(data.value);
      } else {
        r := None;
      }
    }

    /** `Deref`: the `unwrap` of the payload cell succeeds for every live `Arc`. */
    method Deref() returns (d: T)
      requires Valid() && arcs > 0
      ensures data == Some(d)
    {
      d := data.value;
    }

    /** The body of `Clone for Weak`. */
    method CloneWeakReference() returns (status: Status)
      modifies this
      ensures Model() == AllocCloneStep(old(Model())).next
      ensures status == AllocCloneStep(old(Model())).status
    {
      var prior := allocRefCount;
      allocRefCount := UsizeInc(prior);
      status := if prior >= USIZE_HALF then Aborted else Done;
    }

    /** The body of `Drop for Weak`. */
    method ReleaseWeakReference() returns (wasLast: bool)
      modifies this
      ensures Model() == AllocRelease(old(Model()))
      ensures wasLast <==> old(allocRefCount) == 1
    {
      var prior := allocRefCount;
      allocRefCount := UsizeDec(prior);
      wasLast := prior == 1;
      if wasLast {
        freed := freed + 1;
      }
    }

    /** `Arc::downgrade`. */
    method Downgrade() returns (status: Status)
      requires Valid() && arcs > 0
      modifies this
      ensures Model() == DowngradeStep(old(Model())).next
      ensures status == DowngradeStep(old(Model())).status
      ensures status == Done ==> Valid()
    {
      status := CloneWeakReference();
      if status == Done {
        weaks := weaks + 1;
      }
    }

    /** `Clone for Arc`. */
    method Clone() returns (status: Status)
      requires Valid() && arcs > 0
      modifies this
      ensures Model() == CloneStep(old(Model())).next && status == CloneStep(old(Model())).status
      ensures status == Done ==> Valid()
    {
      status := CloneWeakReference();
      if status != Done {
        return;
      }
      var prior := refCount;
      refCount := UsizeInc(prior);
      if prior >= USIZE_HALF {
        status := Aborted;
        return;
      }
      arcs := arcs + 1;
    }

    /** The first half of `Drop for Arc`: give up one strong reference and, if it was the
        last, swap the payload out for `None`. */
    method ReleaseStrongReference() returns (wasLast: bool)
      requires arcs > 0
      modifies this
      ensures wasLast <==> old(refCount) == 1
      ensures Model() == old(Model()).(refCount := UsizeDec(old(refCount)), arcs := old(arcs) - 1,
        data := if wasLast then None else old(data),
        dataDrops := if wasLast then old(dataDrops) + 1 else old(dataDrops))
    {
      var prior := refCount;
      refCount := UsizeDec(prior);
      arcs := arcs - 1;
      wasLast := prior == 1;
      if wasLast {
        data := None;
        dataDrops := dataDrops + 1;
      }
    }

    /** `Drop for Arc`, followed by the drop of its embedded `Weak`. `DropSpec` shows the
        new state keeps the invariant. */
    method Drop() returns (droppedData: bool, freedBlock: bool)
      requires Valid() && arcs > 0
      modifies this
      ensures Model() == DropStep(old(Model()))
      ensures droppedData <==> old(refCount) == 1
      ensures freedBlock <==> old(allocRefCount) == 1
    {
      droppedData := ReleaseStrongReference();
      freedBlock := ReleaseWeakReference();
    }

    /** `Weak::upgrade`. Its compare-exchange retries only when another thread changed
        `ref_count` after the load; as one indivisible step here it succeeds at once. */
    method Upgrade() returns (status: Status, upgraded: bool)
      requires Valid() && weaks > 0
      modifies this
      ensures Model() == UpgradeStep(old(Model())).next
      ensures status == UpgradeStep(old(Model())).status
      ensures status == Done ==> Valid()
      ensures upgraded <==> status == Done && old(refCount) != 0
    {
      var n := refCount;
      if n == 0 {
        status, upgraded := Done, false;
        return;
      }
      if !(n < USIZE_MAX) {
        status, upgraded := Panicked, false;
        return;
      }
      refCount := n + 1;
      status := CloneWeakReference();
      upgraded := status == Done;
      if upgraded {
        arcs := arcs + 1;
      }
    }

    /** `Clone for Weak`. */
    method CloneWeak() returns (status: Status)
      requires Valid() && weaks > 0
      modifies this
      ensures Model() == WeakCloneStep(old(Model())).next
      ensures status == WeakCloneStep(old(Model())).status
      ensures status == Aborted <==> old(allocRefCount) >= USIZE_HALF
      ensures status == Done ==> Valid()
    {
      status := CloneWeakReference();
      if status == Done {
        weaks := weaks + 1;
      }
    }

    /** `Drop for Weak`. */
    method DropWeak() returns (freedBlock: bool)
      requires Valid() && weaks > 0
      modifies this
      ensures Model() == WeakDropStep(old(Model())) && Valid()
      ensures freedBlock <==> old(allocRefCount) == 1
    {
      WeakDropSpec(Model());
      weaks := weaks - 1;
      freedBlock := ReleaseWeakReference();
    }
  }

  /** The scenario of the module's test: with two weak handles, an upgrade succeeds while
      the `Arc` lives, and neither the spawned thread's upgraded `Arc` nor the temporary one
      from `z.upgrade()` drops the payload when it goes; after the `Arc` is dropped the
      payload is dropped and upgrading fails. */
  method UpgradeBeforeAndAfterLastDrop<T>(payload: T)
    returns (threadDrop: bool, tempDrop: bool, before: bool, droppedData: bool, after: bool)
    ensures !threadDrop && !tempDrop
    ensures before && droppedData && !after
  {
    var x := new ArcData(payload);
    var s1 := x.Downgrade();
    var s2 := x.Downgrade();
    var s3, y := x.Upgrade();
    var fy;
    threadDrop, fy := x.Drop();
    var fw := x.DropWeak();
    var s4;
    s4, before := x.Upgrade();
    var ft;
    tempDrop, ft := x.Drop();
    var fx;
    droppedData, fx := x.Drop();
    var s5;
    s5, after := x.Upgrade();
  }
}
