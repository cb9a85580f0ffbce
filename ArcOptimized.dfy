/// `src/arc/optimiz.rs`: a reference-counted pointer with weak handles that keeps two
/// counts in its control block: `ref_count`, the number of `Arc`s, and `alloc_ref_count`,
/// the number of `Weak`s plus one while any `Arc` exists. `get_mut` briefly stores
/// `usize::MAX` in `alloc_ref_count` as a claim token, and `downgrade` spins while it sees
/// that token. Every atomic read-modify-write is one indivisible step.
module ArcOptimized {
  import opened Base

  /** The control block as one value. Besides the payload and the two atomic words it
      records what the program does not store: the live `Arc`s and `Weak`s, whether a
      `get_mut` currently holds the claim token, how many times the payload was dropped and
      how many times the block was freed. */
  datatype Block<T> = Block(
    data: T,
    refCount: usize,
    allocRefCount: usize,
    arcs: nat,
    weaks: nat,
    claimed: bool,
    dataDrops: nat,
    freed: nat)

  /** The counting invariant of optimiz.rs:12-15, plus the claim token and the destruction
      bookkeeping: the payload is dropped exactly once, when the last `Arc` goes, and the
      block is freed exactly once, when no handle of either kind is left. */
  ghost predicate Inv<T>(b: Block<T>) {
    b.refCount == b.arcs &&
    (b.claimed ==> b.allocRefCount == USIZE_MAX && b.weaks == 0 && b.arcs > 0) &&
    (!b.claimed ==>
      b.allocRefCount == b.weaks + (if b.arcs > 0 then 1 else 0) &&
      b.allocRefCount < USIZE_MAX) &&
    b.dataDrops == (if b.arcs == 0 then 1 else 0) &&
    b.freed == (if b.arcs == 0 && b.weaks == 0 then 1 else 0)
  }

  /** `Arc::new`. */
  function New<T>(data: T): (b: Block<T>)
    ensures Inv(b) && b.refCount == 1 && b.allocRefCount == 1 && b.data == data
  {
    Block(data, 1, 1, 1, 0, false, 0, 0)
  }

  /** `Clone for Arc`: `fetch_add(1)` on `ref_count`, abort if it was `usize::MAX / 2` or more. */
  function CloneStep<T>(b: Block<T>): Step<Block<T>>
    requires b.arcs > 0
  {
    var prior := b.refCount;
    if prior >= USIZE_HALF then Step(b.(refCount := UsizeInc(prior)), Aborted)
    else Step(b.(refCount := prior + 1, arcs := b.arcs + 1), Done)
  }

  /** `Drop for Weak`, on whatever weak reference is being given up: `fetch_sub(1)` on
      `alloc_ref_count`; the caller that saw 1 frees the block. */
  function ReleaseAlloc<T>(b: Block<T>): Block<T> {
    var prior := b.allocRefCount;
    b.(allocRefCount := UsizeDec(prior), freed := if prior == 1 then b.freed + 1 else b.freed)
  }

  /** `Drop for Arc`: `fetch_sub(1)` on `ref_count`; the handle that saw 1 drops the payload
      and then gives up the weak reference that all `Arc`s hold together. */
  function DropStep<T>(b: Block<T>): Block<T>
    requires b.arcs > 0
  {
    var prior := b.refCount;
    var b1 := b.(refCount := UsizeDec(prior), arcs := b.arcs - 1);
    if prior == 1 then ReleaseAlloc(b1.(dataDrops := b1.dataDrops + 1)) else b1
  }

  /** `Arc::downgrade`, one pass of its loop: spin while the claim token is there, assert
      the count is below `usize::MAX - 1`, then add one weak reference. */
  function DowngradeStep<T>(b: Block<T>): Step<Block<T>>
    requires b.arcs > 0
  {
    var count := b.allocRefCount;
    if count == USIZE_MAX then Step(b, Blocked)
    else if !(count < USIZE_MAX - 1) then Step(b, Panicked)
    else Step(b.(allocRefCount := count + 1, weaks := b.weaks + 1), Done)
  }

  /** `Weak::upgrade`: `None` (the state unchanged) once `ref_count` is 0; otherwise assert it
      is below `usize::MAX` and add one `Arc`. */
  function UpgradeStep<T>(b: Block<T>): Step<Block<T>>
    requires b.weaks > 0
  {
    var n := b.refCount;
    if n == 0 then Step(b, Done)
    else if !(n < USIZE_MAX) then Step(b, Panicked)
    else Step(b.(refCount := n + 1, arcs := b.arcs + 1), Done)
  }

  /** `Clone for Weak`: `fetch_add(1)` on `alloc_ref_count`, abort if it was
      `usize::MAX / 2` or more. */
  function WeakCloneStep<T>(b: Block<T>): Step<Block<T>>
    requires b.weaks > 0
  {
    var prior := b.allocRefCount;
    if prior >= USIZE_HALF then Step(b.(allocRefCount := UsizeInc(prior)), Aborted)
    else Step(b.(allocRefCount := prior + 1, weaks := b.weaks + 1), Done)
  }

  /** `Drop for Weak`. */
  function WeakDropStep<T>(b: Block<T>): Block<T>
    requires b.weaks > 0
  {
    ReleaseAlloc(b.(weaks := b.weaks - 1))
  }

  /** The first half of `Arc::get_mut`: compare-exchange `alloc_ref_count` from 1 to the
      claim token. When it fails nothing changes and `get_mut` returns `None`. */
  function ClaimStep<T>(b: Block<T>): Block<T> {
    if b.allocRefCount == 1 then b.(allocRefCount := USIZE_MAX, claimed := true) else b
  }

  /** The second half of `Arc::get_mut`: read whether `ref_count` is 1, then store 1 back into
      `alloc_ref_count`. */
  function ReleaseClaimStep<T>(b: Block<T>): Block<T> {
    b.(allocRefCount := 1, claimed := false)
  }

  /** What `Arc::get_mut` returns when its two halves run back to back. */
  function UniqueAccess<T>(b: Block<T>): Option<T> {
    if b.allocRefCount == 1 && b.refCount == 1 then Some(b.data) else None
  }

  lemma CloneSpec<T>(b: Block<T>)
    requires Inv(b) && b.arcs > 0
    ensures CloneStep(b).status == Aborted <==> b.refCount >= USIZE_HALF
    ensures CloneStep(b).status != Aborted ==>
      CloneStep(b).status == Done && Inv(CloneStep(b).next) &&
      CloneStep(b).next.refCount == b.refCount + 1 &&
      CloneStep(b).next.allocRefCount == b.allocRefCount
  {
  }

  lemma DropSpec<T>(b: Block<T>)
    requires Inv(b) && b.arcs > (if b.claimed then 1 else 0)
    ensures Inv(DropStep(b)) && DropStep(b).refCount == b.refCount - 1
    ensures DropStep(b).dataDrops == b.dataDrops + (if b.refCount == 1 then 1 else 0)
    ensures DropStep(b).allocRefCount ==
      b.allocRefCount - (if b.refCount == 1 then 1 else 0)
    ensures DropStep(b).freed == 1 <==> b.refCount == 1 && b.allocRefCount == 1
  {
  }

  lemma DowngradeSpec<T>(b: Block<T>)
    requires Inv(b) && b.arcs > 0
    ensures DowngradeStep(b).status == Blocked <==> b.allocRefCount == USIZE_MAX
    ensures DowngradeStep(b).status == Panicked <==> b.allocRefCount == USIZE_MAX - 1
    ensures DowngradeStep(b).status != Done ==> DowngradeStep(b).next == b
    ensures DowngradeStep(b).status == Done ==>
      Inv(DowngradeStep(b).next) &&
      DowngradeStep(b).next.allocRefCount == b.allocRefCount + 1 &&
      DowngradeStep(b).next.refCount == b.refCount
  {
  }

  lemma UpgradeSpec<T>(b: Block<T>)
    requires Inv(b) && b.weaks > 0
    ensures UpgradeStep(b).status == Panicked <==> b.refCount == USIZE_MAX
    ensures UpgradeStep(b).status == Panicked ==> UpgradeStep(b).next == b
    ensures UpgradeStep(b).status == Done ==> Inv(UpgradeStep(b).next)
    ensures b.refCount == 0 ==> UpgradeStep(b) == Step(b, Done)
    ensures UpgradeStep(b).status == Done && b.refCount != 0 ==>
      UpgradeStep(b).next.refCount == b.refCount + 1 &&
      UpgradeStep(b).next.allocRefCount == b.allocRefCount
  {
  }

  lemma WeakCloneSpec<T>(b: Block<T>)
    requires Inv(b) && b.weaks > 0
    ensures WeakCloneStep(b).status == Aborted <==> b.allocRefCount >= USIZE_HALF
    ensures WeakCloneStep(b).status != Aborted ==>
      WeakCloneStep(b).status == Done && Inv(WeakCloneStep(b).next) &&
      WeakCloneStep(b).next.allocRefCount == b.allocRefCount + 1
  {
  }

  lemma WeakDropSpec<T>(b: Block<T>)
    requires Inv(b) && b.weaks > 0
    ensures Inv(WeakDropStep(b)) && WeakDropStep(b).allocRefCount == b.allocRefCount - 1
    ensures WeakDropStep(b).freed == 1 <==> b.allocRefCount == 1
  {
  }

  /** `get_mut` leaves both counts as they were, and grants access exactly when the calling
      `Arc` is the only handle of either kind. */
  lemma GetMutSpec<T>(b: Block<T>)
    requires Inv(b) && !b.claimed && b.arcs > 0
    ensures ClaimStep(b).claimed <==> b.allocRefCount == 1
    ensures ClaimStep(b).claimed ==> Inv(ClaimStep(b)) && ReleaseClaimStep(ClaimStep(b)) == b
    ensures !ClaimStep(b).claimed ==> ClaimStep(b) == b
    ensures UniqueAccess(b).Some? <==> b.arcs == 1 && b.weaks == 0
  {
  }

  /** What a thread can do with a handle it owns. `Claim` and `ReleaseClaim` are the two
      halves of `get_mut`, which other threads may interleave. */
  datatype Op = CloneArc | DropArc | Downgrade | Upgrade | CloneWeak | DropWeak | Claim | ReleaseClaim

  /** The thread calling an operation owns a handle of the right kind; the `Arc` that holds
      the claim token is not dropped while `get_mut` runs. */
  predicate Enabled<T>(b: Block<T>, op: Op) {
    match op
    case CloneArc => b.arcs > 0
    case DropArc => b.arcs > (if b.claimed then 1 else 0)
    case Downgrade => b.arcs > 0
    case Upgrade => b.weaks > 0
    case CloneWeak => b.weaks > 0
    case DropWeak => b.weaks > 0
    case Claim => b.arcs > 0
    case ReleaseClaim => b.claimed
  }

  /** One step; `None` if the operation is not enabled, or it panicked or aborted. A step
      that spins (`Blocked`) leaves the state as it was. */
  function Apply<T>(b: Block<T>, op: Op): Option<Block<T>> {
    if !Enabled(b, op) then None
    else
      var s := match op
        case CloneArc => CloneStep(b)
        case DropArc => Step(DropStep(b), Done)
        case Downgrade => DowngradeStep(b)
        case Upgrade => UpgradeStep(b)
        case CloneWeak => WeakCloneStep(b)
        case DropWeak => Step(WeakDropStep(b), Done)
        case Claim => Step(ClaimStep(b), Done)
        case ReleaseClaim => Step(ReleaseClaimStep(b), Done);
      if s.status == Done || s.status == Blocked then Some(s.next) else None
  }

  function Run<T>(b: Block<T>, ops: seq<Op>): Option<Block<T>>
    decreases |ops|
  {
    if ops == [] then Some(b)
    else match Apply(b, ops[0])
      case None => None
      case Some(b') => Run(b', ops[1..])
  }

  lemma ApplyKeepsInv<T>(b: Block<T>, op: Op)
    requires Inv(b)
    ensures Apply(b, op).Some? ==> Inv(Apply(b, op).value) && Apply(b, op).value.data == b.data
  {
    if Enabled(b, op) {
      match op
      case CloneArc => CloneSpec(b);
      case DropArc => DropSpec(b);
      case Downgrade => DowngradeSpec(b);
      case Upgrade => UpgradeSpec(b);
      case CloneWeak => WeakCloneSpec(b);
      case DropWeak => WeakDropSpec(b);
      case Claim =>
      case ReleaseClaim =>
    }
  }

  lemma {:induction false} RunKeepsInv<T>(b: Block<T>, ops: seq<Op>)
    requires Inv(b)
    ensures Run(b, ops).Some? ==> Inv(Run(b, ops).value) && Run(b, ops).value.data == b.data
    decreases |ops|
  {
    if ops != [] {
      ApplyKeepsInv(b, ops[0]);
      if Apply(b, ops[0]).Some? {
        RunKeepsInv(Apply(b, ops[0]).value, ops[1..]);
      }
    }
  }

  /** From `Arc::new`, under any interleaving: the payload is dropped at most once, the block
      is freed at most once and never before the payload, and each happens exactly when the
      last handle of the relevant kind is gone. */
  lemma {:induction false} DropsHappenOnce<T>(data: T, ops: seq<Op>)
    requires Run(New(data), ops).Some?
    ensures var b := Run(New(data), ops).value;
      b.dataDrops <= 1 && b.freed <= 1 && (b.freed == 1 ==> b.dataDrops == 1) &&
      (b.dataDrops == 1 <==> b.arcs == 0) &&
      (b.freed == 1 <==> b.arcs == 0 && b.weaks == 0)
  {
    RunKeepsInv(New(data), ops);
  }

  /** Once `ref_count` is 0 it stays 0: no later `upgrade` succeeds, and the payload is not
      dropped again. */
  lemma {:induction false} NoResurrection<T>(b: Block<T>, ops: seq<Op>)
    requires Inv(b) && b.refCount == 0
    ensures Run(b, ops).Some? ==>
      Run(b, ops).value.refCount == 0 && Run(b, ops).value.dataDrops == 1
    decreases |ops|
  {
    if ops != [] {
      ApplyKeepsInv(b, ops[0]);
      if Apply(b, ops[0]).Some? {
        NoResurrection(Apply(b, ops[0]).value, ops[1..]);
      }
    }
  }

  /** While `get_mut` holds the claim token, whatever the other threads do (their own
      `get_mut` fails to claim, every `downgrade` spins), no `Weak` comes into existence. So the
      `ref_count` of 1 that `get_mut` reads before releasing the claim means exactly that the
      caller's `Arc` is the only handle of either kind, and the release grants the access. */
  lemma {:induction false} ClaimExcludesWeaks<T>(b: Block<T>, ops: seq<Op>)
    requires Inv(b) && b.claimed
    requires forall i :: 0 <= i < |ops| ==> ops[i] != ReleaseClaim
    ensures Run(b, ops).Some? ==>
      var c := Run(b, ops).value;
      c.claimed && c.weaks == 0 &&
      (UniqueAccess(ReleaseClaimStep(c)).Some? <==> c.arcs == 1) &&
      (UniqueAccess(ReleaseClaimStep(c)).Some? ==> UniqueAccess(ReleaseClaimStep(c)).value == b.data)
    decreases |ops|
  {
    if ops != [] {
      ApplyKeepsInv(b, ops[0]);
      if Apply(b, ops[0]).Some? {
        ClaimExcludesWeaks(Apply(b, ops[0]).value, ops[1..]);
      }
    }
  }

  /** The control block `ArcData` with its two atomic words. Between method calls no claim
      token is outstanding: `get_mut` takes and returns it within one call. */
  class ArcData<T> {
    var data: T
    var refCount: usize
    var allocRefCount: usize
    ghost var arcs: nat
    ghost var weaks: nat
    ghost var dataDrops: nat
    ghost var freed: nat

    ghost function Model(): Block<T>
      reads this
    {
      Block(data, refCount, allocRefCount, arcs, weaks, false, dataDrops, freed)
    }

    ghost predicate Valid()
      reads this
    {
      Inv(Model())
    }

    /** `Arc::new`. */
    constructor (data: T)
      ensures Model() == New(data) && Valid()
    {
      this.data := data;
      refCount, allocRefCount := 1, 1;
      arcs, weaks := 1, 0;
      dataDrops, freed := 0, 0;
    }

    /** `Arc::get_mut`: claim, read `ref_count`, restore. */
    method GetMut() returns (r: Option<T>)
      requires Valid() && arcs > 0
      modifies this
      ensures Model() == old(Model())
      ensures r == UniqueAccess(Model())
      ensures r.Some? <==> arcs == 1 && weaks == 0
    {
      if allocRefCount != 1 {
        r := None;
        return;
      }
      allocRefCount := USIZE_MAX;
      var isUnique := refCount == 1;
      allocRefCount := 1;
      if !isUnique {
        r := None;
        return;
      }
      r := Some(data);
    }

    /** `Arc::downgrade`. `spurious` is how many times `compare_exchange_weak` fails
        although the count has not changed, which the hardware is allowed to do. */
    method Downgrade(spurious: nat) returns (status: Status)
      requires Valid() && arcs > 0
      modifies this
      ensures Model() == DowngradeStep(old(Model())).next
      ensures status == DowngradeStep(old(Model())).status
      ensures status != Panicked ==> Valid()
    {
      var count := allocRefCount;
      var failures := spurious;
      while true
        invariant count == allocRefCount && Model() == old(Model())
        decreases failures
      {
        if count == USIZE_MAX {
          status := Blocked;
          return;
        }
        if !(count < USIZE_MAX - 1) {
          status := Panicked;
          return;
        }
        if failures > 0 {
          failures := failures - 1;
          count := allocRefCount;
          continue;
        }
        allocRefCount := count + 1;
        weaks := weaks + 1;
        status := Done;
        return;
      }
    }

    /** `Deref`: a live `Arc` reads a payload that has not been dropped. */
    method Deref() returns (d: T)
      requires Valid() && arcs > 0
      ensures d == data && dataDrops == 0 && freed == 0
    {
      d := data;
    }

    /** `Clone for Arc`. */
    method Clone() returns (status: Status)
      requires Valid() && arcs > 0
      modifies this
      ensures Model() == CloneStep(old(Model())).next && status == CloneStep(old(Model())).status
      ensures status == Aborted <==> old(refCount) >= USIZE_HALF
      ensures status == Done ==> Valid()
    {
      var prior := refCount;
      refCount := UsizeInc(prior);
      if prior >= USIZE_HALF {
        status := Aborted;
        return;
      }
      arcs := arcs + 1;
      status := Done;
    }

    /** The body of `Drop for Weak`: give up one weak reference. */
    method ReleaseWeakReference() returns (wasLast: bool)
      modifies this
      ensures Model() == ReleaseAlloc(old(Model()))
      ensures wasLast <==> old(allocRefCount) == 1
    {
      var prior := allocRefCount;
      allocRefCount := UsizeDec(prior);
      wasLast := prior == 1;
      if wasLast {
        freed := freed + 1;
      }
    }

    /** `Drop for Arc`. */
    method Drop() returns (droppedData: bool, freedBlock: bool)
      requires Valid() && arcs > 0
      modifies this
      ensures Model() == DropStep(old(Model())) && Valid()
      ensures droppedData <==> old(refCount) == 1
      ensures freedBlock <==> old(refCount) == 1 && old(allocRefCount) == 1
    {
      DropSpec(Model());
      var prior := refCount;
      refCount := UsizeDec(prior);
      arcs := arcs - 1;
      droppedData, freedBlock := prior == 1, false;
      if droppedData {
        dataDrops := dataDrops + 1;
        freedBlock := ReleaseWeakReference();
      }
    }

    /** `Weak::upgrade`; `spurious` as for `Downgrade`. */
    method Upgrade(spurious: nat) returns (status: Status, upgraded: bool)
      requires Valid() && weaks > 0
      modifies this
      ensures Model() == UpgradeStep(old(Model())).next
      ensures status == UpgradeStep(old(Model())).status
      ensures status != Panicked ==> Valid()
      ensures upgraded <==> status == Done && old(refCount) != 0
    {
      var n := refCount;
      var failures := spurious;
      while true
        invariant n == refCount && Model() == old(Model())
        decreases failures
      {
        if n == 0 {
          status, upgraded := Done, false;
          return;
        }
        if !(n < USIZE_MAX) {
          status, upgraded := Panicked, false;
          return;
        }
        if failures > 0 {
          failures := failures - 1;
          n := refCount;
          continue;
        }
        refCount := n + 1;
        arcs := arcs + 1;
        status, upgraded := Done, true;
        return;
      }
    }

    /** `Clone for Weak`. */
    method CloneWeak() returns (status: Status)
      requires Valid() && weaks > 0
      modifies this
      ensures Model() == WeakCloneStep(old(Model())).next
      ensures status == WeakCloneStep(old(Model())).status
      ensures status == Aborted <==> old(allocRefCount) >= USIZE_HALF
      ensures status == Done ==> Valid()
    {
      var prior := allocRefCount;
      allocRefCount := UsizeInc(prior);
      if prior >= USIZE_HALF {
        status := Aborted;
        return;
      }
      weaks := weaks + 1;
      status := Done;
    }

    /** `Drop for Weak`. */
    method DropWeak() returns (freedBlock: bool)
      requires Valid() && weaks > 0
      modifies this
      ensures Model() == WeakDropStep(old(Model())) && Valid()
      ensures freedBlock <==> old(allocRefCount) == 1
    {
      WeakDropSpec(Model());
      weaks := weaks - 1;
      freedBlock := ReleaseWeakReference();
    }
  }

  /** The scenario of the module's test: with two weak handles, an upgrade succeeds while
      the `Arc` lives, and neither the spawned thread's upgraded `Arc` nor the temporary one
      from `z.upgrade()` drops the payload when it goes; after the `Arc` is dropped the
      payload is dropped and upgrading fails. */
  method UpgradeBeforeAndAfterLastDrop<T>(payload: T)
    returns (threadDrop: bool, tempDrop: bool, before: bool, droppedData: bool, after: bool)
    ensures !threadDrop && !tempDrop
    ensures before && droppedData && !after
  {
    var x := new ArcData(payload);
    var s1 := x.Downgrade(0);
    var s2 := x.Downgrade(0);
    var s3, y := x.Upgrade(0);
    var fy;
    threadDrop, fy := x.Drop();
    var fw := x.DropWeak();
    var s4;
    s4, before := x.Upgrade(0);
    var ft;
    tempDrop, ft := x.Drop();
    var fx;
    droppedData, fx := x.Drop();
    var s5;
    s5, after := x.Upgrade(0);
  }
}
