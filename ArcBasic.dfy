/// `src/arc/basic.rs`: an atomically reference-counted pointer whose heap control block
/// holds the payload and one strong count, `ref_count`. Every atomic read-modify-write is
/// one indivisible step; memory orderings and fences are not modelled.
module ArcBasic {
  import opened Base

  /** The control block as one value: the payload, the atomic `ref_count` word, and two
      accounting fields the program does not store: the number of live `Arc` handles and the
      number of times the block (and with it the payload) has been freed. */
  datatype Block<T> = Block(data: T, refCount: usize, arcs: nat, freed: nat)

  /** Every block the protocol can reach: one count per live handle, never past the abort
      threshold, and the block freed exactly once, exactly when no handle is left. */
  ghost predicate Inv<T>(b: Block<T>) {
    b.refCount == b.arcs <= USIZE_HALF &&
    b.freed == (if b.arcs == 0 then 1 else 0)
  }

  /** `Arc::new`: one handle, count 1, the given payload. */
  function New<T>(data: T): (b: Block<T>)
    ensures Inv(b) && b.refCount == 1 && b.data == data && b.freed == 0
  {
    Block(data, 1, 1, 0)
  }

  /** `Clone::clone`: `fetch_add(1)`; abort if the count before was `usize::MAX / 2` or
      more. Called through a live handle. */
  function CloneStep<T>(b: Block<T>): Step<Block<T>>
    requires b.arcs > 0
  {
    var prior := b.refCount;
    if prior >= USIZE_HALF then Step(b.(refCount := UsizeInc(prior)), Aborted)
    else Step(b.(refCount := prior + 1, arcs := b.arcs + 1), Done)
  }

  /** `Drop::drop`: `fetch_sub(1)`; the handle that saw 1 frees the block and the payload. */
  function DropStep<T>(b: Block<T>): Block<T>
    requires b.arcs > 0
  {
    var prior := b.refCount;
    b.(refCount := UsizeDec(prior), arcs := b.arcs - 1,
       freed := if prior == 1 then b.freed + 1 else b.freed)
  }

  /** `Arc::get_mut`: the payload is handed out for mutation only when the count is 1. */
  function UniqueAccess<T>(b: Block<T>): Option<T> {
    if b.refCount == 1 then Some(b.data) else None
  }

  lemma CloneSpec<T>(b: Block<T>)
    requires Inv(b) && b.arcs > 0
    ensures CloneStep(b).status == Aborted <==> b.refCount >= USIZE_HALF
    ensures CloneStep(b).status != Aborted ==>
      CloneStep(b).status == Done && Inv(CloneStep(b).next) &&
      CloneStep(b).next.refCount == b.refCount + 1 &&
      CloneStep(b).next.data == b.data && CloneStep(b).next.freed == b.freed
  {
  }

  lemma DropSpec<T>(b: Block<T>)
    requires Inv(b) && b.arcs > 0
    ensures Inv(DropStep(b)) && DropStep(b).refCount == b.refCount - 1
    ensures DropStep(b).freed == 1 <==> b.refCount == 1
    ensures DropStep(b).data == b.data
  {
  }

  lemma UniqueAccessSpec<T>(b: Block<T>)
    requires Inv(b)
    ensures UniqueAccess(b).Some? <==> b.arcs == 1
    ensures UniqueAccess(b).Some? ==> UniqueAccess(b).value == b.data
  {
  }

  /** What a thread can do with a handle it owns. */
  datatype Op = CloneArc | DropArc

  /** One operation on a live handle; `None` when no handle is left to call it on, or when
      the process aborted. */
  function Apply<T>(b: Block<T>, op: Op): Option<Block<T>> {
    if b.arcs == 0 then None
    else match op
      case CloneArc =>
        var s := CloneStep(b);
        if s.status == Done then Some(s.next) else None
      case DropArc => Some(DropStep(b))
  }

  /** The block after a sequence of operations, or `None` if one of them could not run. */
  function Run<T>(b: Block<T>, ops: seq<Op>): Option<Block<T>>
    decreases |ops|
  {
    if ops == [] then Some(b)
    else match Apply(b, ops[0])
      case None => None
      case Some(b') => Run(b', ops[1..])
  }

  lemma ApplyKeepsInv<T>(b: Block<T>, op: Op)
    requires Inv(b)
    ensures Apply(b, op).Some? ==> Inv(Apply(b, op).value) && Apply(b, op).value.data == b.data
  {
    if b.arcs > 0 {
      CloneSpec(b);
      DropSpec(b);
    }
  }

  /** Any interleaving of clones and drops keeps the invariant and never changes the payload
      that `Deref::deref` returns. */
  lemma {:induction false} RunKeepsInv<T>(b: Block<T>, ops: seq<Op>)
    requires Inv(b)
    ensures Run(b, ops).Some? ==> Inv(Run(b, ops).value) && Run(b, ops).value.data == b.data
    decreases |ops|
  {
    if ops != [] {
      ApplyKeepsInv(b, ops[0]);
      if Apply(b, ops[0]).Some? {
        RunKeepsInv(Apply(b, ops[0]).value, ops[1..]);
      }
    }
  }

  /** From `Arc::new`, whatever the clones and drops: the payload is freed at most once, it
      is freed exactly when the last handle is gone, and until then it is the payload given
      to `new`. */
  lemma {:induction false} FreedOnceAfterLastHandle<T>(data: T, ops: seq<Op>)
    requires Run(New(data), ops).Some?
    ensures var b := Run(New(data), ops).value;
      b.freed <= 1 && (b.freed == 1 <==> b.arcs == 0) && b.data == data
  {
    RunKeepsInv(New(data), ops);
  }

  /** The control block `ArcData` with its atomic word. The handles themselves are not
      objects: `arcs` counts them. */
  class ArcData<T> {
    var data: T
    var refCount: usize
    ghost var arcs: nat
    ghost var freed: nat

    ghost function Model(): Block<T>
      reads this
    {
      Block(data, refCount, arcs, freed)
    }

    ghost predicate Valid()
      reads this
    {
      Inv(Model())
    }

    /** `Arc::new`. */
    constructor (data: T)
      ensures Model() == New(data) && Valid()
    {
      this.data := data;
      refCount := 1;
      arcs := 1;
      freed := 0;
    }

    /** `Arc::get_mut`: access to the payload is granted exactly to the only handle. */
    method GetMut() returns (r: Option<T>)
      requires Valid() && arcs > 0
      ensures r == UniqueAccess(Model())
      ensures r.Some? <==> arcs == 1
      ensures r.Some? ==> r.value == data
    {
      if refCount == 1 {
        r := Some(data);
      } else {
        r := None;
      }
    }

    /** `Deref::deref`: a live handle reads the payload of a block that is not freed. */
    method Deref() returns (d: T)
      requires Valid() && arcs > 0
      ensures d == data && freed == 0
    {
      d := data;
    }

    /** `Clone::clone`. */
    method Clone() returns (status: Status)
      requires Valid() && arcs > 0
      modifies this
      ensures Model() == CloneStep(old(Model())).next && status == CloneStep(old(Model())).status
      ensures status == Aborted <==> old(refCount) >= USIZE_HALF
      ensures status == Done ==> Valid() && refCount == old(refCount) + 1
    {
      var prior := refCount;
      refCount := UsizeInc(prior);
      if prior >= USIZE_HALF {
        status := Aborted;
        return;
      }
      arcs := arcs + 1;
      status := Done;
    }

    /** `Drop::drop`; `wasLast` says whether this call freed the block. */
    method Drop() returns (wasLast: bool)
      requires Valid() && arcs > 0
      modifies this
      ensures Model() == DropStep(old(Model())) && Valid()
      ensures wasLast <==> old(refCount) == 1
      ensures freed == if wasLast then 1 else 0
    {
      var prior := refCount;
      refCount := UsizeDec(prior);
      arcs := arcs - 1;
      wasLast := prior == 1;
      if wasLast {
        freed := freed + 1;
      }
      DropSpec(old(Model()));
    }
  }

  /** The scenario of the module's test: a clone shares the payload; dropping one of the two
      handles does not free it, dropping the second does. */
  method CloneThenDropBoth<T>(payload: T) returns (shared: T, firstFreed: bool, lastFreed: bool)
    ensures shared == payload && !firstFreed && lastFreed
  {
    var x := new ArcData(payload);
    var status := x.Clone();
    shared := x.Deref();
    firstFreed := x.Drop();
    lastFreed := x.Drop();
  }
}
