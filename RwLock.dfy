/// `src/lock/rwlock.rs`: a reader-writer lock on two 32-bit words. `state` holds the number of
/// readers, or `u32::MAX` while write-locked; `writer_wait_counter` is bumped whenever the lock
/// may have become free, and is the word a waiting writer sleeps on.
module RwLock {
  import opened Base

  /** The lock. `readers` and `writer` count the live guards; `signals` counts the bumps of
      `writer_wait_counter`, `readerWakes` the `wake_all` calls on `state`. */
  datatype Lock<T> = Lock(
    state: u32,
    writerWaitCounter: u32,
    val: T,
    readers: nat,
    writer: bool,
    signals: nat,
    readerWakes: nat)

  /** `state` is the number of read guards, or `u32::MAX` exactly while a write guard lives,
      so readers and a writer never overlap; `writer_wait_counter` is the number of signals
      modulo 2^32. */
  ghost predicate Inv<T>(l: Lock<T>) {
    (l.writer <==> l.state == U32_MAX) &&
    (!l.writer ==> l.state == l.readers) &&
    (l.writer ==> l.readers == 0) &&
    l.writerWaitCounter == l.signals % (U32_MAX + 1)
  }

  /** `RwLock::new`. */
  function New<T>(val: T): (l: Lock<T>)
    ensures Inv(l) && l.state == 0 && l.val == val && !l.writer && l.readers == 0
  {
    Lock(0, 0, val, 0, false, 0, 0)
  }

  /** One pass of `read`'s loop: a write-locked lock makes the reader wait on `state`; at
      `u32::MAX - 1` readers the `assert!` panics; otherwise the count goes up by one. */
  function ReadStep<T>(l: Lock<T>): Step<Lock<T>> {
    var s := l.state;
    if s == U32_MAX then Step(l, Blocked)
    else if s == U32_MAX - 1 then Step(l, Panicked)
    else Step(l.(state := s + 1, readers := l.readers + 1), Done)
  }

  /** `Drop for ReadGuard`: `fetch_sub(1)`; the last reader bumps `writer_wait_counter` and
      wakes one writer. */
  function ReadUnlockStep<T>(l: Lock<T>): Lock<T>
    requires l.readers > 0
  {
    var prior := l.state;
    var l1 := l.(state := U32Dec(prior), readers := l.readers - 1);
    if prior == 1 then
      l1.(writerWaitCounter := U32Inc(l.writerWaitCounter), signals := l.signals + 1)
    else l1
  }

  /** One pass of `write`'s loop: the compare-exchange of 0 to `u32::MAX` succeeds, or the
      writer loads `writer_wait_counter`, sees `state` still non-zero and waits on the
      counter (`Blocked`). */
  function WriteStep<T>(l: Lock<T>): Step<Lock<T>> {
    if l.state == 0 then Step(l.(state := U32_MAX, writer := true), Done)
    else Step(l, Blocked)
  }

  /** `Drop for WriteGuard`: store 0, bump `writer_wait_counter`, wake all readers and one
      writer. */
  function WriteUnlockStep<T>(l: Lock<T>): Lock<T>
    requires l.writer
  {
    l.(state := 0, writer := false,
       writerWaitCounter := U32Inc(l.writerWaitCounter), signals := l.signals + 1,
       readerWakes := l.readerWakes + 1)
  }

  /** `DerefMut for WriteGuard`, as an assignment through it. */
  function AssignStep<T>(l: Lock<T>, v: T): Lock<T>
    requires l.writer
  {
    l.(val := v)
  }

  lemma SignalsWrap(n: nat)
    ensures (n + 1) % (U32_MAX + 1) == U32Inc(n % (U32_MAX + 1))
  {
  }

  lemma ReadSpec<T>(l: Lock<T>)
    requires Inv(l)
    ensures Inv(ReadStep(l).next)
    ensures ReadStep(l).status == Blocked <==> l.writer
    ensures ReadStep(l).status == Panicked <==> l.readers == U32_MAX - 1
    ensures ReadStep(l).status == Done ==>
      !l.writer && ReadStep(l).next.readers == l.readers + 1 && !ReadStep(l).next.writer
    ensures ReadStep(l).status != Done ==> ReadStep(l).next == l
  {
  }

  lemma ReadUnlockSpec<T>(l: Lock<T>)
    requires Inv(l) && l.readers > 0
    ensures Inv(ReadUnlockStep(l)) && ReadUnlockStep(l).readers == l.readers - 1
    ensures ReadUnlockStep(l).signals == l.signals + (if l.readers == 1 then 1 else 0)
    ensures ReadUnlockStep(l).state == 0 <==> l.readers == 1
  {
    SignalsWrap(l.signals);
  }

  lemma WriteSpec<T>(l: Lock<T>)
    requires Inv(l)
    ensures Inv(WriteStep(l).next)
    ensures WriteStep(l).status == Done <==> !l.writer && l.readers == 0
    ensures WriteStep(l).status == Done ==> WriteStep(l).next.writer
    ensures WriteStep(l).status != Done ==> WriteStep(l).status == Blocked && WriteStep(l).next == l
  {
  }

  lemma WriteUnlockSpec<T>(l: Lock<T>)
    requires Inv(l) && l.writer
    ensures Inv(WriteUnlockStep(l)) && WriteUnlockStep(l).state == 0
    ensures WriteUnlockStep(l).signals == l.signals + 1
    ensures WriteUnlockStep(l).readerWakes == l.readerWakes + 1
  {
    SignalsWrap(l.signals);
  }

  datatype Op<T> = Read | ReadUnlock | Write | WriteUnlock | Assign(value: T)

  /** The caller holds the guard the operation needs. */
  predicate Enabled<T>(l: Lock<T>, op: Op<T>) {
    match op
    case Read => true
    case ReadUnlock => l.readers > 0
    case Write => true
    case WriteUnlock => l.writer
    case Assign(_) => l.writer
  }

  /** One operation; a blocked pass leaves the lock as it was, a panicking one ends the trace. */
  function Apply<T>(l: Lock<T>, op: Op<T>): Option<Lock<T>> {
    if !Enabled(l, op) then None
    else match op
      case Read => if ReadStep(l).status == Panicked then None else Some(ReadStep(l).next)
      case ReadUnlock => Some(ReadUnlockStep(l))
      case Write => Some(WriteStep(l).next)
      case WriteUnlock => Some(WriteUnlockStep(l))
      case Assign(v) => Some(AssignStep(l, v))
  }

  function Run<T>(l: Lock<T>, ops: seq<Op<T>>): Option<Lock<T>>
    decreases |ops|
  {
    if ops == [] then Some(l)
    else match Apply(l, ops[0])
      case None => None
      case Some(l') => Run(l', ops[1..])
  }

  /** Each step keeps the invariant, never takes a signal back, and signals whenever it frees
      the lock for a writer or lifts the write lock for readers. */
  lemma ApplySpec<T>(l: Lock<T>, op: Op<T>)
    requires Inv(l)
    ensures Apply(l, op).Some? ==> Inv(Apply(l, op).value)
    ensures Apply(l, op).Some? ==>
      Apply(l, op).value.signals >= l.signals && Apply(l, op).value.readerWakes >= l.readerWakes
    ensures Apply(l, op).Some? && l.state != 0 && Apply(l, op).value.state == 0 ==>
      Apply(l, op).value.signals > l.signals
    ensures Apply(l, op).Some? && l.writer && !Apply(l, op).value.writer ==>
      Apply(l, op).value.readerWakes > l.readerWakes
  {
    if Enabled(l, op) {
      match op
      case Read => ReadSpec(l);
      case ReadUnlock => ReadUnlockSpec(l);
      case Write => WriteSpec(l);
      case WriteUnlock => WriteUnlockSpec(l);
      case Assign(v) =>
    }
  }

  /** No lost wake-up. A writer that failed to lock read `writer_wait_counter` and then saw a
      non-zero `state`; once the lock is free again there has been at least one signal since,
      so its `wait` on the counter returns. Likewise a reader waiting on a write-locked
      `state` is woken by `wake_all` when the write lock goes. */
  lemma {:induction false} NoLostWakeup<T>(l: Lock<T>, ops: seq<Op<T>>)
    requires Inv(l)
    ensures Run(l, ops).Some? ==> Inv(Run(l, ops).value)
    ensures Run(l, ops).Some? ==>
      Run(l, ops).value.signals >= l.signals && Run(l, ops).value.readerWakes >= l.readerWakes
    ensures Run(l, ops).Some? && l.state != 0 && Run(l, ops).value.state == 0 ==>
      Run(l, ops).value.signals > l.signals
    ensures Run(l, ops).Some? && l.writer && !Run(l, ops).value.writer ==>
      Run(l, ops).value.readerWakes > l.readerWakes
    decreases |ops|
  {
    if ops != [] {
      ApplySpec(l, ops[0]);
      if Apply(l, ops[0]).Some? {
        NoLostWakeup(Apply(l, ops[0]).value, ops[1..]);
      }
    }
  }

  /** While fewer than 2^32 signals have passed, the counter a waiting writer compares with
      has moved, so the wait does not sleep. */
  lemma CounterMovedWithSignals(before: nat, after: nat)
    requires before < after < before + U32_MAX + 1
    ensures after % (U32_MAX + 1) != before % (U32_MAX + 1)
  {
  }

  /** Readers and a writer never hold the lock at once. */
  lemma {:induction false} Exclusion<T>(val: T, ops: seq<Op<T>>)
    requires Run(New(val), ops).Some?
    ensures var l := Run(New(val), ops).value;
      !(l.writer && l.readers > 0) && (l.writer <==> l.state == U32_MAX)
  {
    NoLostWakeup(New(val), ops);
  }

  /** The lock as one object. */
  class RwLock<T> {
    var state: u32
    var writerWaitCounter: u32
    var val: T
    ghost var readers: nat
    ghost var writer: bool
    ghost var signals: nat
    ghost var readerWakes: nat

    ghost function Model(): Lock<T>
      reads this
    {
      Lock(state, writerWaitCounter, val, readers, writer, signals, readerWakes)
    }

    ghost predicate Valid()
      reads this
    {
      Inv(Model())
    }

    /** `RwLock::new`. */
    constructor (val: T)
      ensures Model() == New(val) && Valid()
    {
      state, writerWaitCounter, this.val := 0, 0, val;
      readers, writer, signals, readerWakes := 0, false, 0, 0;
    }

    /** `read`, up to the point where it returns a guard, panics, or waits on a write-locked
        `state`. `spurious` is how many times `compare_exchange_weak` fails although `state`
        has not changed. */
    method Read(spurious: nat) returns (status: Status)
      requires Valid()
      modifies this
      ensures Model() == ReadStep(old(Model())).next && status == ReadStep(old(Model())).status
    {
      var s := state;
      var failures := spurious;
      while true
        invariant s == state && Model() == old(Model())
        decreases failures
      {
        if s < U32_MAX {
          if s == U32_MAX - 1 {
            status := Panicked;
            return;
          }
          if failures == 0 {
            state := s + 1;
            readers := readers + 1;
            status := Done;
            return;
          }
          failures := failures - 1;
          s := state;
        }
        if s == U32_MAX {
          status := Blocked;
          return;
        }
      }
    }

    /** `Drop for ReadGuard`; `wokeWriter` says whether it called `wake_one`. */
    method ReadUnlock() returns (wokeWriter: bool)
      requires Valid() && readers > 0
      modifies this
      ensures Model() == ReadUnlockStep(old(Model()))
      ensures wokeWriter <==> old(state) == 1
    {
      var prior := state;
      state := U32Dec(prior);
      readers := readers - 1;
      wokeWriter := prior == 1;
      if wokeWriter {
        writerWaitCounter := U32Inc(writerWaitCounter);
        signals := signals + 1;
      }
    }

    /** `write`, up to the point where it returns a guard or waits on `writer_wait_counter`;
        `waitedOn` is the counter value the wait compares with. */
    method Write() returns (status: Status, waitedOn: u32)
      requires Valid()
      modifies this
      ensures Model() == WriteStep(old(Model())).next && status == WriteStep(old(Model())).status
      ensures status == Blocked ==> waitedOn == writerWaitCounter
    {
      if state == 0 {
        state := U32_MAX;
        writer := true;
        status, waitedOn := Done, 0;
        return;
      }
      waitedOn := writerWaitCounter;
      status := Blocked;
    }

    /** `Drop for WriteGuard`. */
    method WriteUnlock()
      requires Valid() && writer
      modifies this
      ensures Model() == WriteUnlockStep(old(Model()))
    {
      state, writer := 0, false;
      writerWaitCounter := U32Inc(writerWaitCounter);
      signals := signals + 1;
      readerWakes := readerWakes + 1;
    }

    /** `Deref` of either guard. */
    method Get() returns (v: T)
      requires Valid() && (readers > 0 || writer)
      ensures v == val
    {
      v := val;
    }

    /** An assignment through `DerefMut for WriteGuard`. */
    method Assign(v: T)
      requires Valid() && writer
      modifies this
      ensures Model() == AssignStep(old(Model()), v)
    {
      val := v;
    }
  }

  /** Two readers hold the lock, so a writer waits; the last reader's release moves the
      counter the writer waits on, the writer then gets in, stores a value, and a later reader
      reads that value. */
  method ReadersThenWriter<T>(initial: T, updated: T) returns (writerWaited: bool, woken: bool, seen: T)
    ensures writerWaited && woken && seen == updated
  {
    var lock := new RwLock(initial);
    var r1 := lock.Read(0);
    var r2 := lock.Read(1);
    var w1, counter := lock.Write();
    writerWaited := w1 == Blocked;
    var woke1 := lock.ReadUnlock();
    var woke2 := lock.ReadUnlock();
    woken := lock.writerWaitCounter != counter;
    var w2, _ := lock.Write();
    lock.Assign(updated);
    lock.WriteUnlock();
    var r3 := lock.Read(0);
    seen := lock.Get();
  }
}
