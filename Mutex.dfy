/// `src/lock/mutex.rs`: a mutex on one 32-bit word: 0 unlocked, 1 locked, 2 locked with
/// threads possibly asleep in `wait`. Unlocking wakes one thread only when the word was 2.
module Mutex {
  import opened Base

  /** The mutex. `held` says whether a guard lives; `sleeping` counts the threads asleep in
      `wait(state, 2)`; `awake` the waiters that were woken and have not yet retried. */
  datatype MutexState<T> = MutexState(state: u32, value: T, held: bool, sleeping: nat, awake: nat)

  /** The word is 0, 1 or 2 and is non-zero exactly while a guard lives. Whenever a thread is
      asleep, either the word is 2, so the next unlock wakes someone, or a woken waiter is
      still on its way to retry: no sleeper is forgotten. */
  ghost predicate Inv<T>(m: MutexState<T>) {
    m.state <= 2 &&
    (m.held <==> m.state != 0) &&
    (m.sleeping > 0 ==> m.state == 2 || m.awake > 0)
  }

  /** `Mutex::new`. */
  function New<T>(val: T): (m: MutexState<T>)
    ensures Inv(m) && !m.held && m.value == val && m.sleeping == 0 && m.awake == 0
  {
    MutexState(0, val, false, 0, 0)
  }

  /** One pass of `while state.swap(2) != 0 { wait(state, 2) }`: the thread takes the lock
      if the word was 0 (leaving it at 2), and otherwise goes to sleep. */
  function SwapTwoStep<T>(m: MutexState<T>): Step<MutexState<T>> {
    if m.state == 0 then Step(m.(state := 2, held := true), Done)
    else Step(m.(state := 2, sleeping := m.sleeping + 1), Blocked)
  }

  /** `lock`: compare-exchange 0 to 1; on failure `lock_contended`, whose spinning and second
      compare-exchange change nothing while the lock stays taken, so it ends in the swap loop. */
  function LockStep<T>(m: MutexState<T>): Step<MutexState<T>> {
    if m.state == 0 then Step(m.(state := 1, held := true), Done)
    else SwapTwoStep(m)
  }

  /** A woken waiter takes its next pass round the swap loop. */
  function RetryStep<T>(m: MutexState<T>): Step<MutexState<T>>
    requires m.awake > 0
  {
    SwapTwoStep(m.(awake := m.awake - 1))
  }

  /** `Drop for MutexGuard`: swap in 0; if the word was 2, `wake_one`. */
  function UnlockStep<T>(m: MutexState<T>): MutexState<T>
    requires m.held
  {
    var m1 := m.(state := 0, held := false);
    if m.state == 2 && m.sleeping > 0 then m1.(sleeping := m.sleeping - 1, awake := m.awake + 1)
    else m1
  }

  /** `wait` may return without a wake-up. */
  function SpuriousWakeStep<T>(m: MutexState<T>): MutexState<T>
    requires m.sleeping > 0
  {
    m.(sleeping := m.sleeping - 1, awake := m.awake + 1)
  }

  /** An assignment through `DerefMut for MutexGuard`. */
  function AssignStep<T>(m: MutexState<T>, v: T): MutexState<T>
    requires m.held
  {
    m.(value := v)
  }

  lemma LockSpec<T>(m: MutexState<T>)
    requires Inv(m)
    ensures Inv(LockStep(m).next)
    ensures LockStep(m).status == Done <==> !m.held
    ensures LockStep(m).status == Done ==> LockStep(m).next.held
    ensures LockStep(m).status != Done ==>
      LockStep(m).status == Blocked && LockStep(m).next.state == 2 &&
      LockStep(m).next.sleeping == m.sleeping + 1
  {
  }

  lemma RetrySpec<T>(m: MutexState<T>)
    requires Inv(m) && m.awake > 0
    ensures Inv(RetryStep(m).next)
    ensures RetryStep(m).status == Done <==> !m.held
    ensures RetryStep(m).status == Done ==> RetryStep(m).next.state == 2
  {
  }

  /** Unlocking wakes a thread exactly when the word says one may be asleep. */
  lemma UnlockSpec<T>(m: MutexState<T>)
    requires Inv(m) && m.held
    ensures Inv(UnlockStep(m)) && !UnlockStep(m).held && UnlockStep(m).state == 0
    ensures UnlockStep(m).awake > m.awake <==> m.state == 2 && m.sleeping > 0
  {
  }

  lemma SpuriousWakeSpec<T>(m: MutexState<T>)
    requires Inv(m) && m.sleeping > 0
    ensures Inv(SpuriousWakeStep(m))
  {
  }

  datatype Op<T> = Acquire | Retry | Release | SpuriousWake | Assign(value: T)

  /** Some thread can take the step: `Acquire` is a call of `lock`, `Release` the drop of the
      guard; a guard is needed for `Release` and `Assign`, a woken waiter for
      `Retry`, a sleeper for `SpuriousWake`. */
  predicate Enabled<T>(m: MutexState<T>, op: Op<T>) {
    match op
    case Acquire => true
    case Retry => m.awake > 0
    case Release => m.held
    case SpuriousWake => m.sleeping > 0
    case Assign(_) => m.held
  }

  function Apply<T>(m: MutexState<T>, op: Op<T>): Option<MutexState<T>> {
    if !Enabled(m, op) then None
    else match op
      case Acquire => Some(LockStep(m).next)
      case Retry => Some(RetryStep(m).next)
      case Release => Some(UnlockStep(m))
      case SpuriousWake => Some(SpuriousWakeStep(m))
      case Assign(v) => Some(AssignStep(m, v))
  }

  function Run<T>(m: MutexState<T>, ops: seq<Op<T>>): Option<MutexState<T>>
    decreases |ops|
  {
    if ops == [] then Some(m)
    else match Apply(m, ops[0])
      case None => None
      case Some(m') => Run(m', ops[1..])
  }

  lemma ApplyKeepsInv<T>(m: MutexState<T>, op: Op<T>)
    requires Inv(m)
    ensures Apply(m, op).Some? ==> Inv(Apply(m, op).value)
  {
    if Enabled(m, op) {
      match op
      case Acquire => LockSpec(m);
      case Retry => RetrySpec(m);
      case Release => UnlockSpec(m);
      case SpuriousWake => SpuriousWakeSpec(m);
      case Assign(v) =>
    }
  }

  lemma {:induction false} RunKeepsInv<T>(m: MutexState<T>, ops: seq<Op<T>>)
    requires Inv(m)
    ensures Run(m, ops).Some? ==> Inv(Run(m, ops).value)
    decreases |ops|
  {
    if ops != [] {
      ApplyKeepsInv(m, ops[0]);
      if Apply(m, ops[0]).Some? {
        RunKeepsInv(Apply(m, ops[0]).value, ops[1..]);
      }
    }
  }

  /** Under any interleaving from `Mutex::new`: at most one guard, the word stays in 0..2,
      and whenever the mutex is free while threads sleep, some woken waiter is about to retry,
      so the sleepers are not stranded. */
  lemma NoLostWakeup<T>(val: T, ops: seq<Op<T>>)
    requires Run(New(val), ops).Some?
    ensures var m := Run(New(val), ops).value;
      m.state <= 2 && (m.held <==> m.state != 0) &&
      (!m.held && m.sleeping > 0 ==> m.awake > 0)
  {
    RunKeepsInv(New(val), ops);
  }

  /** The mutex as one object. */
  class Mutex<T> {
    var state: u32
    var value: T
    ghost var held: bool
    ghost var sleeping: nat
    ghost var awake: nat

    ghost function Model(): MutexState<T>
      reads this
    {
      MutexState(state, value, held, sleeping, awake)
    }

    ghost predicate Valid()
      reads this
    {
      Inv(Model())
    }

    /** `Mutex::new`. */
    constructor (val: T)
      ensures Model() == New(val) && Valid()
    {
      state, value := 0, val;
      held, sleeping, awake := false, 0, 0;
    }

    /** `lock`: `Done` when the guard is returned, `Blocked` when the thread went to sleep. */
    method Lock() returns (status: Status)
      requires Valid()
      modifies this
      ensures Model() == LockStep(old(Model())).next && status == LockStep(old(Model())).status
    {
      if state == 0 {
        state := 1;
        held := true;
        status := Done;
        return;
      }
      status := LockContended();
    }

    /** `lock_contended`: spin at most 100 times while the word is 1, try the compare-exchange
        once more, then take the first pass of the swap loop. Called on a free mutex (another
        thread unlocked it after `lock`'s compare-exchange failed) it acts like `lock`. */
    method LockContended() returns (status: Status)
      requires Valid()
      modifies this
      ensures Model() == LockStep(old(Model())).next && status == LockStep(old(Model())).status
    {
      var spinCount := 0;
      while state == 1 && spinCount < 100
        invariant 0 <= spinCount <= 100
        invariant Model() == old(Model())
        decreases 100 - spinCount
      {
        spinCount := spinCount + 1;
      }
      if state == 0 {
        state := 1;
        held := true;
        status := Done;
        return;
      }
      status := SwapTwo();
    }

    /** One pass of the swap loop. */
    method SwapTwo() returns (status: Status)
      modifies this
      ensures Model() == SwapTwoStep(old(Model())).next && status == SwapTwoStep(old(Model())).status
    {
      var prior := state;
      state := 2;
      if prior == 0 {
        held := true;
        status := Done;
      } else {
        sleeping := sleeping + 1;
        status := Blocked;
      }
    }

    /** The next pass of the swap loop, after `wait` returned. */
    method Retry() returns (status: Status)
      requires Valid() && awake > 0
      modifies this
      ensures Model() == RetryStep(old(Model())).next && status == RetryStep(old(Model())).status
    {
      awake := awake - 1;
      status := SwapTwo();
    }

    /** `Drop for MutexGuard`; `woke` says whether it called `wake_one`. */
    method Unlock() returns (woke: bool)
      requires Valid() && held
      modifies this
      ensures Model() == UnlockStep(old(Model()))
      ensures woke <==> old(state) == 2
    {
      var prior := state;
      state := 0;
      held := false;
      woke := prior == 2;
      if woke && sleeping > 0 {
        sleeping := sleeping - 1;
        awake := awake + 1;
      }
    }

    /** `Deref for MutexGuard`. */
    method Get() returns (v: T)
      requires Valid() && held
      ensures v == value
    {
      v := value;
    }

    /** An assignment through `DerefMut for MutexGuard`. */
    method Assign(v: T)
      requires Valid() && held
      modifies this
      ensures Model() == AssignStep(old(Model()), v)
    {
      value := v;
    }
  }

  /** Lock, add, unlock, with no other thread around. */
  method LockedAdd(m: Mutex<int>, n: int)
    requires m.Valid() && !m.held && m.sleeping == 0 && m.awake == 0
    modifies m
    ensures m.Valid() && !m.held && m.sleeping == 0 && m.awake == 0
    ensures m.value == old(m.value) + n
  {
    var s := m.Lock();
    var v := m.Get();
    m.Assign(v + n);
    var w := m.Unlock();
  }

  /** The module's test: start at 5 and add 1, 2 and 3 under the lock; the last read sees 11. */
  method AddsUpToEleven() returns (r: int)
    ensures r == 11
  {
    var m := new Mutex(5);
    LockedAdd(m, 1);
    LockedAdd(m, 2);
    LockedAdd(m, 3);
    var s := m.Lock();
    r := m.Get();
    var w := m.Unlock();
  }
}
