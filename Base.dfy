/// Machine words, outcomes of an atomic step, and the message slot shared by the channel
/// models. Every other module imports this one.
module Base {

  /** Largest value of `usize` on the 64-bit targets the library is built for. */
  const USIZE_MAX: nat := 0xFFFF_FFFF_FFFF_FFFF

  /** `usize::MAX / 2`: a clone that finds a count at or above this aborts the process. */
  const USIZE_HALF: nat := USIZE_MAX / 2

  /** Largest value of `u32`, the width of the lock state words. */
  const U32_MAX: nat := 0xFFFF_FFFF

  /** The value range of an `AtomicUsize`. */
  type usize = x: nat | x <= USIZE_MAX

  /** The value range of an `AtomicU32`. */
  type u32 = x: nat | x <= U32_MAX

  /** `fetch_add(1)` on a `usize` word: wraps to 0 past the maximum. */
  function UsizeInc(x: usize): (r: usize)
    ensures r == (x + 1) % (USIZE_MAX + 1)
    ensures x < USIZE_MAX ==> r == x + 1
  {
    if x == USIZE_MAX then 0 else x + 1
  }

  /** `fetch_sub(1)` on a `usize` word: wraps to the maximum below 0. */
  function UsizeDec(x: usize): (r: usize)
    ensures (r + 1) % (USIZE_MAX + 1) == x
    ensures x > 0 ==> r == x - 1
  {
    if x == 0 then USIZE_MAX else x - 1
  }

  /** `fetch_add(1)` on a `u32` word: wraps to 0 past the maximum. */
  function U32Inc(x: u32): (r: u32)
    ensures r == (x + 1) % (U32_MAX + 1)
    ensures x < U32_MAX ==> r == x + 1
  {
    if x == U32_MAX then 0 else x + 1
  }

  /** `fetch_sub(1)` on a `u32` word: wraps to the maximum below 0. */
  function U32Dec(x: u32): (r: u32)
    ensures (r + 1) % (U32_MAX + 1) == x
    ensures x > 0 ==> r == x - 1
  {
    if x == 0 then U32_MAX else x - 1
  }

  datatype Option<T> = None | Some(value: T)

  /** How one atomic step ended for the thread that took it. */
  datatype Status =
    | Done      // the operation completed
    | Blocked   // the thread spins or sleeps; it tries again after another thread moves
    | Panicked  // `panic!` or a failed `assert!`: the calling thread unwinds
    | Aborted   // `std::process::abort()`: the whole process ends

  /** The state after a step, and how the step ended. */
  datatype Step<S> = Step(next: S, status: Status)

  /** A `MaybeUninit<T>` message slot. `MovedOut` is a slot whose value was read out with
      `assume_init_read`: the bits are still there, but the value belongs to the reader. */
  datatype Slot<T> = Uninit | Written(value: T) | MovedOut(value: T)

  /** How a sent message left its channel: handed to the receiver, or destroyed in place. */
  datatype Exit<T> = Received(value: T) | Destroyed(value: T)

  /** The messages that left a channel, in the order they left it. */
  function ExitValues<T>(exits: seq<Exit<T>>): (vs: seq<T>)
    ensures |vs| == |exits|
    ensures forall i :: 0 <= i < |exits| ==> vs[i] == exits[i].value
  {
    if exits == [] then [] else ExitValues(exits[..|exits| - 1]) + [exits[|exits| - 1].value]
  }
}
