# Atomics primitives in Dafny

This project models the hand-built concurrency primitives of the `atomics` Rust crate and
proves their safety properties. The crate's primitives are:

- three reference-counted pointers: `Arc` alone (`src/arc/basic.rs`), `Arc` plus `Weak` with
  one shared count (`src/arc/optimiz.rs`), and `Arc` plus `Weak` where each `Arc` embeds a
  `Weak` (`src/arc/weak.rs`);
- three one-message channels: a single shared object (`src/channel/one_shot.rs`), a
  `Sender`/`Receiver` pair over a shared `Arc` (`src/channel/safety.rs`), and a pair borrowed
  from an owned channel that can be split again (`src/channel/avoid_brrow.rs`);
- two locks: a reader-writer lock (`src/lock/rwlock.rs`) and a three-state mutex
  (`src/lock/mutex.rs`).

Each source file becomes one module, plus `Base`, which holds machine words and outcomes.
Each module has four layers:

- **State value.** A datatype holds the atomic words, together with accounting the program
  does not store: live handles and guards, how many times the payload was dropped and the
  block freed, the messages sent, how each message left the channel, and wake-ups.
- **Step functions.** Each step function is one atomic operation, or one thread's short run
  of them (listed under "## Left out"). It returns the next state and an outcome: `Done`, `Blocked` (spins or sleeps), `Panicked`, or `Aborted`.
  `fetch_add`/`fetch_sub` wrap around at the word's width.
- **Invariant and traces.** An invariant `Inv` holds over the state. `Run` applies any
  sequence of operations, which stands for any interleaving of atomic steps by the threads
  that own the needed handles. Lemmas prove the step contracts and, by induction on traces,
  the crate's promises:
  - the payload is dropped exactly once;
  - the block is freed exactly once;
  - there is no use after free;
  - no message leaks and none is destroyed twice;
  - mutual exclusion holds;
  - no wake-up is lost.
- **Class.** A class has the atomic words as fields. Its methods, which include the
  compare-exchange retry loops, are proved to move the object exactly as the step functions
  do. Client methods replay the scenario of each module's test and prove the outcome it
  prints; the reader-writer lock has no test, and its client method is a scenario of its own.

## Model

| member | source | states |
|---|---|---|
| Base.UsizeInc | src/arc/basic.rs:51-58 | `fetch_add(1)` on a `usize` is `x + 1` modulo 2^64, and exactly `x + 1` below the maximum |
| Base.UsizeDec | src/arc/basic.rs:61-70 | `fetch_sub(1)` on a `usize` is the inverse of the wrapping increment, and exactly `x - 1` above 0 |
| Base.U32Inc | src/lock/rwlock.rs:27-36 | `fetch_add(1)` on a `u32` (the `writer_wait_counter` bump) wraps modulo 2^32 |
| Base.U32Dec | src/lock/rwlock.rs:27-36 | `fetch_sub(1)` on a `u32` is the inverse of the wrapping increment, and exactly `x - 1` above 0 |
| Base.ExitValues | src/channel/safety.rs:56-64 | the values of the messages that left a channel, one per exit and in order |
| ArcBasic.New | src/arc/basic.rs:20-27 | `Arc::new` yields a block that satisfies the invariant, with count 1 and the given payload |
| ArcBasic.CloneSpec | src/arc/basic.rs:51-58 | clone aborts exactly when the count is at least `usize::MAX / 2`; otherwise it adds one handle, keeps the invariant and leaves the payload alone |
| ArcBasic.DropSpec | src/arc/basic.rs:61-70 | drop takes one off the count and keeps the invariant; it frees the block exactly when the count was 1 |
| ArcBasic.UniqueAccessSpec | src/arc/basic.rs:33-40 | `get_mut` grants the payload exactly when the caller holds the only handle |
| ArcBasic.ApplyKeepsInv | src/arc/basic.rs:51-70 | every clone or drop keeps the invariant and the payload |
| ArcBasic.RunKeepsInv | src/arc/basic.rs:7-10 | any sequence of clones and drops keeps the invariant and the payload |
| ArcBasic.FreedOnceAfterLastHandle | src/arc/basic.rs:89-106 | from `new`, the block is freed at most once and exactly when the last handle is gone, and until then `deref` reads the original payload |
| ArcBasic.ArcData.constructor | src/arc/basic.rs:20-27 | the new block is the model of `Arc::new` |
| ArcBasic.ArcData.GetMut | src/arc/basic.rs:33-40 | returns the payload exactly when the caller holds the only handle |
| ArcBasic.ArcData.Deref | src/arc/basic.rs:43-48 | a live handle reads the payload of a block that is not freed |
| ArcBasic.ArcData.Clone | src/arc/basic.rs:51-58 | moves the block as the clone step; aborts exactly at the threshold; otherwise the count is one higher |
| ArcBasic.ArcData.Drop | src/arc/basic.rs:61-70 | moves the block as the drop step and keeps the invariant; reports a free exactly when the count was 1 |
| ArcBasic.CloneThenDropBoth | src/arc/basic.rs:89-106 | clone shares the payload; the first drop does not free it, the second does |
| ArcOptimized.New | src/arc/optimiz.rs:33-41 | `Arc::new` starts with both counts at 1 and satisfies the invariant |
| ArcOptimized.CloneSpec | src/arc/optimiz.rs:97-103 | `Arc` clone aborts exactly at `usize::MAX / 2`; otherwise it adds one `Arc` and keeps the invariant |
| ArcOptimized.DropSpec | src/arc/optimiz.rs:106-116 | `Arc` drop keeps the invariant; the payload is dropped exactly when `ref_count` was 1; the block is freed exactly when both counts were 1 |
| ArcOptimized.DowngradeSpec | src/arc/optimiz.rs:65-86 | `downgrade` spins exactly while `get_mut` holds the claim token, and panics exactly at `usize::MAX - 1`, in both cases with the block unchanged; otherwise it adds one `Weak` and keeps the invariant |
| ArcOptimized.UpgradeSpec | src/arc/optimiz.rs:123-142 | `upgrade` changes nothing once `ref_count` is 0 and panics only at `usize::MAX`, with the block unchanged; otherwise it adds one `Arc` and keeps the invariant |
| ArcOptimized.WeakCloneSpec | src/arc/optimiz.rs:145-151 | `Weak` clone aborts exactly at `usize::MAX / 2`; otherwise it adds one `Weak` |
| ArcOptimized.WeakDropSpec | src/arc/optimiz.rs:154-162 | `Weak` drop keeps the invariant and frees the block exactly when `alloc_ref_count` was 1 |
| ArcOptimized.GetMutSpec | src/arc/optimiz.rs:47-63 | the claim succeeds exactly when `alloc_ref_count` is 1, and releasing it restores the block; `get_mut` grants access exactly to the only handle of either kind |
| ArcOptimized.ApplyKeepsInv | src/arc/optimiz.rs:10-16 | every operation, including either half of `get_mut`, keeps the counting invariant and the payload |
| ArcOptimized.RunKeepsInv | src/arc/optimiz.rs:10-16 | any interleaving keeps the counting invariant and the payload |
| ArcOptimized.DropsHappenOnce | src/arc/optimiz.rs:172-202 | from `new`: the payload is dropped at most once and exactly when the last `Arc` is gone; the block is freed at most once, never before the payload, and exactly when no handle is left |
| ArcOptimized.NoResurrection | src/arc/optimiz.rs:123-142 | once `ref_count` is 0 it stays 0, and the payload is never dropped again |
| ArcOptimized.ClaimExcludesWeaks | src/arc/optimiz.rs:47-86 | while the claim token is held, no `Weak` appears under any interleaving (other claims fail, downgrades spin), so releasing the claim grants the original payload exactly when the caller's `Arc` is the only handle |
| ArcOptimized.ArcData.constructor | src/arc/optimiz.rs:33-41 | the new block is the model of `Arc::new` |
| ArcOptimized.ArcData.GetMut | src/arc/optimiz.rs:47-63 | leaves the block unchanged; returns the payload exactly when there is one `Arc` and no `Weak` |
| ArcOptimized.ArcData.Downgrade | src/arc/optimiz.rs:65-86 | the compare-exchange loop, with any number of spurious failures, moves the block as the downgrade step |
| ArcOptimized.ArcData.Deref | src/arc/optimiz.rs:89-95 | a live `Arc` reads a payload that was neither dropped nor freed |
| ArcOptimized.ArcData.Clone | src/arc/optimiz.rs:97-103 | moves the block as the clone step; aborts exactly at the threshold |
| ArcOptimized.ArcData.ReleaseWeakReference | src/arc/optimiz.rs:154-162 | gives up one weak reference; reports the last one exactly when `alloc_ref_count` was 1 |
| ArcOptimized.ArcData.Drop | src/arc/optimiz.rs:106-116 | moves the block as the drop step and keeps the invariant; reports the payload drop and the block free exactly when they happen |
| ArcOptimized.ArcData.Upgrade | src/arc/optimiz.rs:123-142 | the compare-exchange loop moves the block as the upgrade step; it upgrades exactly when `ref_count` was not 0 |
| ArcOptimized.ArcData.CloneWeak | src/arc/optimiz.rs:145-151 | moves the block as the `Weak` clone step; aborts exactly at the threshold |
| ArcOptimized.ArcData.DropWeak | src/arc/optimiz.rs:154-162 | moves the block as the `Weak` drop step; reports a free exactly when `alloc_ref_count` was 1 |
| ArcOptimized.UpgradeBeforeAndAfterLastDrop | src/arc/optimiz.rs:172-202 | with two `Weak`s, an upgrade succeeds while an `Arc` lives; neither the spawned thread's upgraded `Arc` nor the temporary from `z.upgrade()` drops the payload; after the last `Arc` is dropped, the payload has been dropped and an upgrade fails |
| ArcWeak.New | src/arc/weak.rs:23-33 | `Arc::new` holds the payload, with both counts at 1 |
| ArcWeak.CloneSpec | src/arc/weak.rs:60-68 | `Arc` clone aborts exactly when either count reaches the threshold; otherwise it adds one `Arc` with its embedded `Weak` and keeps the invariant |
| ArcWeak.DropSpec | src/arc/weak.rs:70-79 | `Arc` drop lowers both counts; it takes the payload out exactly when `ref_count` was 1 and frees the block exactly when `alloc_ref_count` was 1 |
| ArcWeak.DowngradeSpec | src/arc/weak.rs:44-46 | `downgrade` aborts exactly at `usize::MAX / 2`; otherwise it adds one `Weak` |
| ArcWeak.UpgradeSpec | src/arc/weak.rs:86-105 | `upgrade` never panics under the invariant; it changes nothing once `ref_count` is 0, and otherwise adds an `Arc` or aborts |
| ArcWeak.WeakCloneSpec | src/arc/weak.rs:108-115 | `Weak` clone aborts exactly at `usize::MAX / 2`; otherwise it adds one `Weak` |
| ArcWeak.WeakDropSpec | src/arc/weak.rs:117-126 | `Weak` drop keeps the invariant and frees the block exactly when `alloc_ref_count` was 1 |
| ArcWeak.GetMutAsWrittenSpec | src/arc/weak.rs:35-42 | `get_mut` as written grants access exactly when `ref_count` is 1, whatever the `Weak`s |
| ArcWeak.GetMutAliasedByUpgrade | src/arc/weak.rs:35-46 | after `new` and one `downgrade`, `get_mut` as written grants access, yet the `Weak` still upgrades to a second `Arc` that reads the same payload |
| ArcWeak.GetMutUniqueSpec | src/arc/weak.rs:35-42 | the corrected `get_mut` grants access exactly when there is one `Arc` and no `Weak` |
| ArcWeak.ApplyKeepsInv | src/arc/weak.rs:8-20 | every operation keeps the invariant, and a step that leaves an `Arc` alive does not touch the payload |
| ArcWeak.RunKeepsInv | src/arc/weak.rs:8-20 | any interleaving keeps the invariant |
| ArcWeak.RunKeepsPayload | src/arc/weak.rs:52-79 | under any interleaving, the payload cell holds the original payload while an `Arc` lives, and is empty otherwise |
| ArcWeak.PayloadAndBlockLifetimes | src/arc/weak.rs:135-165 | from `new`: `deref` sees the original payload while an `Arc` lives; the payload is dropped at most once, when the last `Arc` goes; the block is freed at most once, when no handle is left |
| ArcWeak.NoResurrection | src/arc/weak.rs:86-105 | once `ref_count` is 0 it stays 0 and the payload cell stays empty |
| ArcWeak.ArcData.constructor | src/arc/weak.rs:23-33 | the new block is the model of `Arc::new` |
| ArcWeak.ArcData.GetMut | src/arc/weak.rs:35-42 | as written: returns the payload exactly when `ref_count` is 1 |
| ArcWeak.ArcData.GetMutUnique | src/arc/weak.rs:35-42 | corrected: returns the payload exactly when there is one `Arc` and no `Weak` |
| ArcWeak.ArcData.Deref | src/arc/weak.rs:52-57 | a live `Arc` finds the payload cell full, so the `unwrap` succeeds |
| ArcWeak.ArcData.CloneWeakReference | src/arc/weak.rs:108-115 | moves the block as the weak-count increment |
| ArcWeak.ArcData.ReleaseWeakReference | src/arc/weak.rs:117-126 | moves the block as the weak-count decrement; reports the last one exactly at 1 |
| ArcWeak.ArcData.Downgrade | src/arc/weak.rs:44-46 | moves the block as the downgrade step |
| ArcWeak.ArcData.Clone | src/arc/weak.rs:60-68 | moves the block as the `Arc` clone step |
| ArcWeak.ArcData.ReleaseStrongReference | src/arc/weak.rs:70-79 | lowers `ref_count` and takes the payload out exactly when it was 1 |
| ArcWeak.ArcData.Drop | src/arc/weak.rs:70-79 | moves the block as the `Arc` drop step; reports the payload drop and the block free exactly when they happen |
| ArcWeak.ArcData.Upgrade | src/arc/weak.rs:86-105 | moves the block as the upgrade step; upgrades exactly when `ref_count` was not 0 |
| ArcWeak.ArcData.CloneWeak | src/arc/weak.rs:108-115 | moves the block as the `Weak` clone step; aborts exactly at the threshold |
| ArcWeak.ArcData.DropWeak | src/arc/weak.rs:117-126 | moves the block as the `Weak` drop step; reports a free exactly when `alloc_ref_count` was 1 |
| ArcWeak.UpgradeBeforeAndAfterLastDrop | src/arc/weak.rs:135-165 | an upgrade succeeds while an `Arc` lives; neither the spawned thread's upgraded `Arc` nor the temporary from `z.upgrade()` drops the payload; the last `Arc` drop drops the payload; a later upgrade fails |
| OneShotChannel.Pending | src/channel/one_shot.rs:18-21 | at most one message is waiting, and one is waiting exactly when the slot is written |
| OneShotChannel.New | src/channel/one_shot.rs:26-31 | a new channel is `Empty`, with nothing sent, in flight or received |
| OneShotChannel.DestroyedBy | src/channel/one_shot.rs:72-81 | a disposal destroys at most one message |
| OneShotChannel.SwapSpec | src/channel/one_shot.rs:35-41 | the swap to `Writing` panics exactly when the state was not `Empty`, leaving `Writing` behind; otherwise the caller alone holds the slot |
| OneShotChannel.ClaimSpec | src/channel/one_shot.rs:35-41 | corrected first step: a compare-exchange that fails exactly when the state was not `Empty`, and then changes nothing |
| OneShotChannel.PublishSpec | src/channel/one_shot.rs:44-48 | the write and the `Ready` store make the in-flight message the one sent and waiting, whatever failed sends did to the state meanwhile |
| OneShotChannel.ReceiveSpec | src/channel/one_shot.rs:55-69 | `receive` succeeds exactly on a `Ready` channel and returns the waiting message; otherwise it panics and changes nothing |
| OneShotChannel.ReceivedWasSent | src/channel/one_shot.rs:10-21 | at most one message is sent; a received message is the one sent; a `Ready` channel holds the sent message, unreceived |
| OneShotChannel.RunKeepsInv | src/channel/one_shot.rs:33-69 | any interleaving of the two steps of each `send` and of `receive`, panicking or not, keeps the invariant; with the corrected send, `Writing` also keeps meaning that a send is in flight |
| OneShotChannel.AtMostOneMessage | src/channel/one_shot.rs:33-69 | from `new`, whatever the threads do, at most one message is accepted and only it can be received |
| OneShotChannel.FailedSendDuringWrite | src/channel/one_shot.rs:35-48 | a `send` that fails while another is between its swap and its store does not stop the message: it is published and waits, `Ready` |
| OneShotChannel.PanickingSendStrandsMessage | src/channel/one_shot.rs:35-41 | as written, a second `send` after a completed one leaves `Writing` over the message: `receive` panics and even the corrected drop destroys nothing |
| OneShotChannel.DropAsWrittenDestroysUninit | src/channel/one_shot.rs:72-81 | as written, dropping a fresh channel destroys an uninitialised slot |
| OneShotChannel.DropAsWrittenLeaks | src/channel/one_shot.rs:72-81 | as written, dropping a channel whose message was sent but not received leaks it |
| OneShotChannel.DropAsWrittenSpec | src/channel/one_shot.rs:72-81 | as written, drop touches the slot exactly when the state is `Empty`, which with no send in flight is exactly when nothing was sent, and then the slot is uninitialised |
| OneShotChannel.DropCorrectedSpec | src/channel/one_shot.rs:72-81 | the corrected drop never destroys an uninitialised or read-out slot and destroys exactly the message waiting under `Ready`; when the state is not a `Writing` left by a failed send, each sent message is received or destroyed exactly once |
| OneShotChannel.NoLeakWithCorrectedSend | src/channel/one_shot.rs:33-81 | with the corrected send and drop, under any interleaving, at the drop (no send in flight) each sent message is received or destroyed exactly once |
| OneShotChannel.OneShot.constructor | src/channel/one_shot.rs:26-31 | the new object is the model of `Channel::new` |
| OneShotChannel.OneShot.Send | src/channel/one_shot.rs:33-49 | as written: panics exactly when the state was not `Empty`, after the swap; otherwise the swap, then the publish |
| OneShotChannel.OneShot.SendCorrected | src/channel/one_shot.rs:33-49 | corrected: panics exactly when the state was not `Empty`, leaving the channel unchanged; otherwise the claim, then the publish |
| OneShotChannel.OneShot.IsReady | src/channel/one_shot.rs:51-53 | true exactly when the state is `Ready`, and then the sent message is waiting, unreceived |
| OneShotChannel.OneShot.Receive | src/channel/one_shot.rs:55-69 | moves the channel as the receive step; returns the one sent message exactly when the state was `Ready` |
| OneShotChannel.OneShot.Drop | src/channel/one_shot.rs:72-81 | as written: acts on the slot exactly when nothing was sent |
| OneShotChannel.OneShot.DropCorrected | src/channel/one_shot.rs:72-81 | corrected: acts exactly when the state is `Ready`; when the state is not a `Writing` left by a failed send, received plus destroyed equals sent |
| OneShotChannel.SendThenReceive | src/channel/one_shot.rs:89-104 | the channel is ready after a send; receive returns the message; a second send panics; the program's drop then destroys nothing |
| OneShotChannel.SendTwiceThenDrop | src/channel/one_shot.rs:33-81 | with both corrections, a failed second send leaves the first message in place and the drop destroys it |
| SafetyChannel.Pending | src/channel/safety.rs:7-11 | at most one message is owned by the channel, exactly when it is ready, written and not yet dropped |
| SafetyChannel.New | src/channel/safety.rs:23-32 | `channel()` makes both handles live, with nothing sent and `ready` false |
| SafetyChannel.ExitValuesAppend | src/channel/safety.rs:48-64 | one more exit appends its message's value |
| SafetyChannel.ReleaseHandleSpec | src/channel/safety.rs:56-64 | dropping one `Arc` keeps the invariant; the channel is dropped exactly when the strong count was 1 |
| SafetyChannel.SendSpec | src/channel/safety.rs:35-41 | `send` records its message; it becomes pending if the receiver lives, and is destroyed by the channel's drop otherwise |
| SafetyChannel.DropSenderSpec | src/channel/safety.rs:15-17 | dropping an unused `Sender` keeps the invariant |
| SafetyChannel.ReceiveSpec | src/channel/safety.rs:48-53 | `receive` succeeds exactly when `ready` was set and returns the sent message; otherwise it panics and no message leaves |
| SafetyChannel.DropReceiverSpec | src/channel/safety.rs:19-21 | dropping an unused `Receiver` keeps the invariant and drops the channel exactly when the `Sender` is gone |
| SafetyChannel.ApplyKeepsInv | src/channel/safety.rs:7-32 | every operation keeps the invariant |
| SafetyChannel.RunKeepsInv | src/channel/safety.rs:7-32 | any order of uses and drops keeps the invariant |
| SafetyChannel.NoLeakNoDoubleDrop | src/channel/safety.rs:56-84 | at most one message is sent; once both handles are gone, each sent message has left exactly once, received or destroyed |
| SafetyChannel.SharedChannel.constructor | src/channel/safety.rs:23-32 | the new object is the model of `channel()` |
| SafetyChannel.SharedChannel.Release | src/channel/safety.rs:56-64 | moves the channel as the `Arc` drop step |
| SafetyChannel.SharedChannel.Send | src/channel/safety.rs:35-41 | moves the channel as the send step |
| SafetyChannel.SharedChannel.DropSender | src/channel/safety.rs:15-17 | moves the channel as the `Sender` drop |
| SafetyChannel.SharedChannel.IsReady | src/channel/safety.rs:44-46 | true exactly when the sent message is pending |
| SafetyChannel.SharedChannel.Receive | src/channel/safety.rs:48-53 | moves the channel as the receive step; returns the sent message exactly when `ready` was set |
| SafetyChannel.SharedChannel.DropReceiver | src/channel/safety.rs:19-21 | moves the channel as the `Receiver` drop |
| SafetyChannel.SendThenReceive | src/channel/safety.rs:71-84 | after a send, the receiver sees `is_ready` and receives the message |
| BorrowChannel.Pending | src/channel/avoid_brrow.rs:10-13 | at most one message is owned by the channel, exactly when it is ready, written and not yet dropped |
| BorrowChannel.New | src/channel/avoid_brrow.rs:18-23 | `Channel::new` is not ready and has no history |
| BorrowChannel.ExitValuesAppend | src/channel/avoid_brrow.rs:40-46 | one more exit appends its message's value |
| BorrowChannel.DropSpec | src/channel/avoid_brrow.rs:40-46 | drop destroys the message exactly when `ready` is set, after which every sent message has left |
| BorrowChannel.SplitSpec | src/channel/avoid_brrow.rs:25-37 | `split` destroys a message left unreceived by the previous round, then lends both handles out on a fresh channel |
| BorrowChannel.SendSpec | src/channel/avoid_brrow.rs:53-59 | `send` never overwrites a pending message, makes its own pending, and unparks the receiver |
| BorrowChannel.ReceiveSpec | src/channel/avoid_brrow.rs:66-73 | a pass of `receive` completes exactly when `ready` is set, returning the pending message; otherwise it parks and changes nothing |
| BorrowChannel.ApplyKeepsInv | src/channel/avoid_brrow.rs:10-46 | every operation keeps the invariant |
| BorrowChannel.RunKeepsInv | src/channel/avoid_brrow.rs:10-46 | any sequence of rounds keeps the invariant |
| BorrowChannel.NoLeakNoDoubleDrop | src/channel/avoid_brrow.rs:82-100 | over any number of rounds, once the channel is dropped, every message sent has left exactly once, in order |
| BorrowChannel.OwnedChannel.constructor | src/channel/avoid_brrow.rs:18-23 | the new object is the model of `Channel::new` |
| BorrowChannel.OwnedChannel.Drop | src/channel/avoid_brrow.rs:40-46 | moves the channel as the drop step |
| BorrowChannel.OwnedChannel.Split | src/channel/avoid_brrow.rs:25-37 | moves the channel as the split step |
| BorrowChannel.OwnedChannel.Send | src/channel/avoid_brrow.rs:53-59 | moves the channel as the send step |
| BorrowChannel.OwnedChannel.Receive | src/channel/avoid_brrow.rs:66-73 | moves the channel as one receive pass; when it completes it returns the message that was pending |
| BorrowChannel.TwoRounds | src/channel/avoid_brrow.rs:82-100 | two rounds on one channel each deliver their own message |
| RwLock.New | src/lock/rwlock.rs:68-75 | `RwLock::new` is unlocked, with no guards |
| RwLock.SignalsWrap | src/lock/rwlock.rs:27-65 | the wrapping counter bump agrees with counting bumps modulo 2^32 |
| RwLock.ReadSpec | src/lock/rwlock.rs:77-95 | a read pass waits exactly while a writer holds the lock, panics exactly at `u32::MAX - 1` readers, and otherwise adds one reader |
| RwLock.ReadUnlockSpec | src/lock/rwlock.rs:27-36 | a reader release removes one reader; the last one bumps the counter and leaves the lock free |
| RwLock.WriteSpec | src/lock/rwlock.rs:97-111 | a write pass locks exactly when there is no guard at all; otherwise it waits and changes nothing |
| RwLock.WriteUnlockSpec | src/lock/rwlock.rs:56-65 | a writer release frees the lock, bumps the counter and wakes the readers |
| RwLock.ApplySpec | src/lock/rwlock.rs:8-14 | every step keeps the invariant, never takes a signal back, and signals whenever it frees the lock |
| RwLock.NoLostWakeup | src/lock/rwlock.rs:97-111 | under any interleaving, once the lock becomes free there has been a signal since, and once a writer leaves the readers have been woken |
| RwLock.CounterMovedWithSignals | src/lock/rwlock.rs:97-111 | fewer than 2^32 signals after a writer read the counter, the counter differs from what it read, so its wait returns |
| RwLock.Exclusion | src/lock/rwlock.rs:8-14 | from `new`, readers and a writer never hold the lock at once, and `state` is `u32::MAX` exactly while a writer holds it |
| RwLock.RwLock.constructor | src/lock/rwlock.rs:68-75 | the new object is the model of `RwLock::new` |
| RwLock.RwLock.Read | src/lock/rwlock.rs:77-95 | the compare-exchange loop, with any number of spurious failures, moves the lock as one read step |
| RwLock.RwLock.ReadUnlock | src/lock/rwlock.rs:27-36 | moves the lock as the reader release; wakes a writer exactly when it was the last reader |
| RwLock.RwLock.Write | src/lock/rwlock.rs:97-111 | moves the lock as the write step; when it waits, it waits on the current counter |
| RwLock.RwLock.WriteUnlock | src/lock/rwlock.rs:56-65 | moves the lock as the writer release |
| RwLock.RwLock.Get | src/lock/rwlock.rs:20-25 | a guard holder reads the protected value |
| RwLock.RwLock.Assign | src/lock/rwlock.rs:50-54 | the writer's assignment changes the protected value and nothing else |
| RwLock.ReadersThenWriter | src/lock/rwlock.rs:27-111 | with two readers a writer waits; the last reader wakes it; the writer then takes the lock and its update is seen |
| Mutex.New | src/lock/mutex.rs:21-26 | `Mutex::new` is unlocked with nobody asleep |
| Mutex.LockSpec | src/lock/mutex.rs:28-63 | `lock` takes the lock exactly when it is free; otherwise the caller sleeps with the word at 2 |
| Mutex.RetrySpec | src/lock/mutex.rs:47-63 | a woken waiter takes the lock exactly when it is free, leaving the word at 2 |
| Mutex.UnlockSpec | src/lock/mutex.rs:82-88 | unlock frees the lock and wakes a sleeper exactly when the word was 2 and one is asleep |
| Mutex.SpuriousWakeSpec | src/lock/mutex.rs:47-63 | a spurious return from `wait` keeps the invariant |
| Mutex.ApplyKeepsInv | src/lock/mutex.rs:9-15 | every step keeps the invariant |
| Mutex.RunKeepsInv | src/lock/mutex.rs:9-15 | any interleaving keeps the invariant |
| Mutex.NoLostWakeup | src/lock/mutex.rs:9-15 | from `new`: the word stays in 0..2, it is non-zero exactly while a guard lives, and a free mutex with sleepers always has a woken waiter about to retry |
| Mutex.Mutex.constructor | src/lock/mutex.rs:21-26 | the new object is the model of `Mutex::new` |
| Mutex.Mutex.Lock | src/lock/mutex.rs:28-44 | moves the mutex as the lock step |
| Mutex.Mutex.LockContended | src/lock/mutex.rs:47-63 | the bounded spin, then the swap loop, moves the mutex as the lock step |
| Mutex.Mutex.SwapTwo | src/lock/mutex.rs:60-62 | one pass of the swap loop |
| Mutex.Mutex.Retry | src/lock/mutex.rs:60-62 | a woken waiter's next pass moves the mutex as the retry step |
| Mutex.Mutex.Unlock | src/lock/mutex.rs:82-88 | moves the mutex as the unlock step; calls `wake_one` exactly when the word was 2 |
| Mutex.Mutex.Get | src/lock/mutex.rs:69-74 | the guard holder reads the protected value |
| Mutex.Mutex.Assign | src/lock/mutex.rs:76-80 | the guard holder's assignment changes the value and nothing else |
| Mutex.LockedAdd | src/lock/mutex.rs:98-109 | lock, add, unlock leaves the mutex free and the value increased by `n` |
| Mutex.AddsUpToEleven | src/lock/mutex.rs:98-109 | 5 plus 1, 2 and 3 under the lock reads 11 |

## Left out

- Memory orderings and fences. Every atomic read-modify-write is one indivisible step, so
  the model is sequentially consistent. Happens-before arguments are not modelled.
- Thread scheduling. An interleaving is a sequence of operations (`Run`). Each class method
  is proved against one thread's step.
- OS waits and wakes (`atomic_wait::wait`, `wake_one`, `wake_all`, `park`, `unpark`). A
  thread that would sleep gets the `Blocked` outcome. Wake-ups are counted in the state, and
  a woken thread's next attempt is a separate operation.
- `panic!` and `std::process::abort()`. They become the `Panicked` and `Aborted` outcomes.
  After an abort a trace ends. In `ArcOptimized`, `ArcWeak` and `RwLock` a trace also ends at
  a `Panicked` step, although in Rust only the panicking thread unwinds. Every such step
  leaves the state unchanged (`ArcOptimized.DowngradeSpec`, `ArcOptimized.UpgradeSpec` and
  `RwLock.ReadSpec` say so; `ArcWeak.UpgradeSpec` shows it never panics), so the same trace
  without that operation covers every continuation. The `Drop` run by an unwinding thread is
  modelled only where it matters: in `SafetyChannel`, a panicking `receive` drops its
  `Receiver`. In `OneShotChannel` a panicking `send` does change the state, and the trace
  goes on.
- Steps that fuse one thread's short run of atomic operations: `ArcOptimized.DropStep`
  (optimiz.rs:108-114), `ArcWeak.CloneStep` (weak.rs:60-68), `ArcWeak.DropStep`
  (weak.rs:70-79), `ArcWeak.UpgradeStep` (weak.rs:86-105, the compare-exchange and the clone's `fetch_add`),
  `RwLock.ReadUnlockStep` (rwlock.rs:29-33), `RwLock.WriteUnlockStep` (rwlock.rs:58-62),
  `RwLock.WriteStep` (rwlock.rs:98-104) and `Mutex.LockStep` (mutex.rs:32-62). The model does
  not show the states in between. For the pointers, the later operations touch a count that
  the acting thread's own handle keeps above zero, so no other thread can free or reuse the
  block in between. For the locks, the in-between states are covered by a trace that orders
  the fused step before or after the other thread's step: a writer that read the counter
  before a release sees it moved, and a locker whose `swap(2)` finds the mutex free ends as
  a woken waiter's retry does, holding the lock with the word at 2.
- `one_shot.rs` keeps its state as an `AtomicPtr<State>` to constants (lines 29, 36, 46 and
  59-60), and `receive`'s compare-exchange compares addresses. The model keeps the `State`
  value instead, which assumes each constant has one address.
- Spurious failures of `compare_exchange_weak`. They are a `spurious` count parameter of the
  loops in `ArcOptimized.ArcData.Downgrade`, `ArcOptimized.ArcData.Upgrade` and
  `RwLock.RwLock.Read`.
- The retry branch of a strong `compare_exchange` that fails only when another thread
  changed the word in between. This covers `weak.rs` upgrade (lines 94-101) and the recheck
  in `rwlock.rs` write (lines 104-108). In a single-thread method that branch cannot fire;
  in the traces the other thread's step comes first.
- References returned by `get_mut`, `deref` and `deref_mut`. They are modelled as the value
  read, or as an assignment through the guard.
- `usize` is 64 bits wide, as on the targets the crate is built for.
- The std `Arc` around the channel in `safety.rs`. It is modelled by its strong count
  (`refs`) and the two handle flags. `thread::current()` and `park` in `avoid_brrow.rs` are
  modelled by a count of unparks.
- `RwLock.RwLock.Write`: the writer waits on `writer_wait_counter`. A counter that has
  wrapped by exactly 2^32 bumps since the read would let `wait` sleep through a signal.
  `RwLock.CounterMovedWithSignals` shows the counter moves for fewer than 2^32 bumps; beyond
  that the model does not claim progress.
- The lock has no writer preference and no fairness. Neither does the source; no liveness
  property is claimed for any primitive.
- `ArcWeak.ArcData.Drop` states the step equation and what it reports, but not that the
  invariant still holds afterwards. `ArcWeak.DropSpec` proves that of the step it equals.
- `BorrowChannel.OwnedChannel.Drop` and `BorrowChannel.OwnedChannel.Split` state only the
  step equation. `BorrowChannel.DropSpec` and `BorrowChannel.SplitSpec` prove what they
  destroy and that the invariant holds.
- `OneShotChannel.DropCorrectedSpec` and `OneShotChannel.OneShot.DropCorrected` promise no
  leak only when the state is not a `Writing` left by a failed `send`: with the program's
  `send` the message is then stranded (the `send` row of "## Findings"), and only the corrected
  `send` removes that case (`OneShotChannel.NoLeakWithCorrectedSend`).
- `src/lock/condvar.rs`, the spin locks, the mutex-based channel and the demo programs are
  not part of this model. Neither are the benchmark tests in `src/lock/mutex.rs`
  (lines 111-140), which only time the lock.

## Findings

| source | as written | input that shows it | evidently intended | confidence | as-written member | corrected member |
|---|---|---|---|---|---|---|
| src/channel/one_shot.rs:72-81 | `Drop for Channel` returns unless the state is `Empty`, then destroys the slot | a channel dropped right after `new` (an uninitialised slot is destroyed); a channel dropped after `send` and before `receive` (the message leaks) | destroy the message exactly when the state is `Ready` | not executed | OneShotChannel.DropAsWrittenDestroysUninit, OneShotChannel.DropAsWrittenLeaks | OneShotChannel.DropCorrectedSpec |
| src/channel/one_shot.rs:35-41 | `send` swaps `Writing` into the state before checking it, so a failing call overwrites `Ready` | `send(v)`, then `send(w)`: the second panics and leaves `Writing` over `v`, which `receive` refuses and no drop destroys | a compare-exchange from `Empty`, so a failing `send` leaves the state alone | not executed | OneShotChannel.PanickingSendStrandsMessage | OneShotChannel.NoLeakWithCorrectedSend |
| src/arc/weak.rs:35-42 | `get_mut` grants `&mut T` when `ref_count` is 1 | `Arc::new(x)`, then `Arc::downgrade`: `get_mut` succeeds while the `Weak` can still `upgrade` to a second `Arc` that reads the same payload | grant access only when `alloc_ref_count` is 1, so no `Weak` exists either | not executed | ArcWeak.GetMutAliasedByUpgrade | ArcWeak.GetMutUniqueSpec |
