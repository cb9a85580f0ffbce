/// `src/channel/avoid_brrow.rs`: a one-message channel owned by the caller and lent to a
/// `Sender` and a `Receiver` by `split`. Borrowing rules keep `split` and the final drop from
/// running while a handle is alive; `split` resets the channel, dropping the old one first.
module BorrowChannel {
  import opened Base

  /** The channel, which handles are lent out, and bookkeeping: `sent` and `exits` over all
      rounds of `split`, `unparks` the wake-ups `send` issued, `dropped` whether the owner
      dropped the channel. */
  datatype Channel<T> = Channel(
    message: Slot<T>,
    ready: bool,
    senderAlive: bool,
    receiverAlive: bool,
    sent: seq<T>,
    exits: seq<Exit<T>>,
    unparks: nat,
    dropped: bool)

  /** The message still owned by the channel. */
  function Pending<T>(c: Channel<T>): (p: seq<T>)
    ensures |p| <= 1
    ensures p != [] <==> c.ready && !c.dropped && c.message.Written?
  {
    if c.ready && !c.dropped && c.message.Written? then [c.message.value] else []
  }

  /** Every message sent is still pending or has left exactly once; `ready` says exactly
      whether a message is pending; a live `Sender` finds an empty slot, so `send` never
      overwrites a message; a dropped channel has no handles. */
  ghost predicate Inv<T>(c: Channel<T>) {
    ExitValues(c.exits) + Pending(c) == c.sent &&
    (c.ready ==> c.message.Written?) &&
    (c.message.Written? && !c.dropped ==> c.ready) &&
    (c.senderAlive ==> c.message.Uninit?) &&
    (c.message.MovedOut? ==> !c.receiverAlive) &&
    (c.dropped ==> !c.senderAlive && !c.receiverAlive)
  }

  /** `Channel::new`. */
  function New<T>(): (c: Channel<T>)
    ensures Inv(c) && !c.ready && c.sent == [] && c.exits == []
  {
    Channel(Uninit, false, false, false, [], [], 0, false)
  }

  /** `Drop for Channel`: destroy the message if `ready` is set. */
  function DropStep<T>(c: Channel<T>): Channel<T> {
    if c.ready && c.message.Written? then
      c.(dropped := true, exits := c.exits + [Destroyed(c.message.value)])
    else c.(dropped := true)
  }

  /** `split`: `*self = Self::new()` drops the old channel, then both handles are lent out. */
  function SplitStep<T>(c: Channel<T>): Channel<T>
    requires !c.senderAlive && !c.receiverAlive && !c.dropped
  {
    var d := DropStep(c);
    d.(message := Uninit, ready := false, senderAlive := true, receiverAlive := true,
       dropped := false)
  }

  /** `Sender::send`: write the message, set `ready`, unpark the receiving thread; the
      `Sender` is consumed. */
  function SendStep<T>(c: Channel<T>, v: T): Channel<T>
    requires c.senderAlive
  {
    c.(message := Written(v), ready := true, senderAlive := false, sent := c.sent + [v],
       unparks := c.unparks + 1)
  }

  /** One pass of `Receiver::receive`'s loop: `swap(false)`; if it was false the thread parks
      (nothing changes) and tries again when woken; otherwise it reads the message and the
      `Receiver` is consumed. */
  function ReceiveStep<T>(c: Channel<T>): Step<Channel<T>>
    requires c.receiverAlive
  {
    if !c.ready || !c.message.Written? then Step(c.(ready := false), Blocked)
    else
      var v := c.message.value;
      Step(c.(ready := false, message := MovedOut(v), receiverAlive := false,
              exits := c.exits + [Received(v)]), Done)
  }

  lemma ExitValuesAppend<T>(exits: seq<Exit<T>>, e: Exit<T>)
    ensures ExitValues(exits + [e]) == ExitValues(exits) + [e.value]
  {
    assert (exits + [e])[..|exits|] == exits;
  }

  lemma DropSpec<T>(c: Channel<T>)
    requires Inv(c) && !c.senderAlive && !c.receiverAlive && !c.dropped
    ensures Inv(DropStep(c)) && DropStep(c).dropped
    ensures ExitValues(DropStep(c).exits) == c.sent
    ensures DropStep(c).exits == c.exits + (if c.ready then [Destroyed(c.message.value)] else [])
  {
    if c.ready {
      ExitValuesAppend(c.exits, Destroyed(c.message.value));
    }
  }

  /** `split` destroys a message the previous round left unreceived, and hands out a fresh,
      empty channel. */
  lemma SplitSpec<T>(c: Channel<T>)
    requires Inv(c) && !c.senderAlive && !c.receiverAlive && !c.dropped
    ensures Inv(SplitStep(c))
    ensures ExitValues(SplitStep(c).exits) == c.sent
    ensures SplitStep(c).exits == c.exits + (if c.ready then [Destroyed(c.message.value)] else [])
    ensures SplitStep(c).senderAlive && SplitStep(c).receiverAlive && !SplitStep(c).ready
  {
    DropSpec(c);
  }

  /** `send` never overwrites a pending message, and makes its own message pending. */
  lemma SendSpec<T>(c: Channel<T>, v: T)
    requires Inv(c) && c.senderAlive
    ensures Pending(c) == []
    ensures Inv(SendStep(c, v)) && Pending(SendStep(c, v)) == [v]
    ensures SendStep(c, v).unparks == c.unparks + 1
  {
  }

  /** `receive` completes exactly when a message is pending, and returns that message. */
  lemma ReceiveSpec<T>(c: Channel<T>)
    requires Inv(c) && c.receiverAlive
    ensures Inv(ReceiveStep(c).next)
    ensures ReceiveStep(c).status == Done <==> c.ready
    ensures ReceiveStep(c).status == Done ==>
      Pending(c) == [c.message.value] &&
      ReceiveStep(c).next.exits == c.exits + [Received(c.message.value)]
    ensures ReceiveStep(c).status == Blocked ==> ReceiveStep(c).next == c
  {
    if c.ready {
      ExitValuesAppend(c.exits, Received(c.message.value));
    }
  }

  datatype Op<T> = Split | Send(value: T) | DropSender | Receive | DropReceiver | DropChannel

  /** Borrowing rules: `split` and the drop need the channel exclusively; `send` and
      `receive` need their handle. */
  predicate Enabled<T>(c: Channel<T>, op: Op<T>) {
    !c.dropped &&
    match op
    case Split => !c.senderAlive && !c.receiverAlive
    case Send(_) => c.senderAlive
    case DropSender => c.senderAlive
    case Receive => c.receiverAlive
    case DropReceiver => c.receiverAlive
    case DropChannel => !c.senderAlive && !c.receiverAlive
  }

  /** One operation; a `receive` that parks leaves everything as it was. */
  function Apply<T>(c: Channel<T>, op: Op<T>): Option<Channel<T>> {
    if !Enabled(c, op) then None
    else match op
      case Split => Some(SplitStep(c))
      case Send(v) => Some(SendStep(c, v))
      case DropSender => Some(c.(senderAlive := false))
      case Receive => Some(ReceiveStep(c).next)
      case DropReceiver => Some(c.(receiverAlive := false))
      case DropChannel => Some(DropStep(c))
  }

  function Run<T>(c: Channel<T>, ops: seq<Op<T>>): Option<Channel<T>>
    decreases |ops|
  {
    if ops == [] then Some(c)
    else match Apply(c, ops[0])
      case None => None
      case Some(c') => Run(c', ops[1..])
  }

  lemma ApplyKeepsInv<T>(c: Channel<T>, op: Op<T>)
    requires Inv(c)
    ensures Apply(c, op).Some? ==> Inv(Apply(c, op).value)
  {
    if Enabled(c, op) {
      match op
      case Split => SplitSpec(c);
      case Send(v) => SendSpec(c, v);
      case DropSender =>
      case Receive => ReceiveSpec(c);
      case DropReceiver =>
      case DropChannel => DropSpec(c);
    }
  }

  lemma {:induction false} RunKeepsInv<T>(c: Channel<T>, ops: seq<Op<T>>)
    requires Inv(c)
    ensures Run(c, ops).Some? ==> Inv(Run(c, ops).value)
    decreases |ops|
  {
    if ops != [] {
      ApplyKeepsInv(c, ops[0]);
      if Apply(c, ops[0]).Some? {
        RunKeepsInv(Apply(c, ops[0]).value, ops[1..]);
      }
    }
  }

  /** Over any number of rounds of `split`, once the owner drops the channel every message
      ever sent has left exactly once, received or destroyed: nothing leaks, nothing is
      dropped twice, and the messages leave in the order they were sent. */
  lemma NoLeakNoDoubleDrop<T>(ops: seq<Op<T>>)
    requires Run(New(), ops).Some?
    ensures var c := Run(New(), ops).value;
      |c.exits| <= |c.sent| && (c.dropped ==> ExitValues(c.exits) == c.sent)
  {
    RunKeepsInv(New(), ops);
    var c := Run(New(), ops).value;
    assert |ExitValues(c.exits) + Pending(c)| == |c.sent|;
    if c.dropped {
      assert ExitValues(c.exits) + [] == ExitValues(c.exits);
    }
  }

  /** The channel the caller owns. */
  class OwnedChannel<T> {
    var message: Slot<T>
    var ready: bool
    ghost var senderAlive: bool
    ghost var receiverAlive: bool
    ghost var sent: seq<T>
    ghost var exits: seq<Exit<T>>
    ghost var unparks: nat
    ghost var dropped: bool

    ghost function Model(): Channel<T>
      reads this
    {
      Channel(message, ready, senderAlive, receiverAlive, sent, exits, unparks, dropped)
    }

    ghost predicate Valid()
      reads this
    {
      Inv(Model())
    }

    /** `Channel::new`. */
    constructor ()
      ensures Model() == New() && Valid()
    {
      message, ready := Uninit, false;
      senderAlive, receiverAlive := false, false;
      sent, exits, unparks, dropped := [], [], 0, false;
    }

    /** `Drop for Channel`. */
    method Drop()
      requires Valid() && !senderAlive && !receiverAlive && !dropped
      modifies this
      ensures Model() == DropStep(old(Model()))
    {
      if ready && message.Written? {
        exits := exits + [Destroyed(message.value)];
      }
      dropped := true;
    }

    /** `split`. */
    method Split()
      requires Valid() && !senderAlive && !receiverAlive && !dropped
      modifies this
      ensures Model() == SplitStep(old(Model()))
    {
      Drop();
      message, ready := Uninit, false;
      senderAlive, receiverAlive, dropped := true, true, false;
    }

    /** `Sender::send`. */
    method Send(v: T)
      requires Valid() && senderAlive
      modifies this
      ensures Model() == SendStep(old(Model()), v)
    {
      message := Written(v);
      ready := true;
      senderAlive := false;
      sent := sent + [v];
      unparks := unparks + 1;
    }

    /** One pass of `Receiver::receive`'s loop; `Blocked` means the thread parked. */
    method Receive() returns (status: Status, r: Option<T>)
      requires Valid() && receiverAlive
      modifies this
      ensures Model() == ReceiveStep(old(Model())).next
      ensures status == ReceiveStep(old(Model())).status
      ensures r.Some? <==> status == Done
      ensures status == Done ==> old(Pending(Model())) == [r.value]
    {
      var wasReady := ready;
      ready := false;
      if !wasReady || !message.Written? {
        status, r := Blocked, None;
        return;
      }
      var v := message.value;
      message := MovedOut(v);
      receiverAlive := false;
      exits := exits + [Received(v)];
      status, r := Done, Some(v);
    }
  }

  /** The module's test: two rounds on one channel, each splitting it, sending one message and
      receiving it; neither `split` nor the final drop has anything left to destroy. */
  method TwoRounds<T>(first: T, second: T) returns (r1: Option<T>, r2: Option<T>)
    ensures r1 == Some(first) && r2 == Some(second)
  {
    var chan := new OwnedChannel();
    chan.Split();
    chan.Send(first);
    var s1;
    s1, r1 := chan.Receive();
    chan.Split();
    chan.Send(second);
    var s2;
    s2, r2 := chan.Receive();
    chan.Drop();
    assert chan.exits == [Received(first), Received(second)];
  }
}
